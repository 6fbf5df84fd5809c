/**
 * The task pool store of src/hooks/useTaskPool.ts.
 *
 * The hook's state becomes a `PoolStore` record: `stored` is what lies under
 * the `custom-task-pool` storage key (absent, unparseable, or a parsed pool)
 * and `pool` the in-memory pool. Fresh ids are parameters.
 */
module TaskPool {
  import opened Wrappers
  import opened Entities
  import opened Text
  import Seed

  /** A pool entry (`TaskPoolItem`). */
  datatype PoolItem = PoolItem(id: string, name: string, description: Option<string>, frequency: Frequency)

  /** The form's payload (`TaskFormData`); an empty description is `""`. */
  datatype FormData = FormData(name: string, description: string, frequency: Frequency)

  /** The value under the storage key, when there is one. */
  datatype Slot = Parsed(items: seq<PoolItem>) | Unparseable

  /** The store: the storage slot and the in-memory pool. */
  datatype PoolStore = PoolStore(stored: Option<Slot>, pool: seq<PoolItem>)

  /** Storage holds exactly the in-memory pool. */
  predicate Synced(s: PoolStore) {
    s.stored == Some(Parsed(s.pool))
  }

  /** An entry without its id: what the selection engine sees. */
  function View(item: PoolItem): (t: Template) {
    Template(item.name, item.description, item.frequency)
  }

  /**
   * `convertToTaskPoolItems`: the n-th template becomes an entry with the n-th
   * fresh id and the template's name, description and frequency.
   */
  function ConvertToTaskPoolItems(tasks: seq<Template>, ids: nat -> string): (r: seq<PoolItem>)
    ensures |r| == |tasks|
    ensures forall i :: 0 <= i < |r| ==> View(r[i]) == tasks[i] && r[i].id == ids(i)
  {
    seq(|tasks|, i requires 0 <= i < |tasks| =>
      PoolItem(ids(i), tasks[i].name, tasks[i].description, tasks[i].frequency))
  }

  /** The default pool: the seed catalog with fresh ids. */
  function DefaultPool(ids: nat -> string): (r: seq<PoolItem>)
    ensures |r| == |Seed.TaskPool|
    ensures forall i :: 0 <= i < |r| ==> View(r[i]) == Seed.TaskPool[i] && r[i].id == ids(i)
  {
    ConvertToTaskPoolItems(Seed.TaskPool, ids)
  }

  /**
   * `loadTaskPool`: a parsed stored pool is adopted as it is; when nothing is
   * stored, or what is stored does not parse, the seed catalog with fresh ids
   * becomes the pool and is written back.
   */
  function LoadTaskPool(s: PoolStore, ids: nat -> string): (r: PoolStore)
    ensures Synced(r)
    ensures s.stored.Some? && s.stored.value.Parsed? ==> r == PoolStore(s.stored, s.stored.value.items)
    ensures s.stored.None? || s.stored == Some(Unparseable) ==>
              && |r.pool| == |Seed.TaskPool|
              && forall i :: 0 <= i < |r.pool| ==> View(r.pool[i]) == Seed.TaskPool[i] && r.pool[i].id == ids(i)
  {
    match s.stored
    case Some(Parsed(items)) => PoolStore(s.stored, items)
    case _ =>
      var defaults := DefaultPool(ids);
      PoolStore(Some(Parsed(defaults)), defaults)
  }

  /** `saveTaskPool`: the new pool goes to storage and to memory alike. */
  function SaveTaskPool(s: PoolStore, pool: seq<PoolItem>): (r: PoolStore)
    ensures Synced(r) && r.pool == pool
  {
    PoolStore(Some(Parsed(pool)), pool)
  }

  /** `description.trim() || undefined`: the trimmed description, absent when that is empty. */
  function NormalDescription(description: string): (r: Option<string>)
    ensures r.None? <==> forall i :: 0 <= i < |description| ==> IsSpace(description[i])
    ensures r.Some? ==> r.value == Trim(description) && r.value != "" && Trimmed(r.value)
  {
    var t := Trim(description);
    TrimSlice(description);
    if t == "" then
      None
    else
      assert !IsSpace(description[LeadingSpaces(description)]);
      Some(t)
  }

  /** The entry fields the form writes: trimmed name, normalised description, frequency. */
  function FromForm(id: string, form: FormData): (item: PoolItem)
    ensures item.id == id && item.frequency == form.frequency
    ensures item.name == Trim(form.name) && item.description == NormalDescription(form.description)
  {
    PoolItem(id, Trim(form.name), NormalDescription(form.description), form.frequency)
  }

  /**
   * `addTask`: the pool grows by one entry at its end, built from the form with
   * a fresh id; the earlier entries stay as they are. The form only submits a
   * name that is not blank.
   */
  function AddTask(s: PoolStore, form: FormData, newId: string): (r: PoolStore)
    requires Trim(form.name) != ""
    ensures Synced(r)
    ensures |r.pool| == |s.pool| + 1 && r.pool[..|s.pool|] == s.pool
    ensures r.pool[|s.pool|] == FromForm(newId, form)
  {
    SaveTaskPool(s, s.pool + [FromForm(newId, form)])
  }

  /** The entries after editing `id`: matching entries take the form's fields and keep their id. */
  function EditEntries(pool: seq<PoolItem>, id: string, form: FormData): (r: seq<PoolItem>)
    ensures |r| == |pool|
    ensures forall i :: 0 <= i < |r| ==> r[i].id == pool[i].id
    ensures forall i :: 0 <= i < |r| ==> pool[i].id != id ==> r[i] == pool[i]
    ensures forall i :: 0 <= i < |r| ==> pool[i].id == id ==> r[i] == FromForm(id, form)
  {
    seq(|pool|, i requires 0 <= i < |pool| =>
      if pool[i].id == id then FromForm(id, form) else pool[i])
  }

  /** `editTask(id, form)`: the edited entries, saved. The form only submits a name that is not blank. */
  function EditTask(s: PoolStore, id: string, form: FormData): (r: PoolStore)
    requires Trim(form.name) != ""
    ensures Synced(r) && r.pool == EditEntries(s.pool, id, form)
  {
    SaveTaskPool(s, EditEntries(s.pool, id, form))
  }

  /** The entries whose id is not `id`, in their original order. */
  function WithoutId(pool: seq<PoolItem>, id: string): (r: seq<PoolItem>)
    ensures |r| <= |pool|
    ensures forall i :: 0 <= i < |r| ==> r[i].id != id
  {
    if |pool| == 0 then []
    else (if pool[0].id != id then [pool[0]] else []) + WithoutId(pool[1..], id)
  }

  /** An entry survives the removal of `id` exactly when it is in the pool with another id. */
  lemma {:induction false} WithoutIdMembers(pool: seq<PoolItem>, id: string, x: PoolItem)
    ensures x in WithoutId(pool, id) <==> x in pool && x.id != id
  {
    if |pool| > 0 {
      WithoutIdMembers(pool[1..], id, x);
      assert pool == [pool[0]] + pool[1..];
    }
  }

  /** Removal works run by run, so the surviving entries keep their relative order. */
  lemma {:induction false} WithoutIdAppend(a: seq<PoolItem>, b: seq<PoolItem>, id: string)
    ensures WithoutId(a + b, id) == WithoutId(a, id) + WithoutId(b, id)
  {
    if |a| > 0 {
      assert (a + b)[0] == a[0];
      assert (a + b)[1..] == a[1..] + b;
      WithoutIdAppend(a[1..], b, id);
    } else {
      assert a + b == b;
    }
  }

  /** Removing an id no entry has changes nothing. */
  lemma {:induction false} WithoutUnknownId(pool: seq<PoolItem>, id: string)
    requires forall i :: 0 <= i < |pool| ==> pool[i].id != id
    ensures WithoutId(pool, id) == pool
  {
    if |pool| > 0 {
      WithoutUnknownId(pool[1..], id);
      assert pool == [pool[0]] + pool[1..];
    }
  }

  /** `deleteTask(id)`: the entries with another id, in order, saved. */
  function DeleteTask(s: PoolStore, id: string): (r: PoolStore)
    ensures Synced(r) && r.pool == WithoutId(s.pool, id)
    ensures forall i :: 0 <= i < |r.pool| ==> r.pool[i].id != id
  {
    SaveTaskPool(s, WithoutId(s.pool, id))
  }

  /** `getTaskPoolForSelection`: the pool's entries without their ids, position by position. */
  function GetTaskPoolForSelection(pool: seq<PoolItem>): (r: seq<Template>)
    ensures |r| == |pool|
    ensures forall i :: 0 <= i < |r| ==>
              r[i].name == pool[i].name && r[i].description == pool[i].description && r[i].frequency == pool[i].frequency
  {
    seq(|pool|, i requires 0 <= i < |pool| => View(pool[i]))
  }

  /** Giving templates ids and stripping them again gives back the templates. */
  lemma ConvertThenView(tasks: seq<Template>, ids: nat -> string)
    ensures GetTaskPoolForSelection(ConvertToTaskPoolItems(tasks, ids)) == tasks
  {
  }

  /** An entry as the store writes it: non-blank trimmed name, description absent or trimmed and non-empty. */
  predicate Normalised(item: PoolItem) {
    && item.name != "" && Trimmed(item.name)
    && (item.description.Some? ==> item.description.value != "" && Trimmed(item.description.value))
  }

  /**
   * The form data the edit form starts from: the entry's name and frequency,
   * and its description or the empty string when it has none (`description || ''`).
   */
  function FormFor(item: PoolItem): (form: FormData)
    ensures form.name == item.name && form.frequency == item.frequency
    ensures item.description.Some? ==> form.description == item.description.value
    ensures item.description.None? ==> form.description == ""
  {
    FormData(item.name, item.description.GetOr(""), item.frequency)
  }

  /** Add and edit store normalised entries. */
  lemma FromFormNormalised(id: string, form: FormData)
    requires Trim(form.name) != ""
    ensures Normalised(FromForm(id, form))
  {
  }

  /** A normalised entry is rebuilt exactly from the form data it starts the edit form with. */
  lemma FormRoundTrip(item: PoolItem)
    requires Normalised(item)
    ensures FromForm(item.id, FormFor(item)) == item
  {
    TrimFixpoint(item.name);
    match item.description
    case None =>
    case Some(text) =>
      TrimFixpoint(text);
      assert NormalDescription(text) == Some(text);
  }

  /**
   * Submitting the edit form unchanged leaves the pool as it was (the edited
   * entries are exactly the pool that `editTask` saves), provided the entry
   * was normalised and its id is not shared.
   */
  lemma EditRoundTrip(s: PoolStore, k: nat)
    requires k < |s.pool| && Normalised(s.pool[k])
    requires forall i :: 0 <= i < |s.pool| && i != k ==> s.pool[i].id != s.pool[k].id
    ensures EditEntries(s.pool, s.pool[k].id, FormFor(s.pool[k])) == s.pool
  {
    FormRoundTrip(s.pool[k]);
    EditOwnFields(s.pool, k, FormFor(s.pool[k]));
  }

  /** Editing an entry whose id no other entry carries, with the fields it already holds, changes nothing. */
  lemma EditOwnFields(pool: seq<PoolItem>, k: nat, form: FormData)
    requires k < |pool| && FromForm(pool[k].id, form) == pool[k]
    requires forall i :: 0 <= i < |pool| && i != k ==> pool[i].id != pool[k].id
    ensures EditEntries(pool, pool[k].id, form) == pool
  {
    var id := pool[k].id;
    forall i | 0 <= i < |pool| && pool[i].id == id ensures pool[i] == FromForm(id, form) {
      if i != k {
        assert false;
      }
    }
    EditEntriesIdentity(pool, id, form);
  }

  /** Editing changes nothing when every entry with the id already holds what the form writes. */
  lemma EditEntriesIdentity(pool: seq<PoolItem>, id: string, form: FormData)
    requires forall i :: 0 <= i < |pool| && pool[i].id == id ==> pool[i] == FromForm(id, form)
    ensures EditEntries(pool, id, form) == pool
  {
    var r := EditEntries(pool, id, form);
    assert forall i :: 0 <= i < |r| ==> r[i] == pool[i];
  }

  /** Editing an id no entry carries leaves the entries as they are. */
  lemma EditUnknownId(pool: seq<PoolItem>, id: string, form: FormData)
    requires forall i :: 0 <= i < |pool| ==> pool[i].id != id
    ensures EditEntries(pool, id, form) == pool
  {
    EditEntriesIdentity(pool, id, form);
  }

  /** Every entry of the pool is normalised. */
  predicate AllNormalised(pool: seq<PoolItem>) {
    forall i :: 0 <= i < |pool| ==> Normalised(pool[i])
  }

  /** The default pool is normalised: every seed name and description is non-empty and trimmed. */
  lemma DefaultPoolNormalised(ids: nat -> string)
    ensures AllNormalised(DefaultPool(ids))
  {
    Seed.SeedFields();
    Seed.SeedTrimmed();
    var pool := DefaultPool(ids);
    forall i | 0 <= i < |pool| ensures Normalised(pool[i]) {
      assert View(pool[i]) == Seed.TaskPool[i];
    }
  }

  /** Adding keeps a normalised pool normalised. */
  lemma AddKeepsNormalised(s: PoolStore, form: FormData, id: string)
    requires AllNormalised(s.pool) && Trim(form.name) != ""
    ensures AllNormalised(AddTask(s, form, id).pool)
  {
    FromFormNormalised(id, form);
  }

  /** Editing keeps a normalised pool normalised. */
  lemma EditKeepsNormalised(s: PoolStore, form: FormData, id: string)
    requires AllNormalised(s.pool) && Trim(form.name) != ""
    ensures AllNormalised(EditTask(s, id, form).pool)
  {
    FromFormNormalised(id, form);
  }

  /** Deleting keeps a normalised pool normalised. */
  lemma DeleteKeepsNormalised(s: PoolStore, id: string)
    requires AllNormalised(s.pool)
    ensures AllNormalised(DeleteTask(s, id).pool)
  {
    var deleted := DeleteTask(s, id).pool;
    forall i | 0 <= i < |deleted| ensures Normalised(deleted[i]) {
      WithoutIdMembers(s.pool, id, deleted[i]);
    }
  }
}
