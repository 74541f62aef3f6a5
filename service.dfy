/**
 * The mock task service: a whole-collection store seeded with five fixture records,
 * and the list, lookup, create, update and delete calls over it.
 *
 * Latency is left out: every call is synchronous.
 */
module TaskService {
  import opened Options
  import opened Seqs
  import opened Tasks
  import opened TaskFilter
  import opened TaskSchema

  /** The fixture records written to storage when it holds no collection. */
  const Fixtures: seq<Task> := [
    Task("1", "Daily Sales Report", "SELECT * FROM sales WHERE date = CURRENT_DATE",
         "batch", true, "2023-01-10 08:00:00"),
    Task("2", "Customer Analytics",
         "SELECT customer_id, SUM(purchase_amount) FROM transactions GROUP BY customer_id",
         "streaming", true, "2023-02-05 09:30:00"),
    Task("3", "Inventory Status", "SELECT product_id, quantity FROM inventory WHERE quantity < threshold",
         "incremental", false, "2023-03-12 10:45:00"),
    Task("4", "User Activity Log", "SELECT user_id, action, timestamp FROM user_logs ORDER BY timestamp DESC",
         "full", true, "2023-02-18 11:20:00"),
    Task("5", "Performance Metrics",
         "SELECT metric_name, value FROM metrics WHERE date BETWEEN :start_date AND :end_date",
         "batch", true, "2023-04-05 13:15:00")
  ]

  /** The outcome of a call that can fail with "record not found", carrying the id asked for. */
  datatype ApiResult<T> = Ok(value: T) | NotFound(id: string)

  /** `findIndex` by id: the first position holding `id`, if any. */
  function FirstIndex(ts: seq<Task>, id: string): (r: Option<nat>)
    ensures r.None? <==> !HasId(ts, id)
    ensures r.Some? ==> r.value < |ts| && ts[r.value].id == id
    ensures r.Some? ==> forall j :: 0 <= j < r.value ==> ts[j].id != id
  {
    if ts == [] then None
    else if ts[0].id == id then Some(0)
    else match FirstIndex(ts[1..], id)
      case None => None
      case Some(k) => Some(k + 1)
  }

  /** `fetchUserById` on a loaded collection: the first record with the id, or not-found naming the id. */
  function FindById(ts: seq<Task>, id: string): (r: ApiResult<Task>)
    ensures r.NotFound? <==> !HasId(ts, id)
    ensures r.NotFound? ==> r.id == id
    ensures r.Ok? ==> r.value in ts && r.value.id == id
    ensures r.Ok? ==> exists i :: 0 <= i < |ts| && r.value == ts[i] && forall j :: 0 <= j < i ==> ts[j].id != id
  {
    match FirstIndex(ts, id)
    case None => NotFound(id)
    case Some(i) => Ok(ts[i])
  }

  function OtherThan(id: string): Task -> bool
  {
    (t: Task) => t.id != id
  }

  /** `users.filter(user => user.id !== id)` */
  function RemoveId(ts: seq<Task>, id: string): (r: seq<Task>)
    ensures |r| <= |ts|
    ensures forall i :: 0 <= i < |r| ==> r[i].id != id
  {
    Select(ts, OtherThan(id))
  }

  /** Delete keeps, in order, exactly the records with another id, and removes something exactly when the id is present. */
  lemma RemoveIdSpec(ts: seq<Task>, id: string)
    ensures IsSubsequence(RemoveId(ts, id), ts)
    ensures forall t :: t in RemoveId(ts, id) <==> t in ts && t.id != id
    ensures !HasId(RemoveId(ts, id), id)
    ensures |RemoveId(ts, id)| == |ts| <==> !HasId(ts, id)
  {
    SelectIsSubsequence(ts, OtherThan(id));
    forall t ensures t in RemoveId(ts, id) <==> t in ts && t.id != id {
      SelectMembership(ts, OtherThan(id), t);
    }
    SelectKeepsAll(ts, OtherThan(id));
  }

  lemma {:induction false} RemoveIdKeepsUnique(ts: seq<Task>, id: string)
    requires UniqueIds(ts)
    ensures UniqueIds(RemoveId(ts, id))
    decreases |ts|
  {
    if ts != [] {
      RemoveIdKeepsUnique(ts[1..], id);
      forall t | t in RemoveId(ts[1..], id) ensures t.id != ts[0].id {
        SelectMembership(ts[1..], OtherThan(id), t);
      }
    }
  }

  /** After a delete, looking the id up fails with not-found. */
  lemma DeleteThenFindFails(ts: seq<Task>, id: string)
    ensures FindById(RemoveId(ts, id), id) == NotFound(id)
  {
  }

  /** A record appended under a fresh id is found under that id. */
  lemma CreateThenFind(ts: seq<Task>, d: TaskForm, id: string)
    requires !HasId(ts, id)
    ensures FindById(ts + [WithId(d, id)], id) == Ok(WithId(d, id))
  {
    var us := ts + [WithId(d, id)];
    assert us[|ts|].id == id;
  }

  /** Appending a record under a fresh id keeps ids unique. */
  lemma AppendKeepsUnique(ts: seq<Task>, t: Task)
    requires UniqueIds(ts) && !HasId(ts, t.id)
    ensures UniqueIds(ts + [t])
  {
  }

  /** Replacing the first record with `id` by its merge with a patch keeps every id in place. */
  lemma UpdateKeepsIds(ts: seq<Task>, i: nat, p: TaskPatch)
    requires i < |ts|
    ensures Ids(ts[i := Merge(ts[i], p)]) == Ids(ts)
  {
  }

  /** After an update, looking the id up returns the merged record. */
  lemma UpdateThenFind(ts: seq<Task>, id: string, p: TaskPatch)
    requires HasId(ts, id)
    ensures var i := FirstIndex(ts, id).value;
            FindById(ts[i := Merge(ts[i], p)], id) == Ok(Merge(ts[i], p))
  {
    var i := FirstIndex(ts, id).value;
    var us := ts[i := Merge(ts[i], p)];
    assert us[i].id == id;
  }

  /** Fresh storage yields five fixtures with ids "1" to "5", no id repeated. */
  lemma FixtureIds()
    ensures Ids(Fixtures) == ["1", "2", "3", "4", "5"]
    ensures UniqueIds(Fixtures)
  {
  }

  /** Every fixture record passes the form schema. */
  lemma FixturesValid()
    ensures forall i :: 0 <= i < |Fixtures| ==> ValidForm(FormOf(Fixtures[i]))
  {
  }

  /**
   * The browser storage entry "users". `stored` is `None` while the key is absent;
   * loading then writes the fixtures. A stored empty list is a collection and is
   * returned as it is.
   */
  class TaskStore {
    var stored: Option<seq<Task>>

    /** What the next load returns. */
    function Collection(): (r: seq<Task>)
      reads this
      ensures stored.Some? ==> r == stored.value
      ensures stored.None? ==> |r| == 5 && UniqueIds(r)
    {
      if stored.None? then Fixtures else stored.value
    }

    /** Module load: in development mode the fixtures overwrite whatever was stored. */
    constructor (initial: Option<seq<Task>>, devMode: bool)
      ensures stored == if devMode then Some(Fixtures) else initial
    {
      stored := if devMode then Some(Fixtures) else initial;
    }

    /** `resetMockData` */
    method ResetMockData()
      modifies this
      ensures stored == Some(Fixtures)
    {
      stored := Some(Fixtures);
    }

    /** `getUsersFromStorage`: the stored collection, after seeding the fixtures when there is none. */
    method Load() returns (ts: seq<Task>)
      modifies this
      ensures ts == old(Collection())
      ensures old(stored).None? ==> ts == Fixtures
      ensures stored == Some(ts)
    {
      if stored.None? {
        ResetMockData();
        ts := Fixtures;
      } else {
        ts := stored.value;
      }
    }

    /** `saveUsersToStorage`: replace the whole collection. */
    method Save(ts: seq<Task>)
      modifies this
      ensures stored == Some(ts)
    {
      stored := Some(ts);
    }

    /** `fetchUsers` */
    method FetchTasks(filters: Option<Filters>, dm: DateModel) returns (r: seq<Task>)
      modifies this
      ensures stored == Some(old(Collection()))
      ensures r == ApplyFilters(old(Collection()), filters, dm)
    {
      var ts := Load();
      r := ApplyFilters(ts, filters, dm);
    }

    /** `fetchUserById` */
    method FetchTaskById(id: string) returns (r: ApiResult<Task>)
      modifies this
      ensures stored == Some(old(Collection()))
      ensures r == FindById(old(Collection()), id)
    {
      var ts := Load();
      r := FindById(ts, id);
    }

    /** `createUserApi`, with the generated uuid passed in as `newId`, which no stored record has. */
    method CreateTask(d: TaskForm, newId: string) returns (t: Task)
      requires !HasId(Collection(), newId)
      modifies this
      ensures t == WithId(d, newId)
      ensures stored == Some(old(Collection()) + [t])
      ensures UniqueIds(old(Collection())) ==> UniqueIds(Collection())
    {
      var ts := Load();
      t := WithId(d, newId);
      if UniqueIds(ts) {
        AppendKeepsUnique(ts, t);
      }
      Save(ts + [t]);
    }

    /** `updateUserApi`: merge the patch over the first record with the id and write back; nothing is written if there is none. */
    method UpdateTask(id: string, p: TaskPatch) returns (r: ApiResult<Task>)
      modifies this
      ensures r.NotFound? <==> !HasId(old(Collection()), id)
      ensures r.NotFound? ==> r.id == id && stored == Some(old(Collection()))
      ensures r.Ok? ==>
        var i := FirstIndex(old(Collection()), id).value;
        r.value == Merge(old(Collection())[i], p) && stored == Some(old(Collection())[i := r.value])
      ensures Ids(Collection()) == Ids(old(Collection()))
    {
      var ts := Load();
      var idx := FirstIndex(ts, id);
      if idx.None? {
        return NotFound(id);
      }
      var updated := Merge(ts[idx.value], p);
      UpdateKeepsIds(ts, idx.value, p);
      Save(ts[idx.value := updated]);
      r := Ok(updated);
    }

    /** `deleteUserApi`: drop every record with the id; fail and write nothing if none was dropped. */
    method DeleteTask(id: string) returns (r: ApiResult<()>)
      modifies this
      ensures r.NotFound? <==> !HasId(old(Collection()), id)
      ensures r.NotFound? ==> r.id == id
      ensures stored == Some(if r.NotFound? then old(Collection()) else RemoveId(old(Collection()), id))
      ensures !HasId(Collection(), id)
      ensures UniqueIds(old(Collection())) ==> UniqueIds(Collection())
    {
      var ts := Load();
      var kept := RemoveId(ts, id);
      RemoveIdSpec(ts, id);
      if UniqueIds(ts) {
        RemoveIdKeepsUnique(ts, id);
      }
      if |kept| == |ts| {
        return NotFound(id);
      }
      Save(kept);
      r := Ok(());
    }
  }
}
