/**
 * The ingestion-task record kept by the mock service, the form data the pages
 * submit, and the object spreads that build a record from form data.
 */
module Tasks {
  import opened Options

  datatype Task = Task(
    id: string,
    name: string,
    sqlQuery: string,        // sql_query
    injestType: string,      // injest_type
    enabled: bool,
    createdTimestamp: string // created_timestamp
  )

  /** What the form submits: every field of a task except its id. */
  datatype TaskForm = TaskForm(
    name: string,
    sqlQuery: string,
    injestType: string,
    enabled: bool,
    createdTimestamp: string
  )

  /** The object spread over a stored record by an update; a `None` field is a key the object does not have. */
  datatype TaskPatch = TaskPatch(
    name: Option<string>,
    sqlQuery: Option<string>,
    injestType: Option<string>,
    enabled: Option<bool>,
    createdTimestamp: Option<string>
  )

  /** `{ ...data, id }` */
  function WithId(d: TaskForm, id: string): (t: Task)
    ensures t.id == id && FormOf(t) == d
  {
    Task(id, d.name, d.sqlQuery, d.injestType, d.enabled, d.createdTimestamp)
  }

  /** A record without its id. */
  function FormOf(t: Task): TaskForm
  {
    TaskForm(t.name, t.sqlQuery, t.injestType, t.enabled, t.createdTimestamp)
  }

  /** Submitted form data as an object: every key present. */
  function PatchOf(d: TaskForm): TaskPatch
  {
    TaskPatch(Some(d.name), Some(d.sqlQuery), Some(d.injestType), Some(d.enabled), Some(d.createdTimestamp))
  }

  function Over<T>(patch: Option<T>, current: T): T
  {
    if patch.Some? then patch.value else current
  }

  /** `{ ...t, ...p }`: the keys `p` has win, the others keep the record's value; `p` has no id. */
  function Merge(t: Task, p: TaskPatch): (r: Task)
    ensures r.id == t.id
    ensures p == TaskPatch(None, None, None, None, None) ==> r == t
  {
    Task(t.id, Over(p.name, t.name), Over(p.sqlQuery, t.sqlQuery), Over(p.injestType, t.injestType),
         Over(p.enabled, t.enabled), Over(p.createdTimestamp, t.createdTimestamp))
  }

  lemma WithIdRoundTrip(d: TaskForm, id: string, t: Task)
    ensures FormOf(WithId(d, id)) == d && WithId(d, id).id == id
    ensures WithId(FormOf(t), t.id) == t
  {
  }

  /** Merging keeps the id and every field the patch leaves out, and takes every field it has. */
  lemma MergeLaw(t: Task, p: TaskPatch)
    ensures Merge(t, p).id == t.id
    ensures p.name.None? ==> Merge(t, p).name == t.name
    ensures p.name.Some? ==> Merge(t, p).name == p.name.value
    ensures p.sqlQuery.None? ==> Merge(t, p).sqlQuery == t.sqlQuery
    ensures p.sqlQuery.Some? ==> Merge(t, p).sqlQuery == p.sqlQuery.value
    ensures p.injestType.None? ==> Merge(t, p).injestType == t.injestType
    ensures p.injestType.Some? ==> Merge(t, p).injestType == p.injestType.value
    ensures p.enabled.None? ==> Merge(t, p).enabled == t.enabled
    ensures p.enabled.Some? ==> Merge(t, p).enabled == p.enabled.value
    ensures p.createdTimestamp.None? ==> Merge(t, p).createdTimestamp == t.createdTimestamp
    ensures p.createdTimestamp.Some? ==> Merge(t, p).createdTimestamp == p.createdTimestamp.value
  {
  }

  /** Spreading a whole form over a record replaces everything but the id; an empty spread changes nothing. */
  lemma MergeFullAndEmpty(t: Task, d: TaskForm)
    ensures Merge(t, PatchOf(d)) == WithId(d, t.id)
    ensures Merge(t, TaskPatch(None, None, None, None, None)) == t
  {
  }

  /** Applying the same update twice is applying it once. */
  lemma MergeIdempotent(t: Task, p: TaskPatch)
    ensures Merge(Merge(t, p), p) == Merge(t, p)
  {
  }

  /** The ids of a collection, in order. */
  function Ids(ts: seq<Task>): (r: seq<string>)
    ensures |r| == |ts|
    ensures forall i :: 0 <= i < |ts| ==> r[i] == ts[i].id
  {
    if ts == [] then [] else [ts[0].id] + Ids(ts[1..])
  }

  predicate HasId(ts: seq<Task>, id: string)
  {
    exists i :: 0 <= i < |ts| && ts[i].id == id
  }

  /** The store-wide invariant: no two records share an id. */
  predicate UniqueIds(ts: seq<Task>)
  {
    forall i, j :: 0 <= i < j < |ts| ==> ts[i].id != ts[j].id
  }
}
