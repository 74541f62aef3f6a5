/**
 * The `UserFilters` object and the per-record predicate of the list query.
 *
 * Dates are abstract: `parse` stands for `new Date(s)` (`None` is an Invalid Date,
 * whose comparisons are all false) and `endOfDay` for `setHours(23, 59, 59, 999)`.
 */
module TaskFilter {
  import opened Options
  import opened Seqs
  import opened Text
  import opened Tasks

  datatype Filters = Filters(
    name: Option<string>,
    injestType: Option<string>,
    enabled: Option<bool>,
    dateFrom: Option<string>,
    dateTo: Option<string>
  )

  const NoFilters := Filters(None, None, None, None, None)

  datatype DateModel = DateModel(parse: string -> Option<int>, endOfDay: int -> int)
  {
    /** The end of a day is not before any instant of that day. */
    ghost predicate Sound()
    {
      forall t :: t <= endOfDay(t)
    }
  }

  /** JavaScript truthiness of an optional string: present and non-empty. */
  predicate Truthy(o: Option<string>)
  {
    o.Some? && o.value != ""
  }

  /** `a < b` on two dates; false when either is an Invalid Date. */
  predicate Earlier(a: Option<int>, b: Option<int>)
  {
    a.Some? && b.Some? && a.value < b.value
  }

  predicate NameOk(f: Filters, t: Task)
    ensures f.name.Some? && Lower(f.name.value) <= Lower(t.name) ==> NameOk(f, t)
  {
    !Truthy(f.name) || Contains(Lower(t.name), Lower(f.name.value))
  }

  predicate TypeOk(f: Filters, t: Task)
    ensures f.injestType == Some(t.injestType) ==> TypeOk(f, t)
  {
    !Truthy(f.injestType) || t.injestType == f.injestType.value
  }

  predicate EnabledOk(f: Filters, t: Task)
    ensures f.enabled == Some(!t.enabled) ==> !EnabledOk(f, t)
  {
    f.enabled.None? || t.enabled == f.enabled.value
  }

  predicate DateOk(f: Filters, t: Task, dm: DateModel)
    ensures !Truthy(f.dateFrom) && !Truthy(f.dateTo) ==> DateOk(f, t, dm)
  {
    var created := dm.parse(t.createdTimestamp);
    (Truthy(f.dateFrom) ==> !Earlier(created, dm.parse(f.dateFrom.value))) &&
    (Truthy(f.dateTo) ==>
       var to := dm.parse(f.dateTo.value);
       !(to.Some? && Earlier(Some(dm.endOfDay(to.value)), created)))
  }

  /** The callback handed to `users.filter`: every present filter must accept the record. */
  predicate Keep(f: Filters, t: Task, dm: DateModel)
    ensures f == NoFilters ==> Keep(f, t, dm)
    ensures f.enabled == Some(!t.enabled) ==> !Keep(f, t, dm)
  {
    NameOk(f, t) && TypeOk(f, t) && EnabledOk(f, t) && DateOk(f, t, dm)
  }

  function Keeper(f: Filters, dm: DateModel): Task -> bool
  {
    t => Keep(f, t, dm)
  }

  /** `fetchUsers(filters)`: no filter object returns the collection as stored. */
  function ApplyFilters(ts: seq<Task>, filters: Option<Filters>, dm: DateModel): (r: seq<Task>)
    ensures filters.None? ==> r == ts
    ensures filters.Some? ==> forall i :: 0 <= i < |r| ==> Keep(filters.value, r[i], dm)
  {
    if filters.None? then ts else Select(ts, Keeper(filters.value, dm))
  }

  /** With filters, the result keeps the stored order and holds exactly the stored records every filter accepts. */
  lemma FilteredIsOrderedSelection(ts: seq<Task>, f: Filters, dm: DateModel, t: Task)
    ensures IsSubsequence(ApplyFilters(ts, Some(f), dm), ts)
    ensures t in ApplyFilters(ts, Some(f), dm) <==> t in ts && Keep(f, t, dm)
    ensures forall a, b :: ApplyFilters(a + b, Some(f), dm) == ApplyFilters(a, Some(f), dm) + ApplyFilters(b, Some(f), dm)
  {
    SelectIsSubsequence(ts, Keeper(f, dm));
    SelectMembership(ts, Keeper(f, dm), t);
    forall a, b ensures ApplyFilters(a + b, Some(f), dm) == ApplyFilters(a, Some(f), dm) + ApplyFilters(b, Some(f), dm) {
      SelectConcat(a, b, Keeper(f, dm));
    }
  }

  /** Empty-string name or type filters and an undefined `enabled` constrain nothing, so `fetchUsers({})` returns everything. */
  lemma EmptyFiltersKeepAll(ts: seq<Task>, f: Filters, dm: DateModel)
    requires !Truthy(f.name) && !Truthy(f.injestType) && f.enabled.None?
    requires !Truthy(f.dateFrom) && !Truthy(f.dateTo)
    ensures ApplyFilters(ts, Some(f), dm) == ts
  {
    SelectKeepsAll(ts, Keeper(f, dm));
  }

  /** `fetchUsers({})` returns the stored collection unchanged. */
  lemma EmptyObjectKeepsAll(ts: seq<Task>, dm: DateModel)
    ensures ApplyFilters(ts, Some(NoFilters), dm) == ts
  {
    EmptyFiltersKeepAll(ts, NoFilters, dm);
  }

  /** Re-running a query on its own result changes nothing. */
  lemma FilterIdempotent(ts: seq<Task>, filters: Option<Filters>, dm: DateModel)
    ensures ApplyFilters(ApplyFilters(ts, filters, dm), filters, dm) == ApplyFilters(ts, filters, dm)
  {
    if filters.Some? {
      SelectIdempotent(ts, Keeper(filters.value, dm));
    }
  }

  /** A name that contains the filter text verbatim matches it. */
  lemma NameSubstringMatches(f: Filters, t: Task, i: int)
    requires f.name.Some? && OccursAt(t.name, f.name.value, i)
    ensures NameOk(f, t)
  {
    LowerKeepsOccurrence(t.name, f.name.value, i);
    ContainsIffOccurs(Lower(t.name), Lower(f.name.value));
  }

  /**
   * When all three dates parse, the range check is `from <= created <= endOfDay(to)`;
   * with a sound end of day a record created at the `to` instant itself is kept.
   */
  lemma DateRangeInclusive(f: Filters, t: Task, dm: DateModel, from: int, created: int, to: int)
    requires Truthy(f.dateFrom) && Truthy(f.dateTo)
    requires dm.parse(t.createdTimestamp) == Some(created)
    requires dm.parse(f.dateFrom.value) == Some(from) && dm.parse(f.dateTo.value) == Some(to)
    ensures DateOk(f, t, dm) <==> from <= created <= dm.endOfDay(to)
    ensures dm.Sound() && from <= created <= to ==> DateOk(f, t, dm)
  {
  }

  /** A timestamp that does not parse is never rejected by the date range (every comparison with NaN is false). */
  lemma UnparsedDatePasses(f: Filters, t: Task, dm: DateModel)
    requires dm.parse(t.createdTimestamp).None?
    ensures DateOk(f, t, dm)
  {
  }

  /** A date bound that does not parse rejects nothing: its comparison with any timestamp is false. */
  lemma UnparsedBoundsPass(f: Filters, t: Task, dm: DateModel)
    requires Truthy(f.dateFrom) ==> dm.parse(f.dateFrom.value).None?
    requires Truthy(f.dateTo) ==> dm.parse(f.dateTo.value).None?
    ensures DateOk(f, t, dm)
  {
  }
}
