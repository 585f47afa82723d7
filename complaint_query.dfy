/** GET /list: an optional status filter, a named sort order, skip/limit paging, and a total
    that counts the filtered complaints only. Everything here is a function of the stored
    complaints in their natural (insertion) order. */
module ComplaintQuery {
  import opened Wrappers
  import opened ComplaintModel

  /** The sort criteria the route builds from `sort_by`: `{priority_score: -1, created_at: -1}`,
      `{created_at: -1}`, or the empty criteria `{}`, which leaves the natural order. */
  datatype SortCriteria = ByPriority | ByRecent | Unsorted

  function CriteriaFor(sortBy: string): (c: SortCriteria)
    ensures c == ByPriority <==> sortBy == "priority"
    ensures c == ByRecent <==> sortBy == "recent"
    ensures c == Unsorted <==> sortBy != "priority" && sortBy != "recent"
  {
    if sortBy == "priority" then ByPriority
    else if sortBy == "recent" then ByRecent
    else Unsorted
  }

  /** The query string of the request; a parameter absent from the URL is None. */
  datatype ListParams = ListParams(
    sortBy: Option<string>,
    status: Option<string>,
    page: Option<int>,
    limit: Option<int>)

  const DefaultSortBy: string := "priority"
  const DefaultPage: int := 1
  const DefaultLimit: int := 20

  function PageOf(params: ListParams): int { params.page.GetOr(DefaultPage) }
  function LimitOf(params: ListParams): int { params.limit.GetOr(DefaultLimit) }
  function SkipOf(params: ListParams): int { (PageOf(params) - 1) * LimitOf(params) }

  /** The route adds a status condition only when the parameter is a non-empty string. */
  function StatusFilter(status: Option<string>): (f: Option<string>)
    ensures f.Some? <==> status.Some? && status.value != ""
    ensures f.Some? ==> f == status
  {
    if status.Some? && status.value != "" then status else None
  }

  predicate Matches(c: Complaint, filter: Option<string>) {
    filter.None? || StatusName(c.status) == filter.value
  }

  /** `sub` is `s` with some elements left out, the rest kept in their order (matched
      greedily from the front). */
  predicate IsSubsequence(sub: seq<Complaint>, s: seq<Complaint>)
    decreases |s|
  {
    if sub == [] then true
    else if s == [] then false
    else if sub[0] == s[0] then IsSubsequence(sub[1..], s[1..])
    else IsSubsequence(sub, s[1..])
  }

  /** The complaints the status condition selects, in their stored order. */
  function Filtered(all: seq<Complaint>, filter: Option<string>): (r: seq<Complaint>)
    ensures |r| <= |all|
    ensures forall c :: c in r ==> c in all && Matches(c, filter)
    ensures forall c :: c in all && Matches(c, filter) ==> c in r
    ensures forall c :: multiset(r)[c] == if Matches(c, filter) then multiset(all)[c] else 0
    ensures IsSubsequence(r, all)
    ensures filter.None? ==> r == all
  {
    if all == [] then []
    else
      var rest := Filtered(all[1..], filter);
      assert all == [all[0]] + all[1..];
      assert multiset(all) == multiset{all[0]} + multiset(all[1..]);
      if Matches(all[0], filter) then
        var r := [all[0]] + rest;
        assert r[0] == all[0] && r[1..] == rest;
        assert multiset(r) == multiset{all[0]} + multiset(rest);
        r
      else
        assert rest != [] ==> rest[0] in rest && rest[0] != all[0];
        rest
  }

  /** Assumption about the store: a complaint without a score sorts below every scored one,
      so a descending sort on priority_score lists unscored complaints last. */
  predicate ScoreAtLeast(a: Option<int>, b: Option<int>) {
    match b
    case None => true
    case Some(bv) => a.Some? && a.value >= bv
  }

  /** `x` may be listed before `y` under the criteria. */
  predicate RanksBefore(crit: SortCriteria, x: Complaint, y: Complaint) {
    match crit
    case ByPriority =>
      if x.priorityScore == y.priorityScore then x.createdAt >= y.createdAt
      else ScoreAtLeast(x.priorityScore, y.priorityScore)
    case ByRecent => x.createdAt >= y.createdAt
    case Unsorted => true
  }

  predicate SortedBy(crit: SortCriteria, s: seq<Complaint>) {
    forall i, j :: 0 <= i < j < |s| ==> RanksBefore(crit, s[i], s[j])
  }

  lemma RanksTotal(crit: SortCriteria, x: Complaint, y: Complaint)
    ensures RanksBefore(crit, x, y) || RanksBefore(crit, y, x)
  {
  }

  lemma RanksTransitive(crit: SortCriteria, x: Complaint, y: Complaint, z: Complaint)
    requires RanksBefore(crit, x, y) && RanksBefore(crit, y, z)
    ensures RanksBefore(crit, x, z)
  {
  }

  /** Inserts `x` into a sorted sequence before the first element it ranks before. */
  function Insert(crit: SortCriteria, x: Complaint, s: seq<Complaint>): (r: seq<Complaint>)
    ensures multiset(r) == multiset(s) + multiset{x}
    ensures |r| == |s| + 1
  {
    if s == [] || RanksBefore(crit, x, s[0]) then [x] + s
    else
      assert s == [s[0]] + s[1..];
      [s[0]] + Insert(crit, x, s[1..])
  }

  lemma {:induction false} InsertKeepsSorted(crit: SortCriteria, x: Complaint, s: seq<Complaint>)
    requires SortedBy(crit, s)
    ensures SortedBy(crit, Insert(crit, x, s))
  {
    if s == [] || RanksBefore(crit, x, s[0]) {
      forall j | 0 <= j < |s|
        ensures RanksBefore(crit, x, s[j])
      {
        if j > 0 { RanksTransitive(crit, x, s[0], s[j]); }
      }
    } else {
      var t := Insert(crit, x, s[1..]);
      InsertKeepsSorted(crit, x, s[1..]);
      RanksTotal(crit, x, s[0]);
      forall j | 0 <= j < |t|
        ensures RanksBefore(crit, s[0], t[j])
      {
        assert t[j] in multiset(t);
        if t[j] != x {
          assert t[j] in multiset(s[1..]);
          var k :| 0 <= k < |s[1..]| && s[1..][k] == t[j];
          assert s[k + 1] == t[j];
        }
      }
    }
  }

  /** The order the store returns the filtered complaints in. Ties beyond the criteria keep
      their stored order. */
  function Sort(crit: SortCriteria, s: seq<Complaint>): (r: seq<Complaint>)
    ensures SortedBy(crit, r)
    ensures multiset(r) == multiset(s)
    ensures |r| == |s|
    ensures crit == Unsorted ==> r == s
  {
    if crit == Unsorted || s == [] then s
    else
      assert s == [s[0]] + s[1..];
      var t := Sort(crit, s[1..]);
      InsertKeepsSorted(crit, s[0], t);
      Insert(crit, s[0], t)
  }

  function Min(a: int, b: int): int { if a <= b then a else b }
  function Abs(a: int): nat { if a < 0 then -a else a }

  /** What `.skip(skip).limit(limit)` keeps of the sorted result. The store reads a limit of 0
      as no limit and a negative limit as its absolute value. */
  function Window(s: seq<Complaint>, skip: nat, limit: int): (r: seq<Complaint>)
    ensures limit != 0 ==> |r| == Min(Abs(limit), if skip <= |s| then |s| - skip else 0)
    ensures limit == 0 ==> |r| == (if skip <= |s| then |s| - skip else 0)
    ensures forall k :: 0 <= k < |r| ==> skip + k < |s| && r[k] == s[skip + k]
    ensures r == [] <==> skip >= |s|
  {
    if skip >= |s| then []
    else if limit == 0 || skip + Abs(limit) >= |s| then s[skip..]
    else s[skip..skip + Abs(limit)]
  }

  /** The body of a successful reply: the page of complaints, the page number echoed back,
      and the number of complaints the filter selects. */
  datatype ListPage = ListPage(items: seq<Complaint>, page: int, total: nat)

  /** The complaints the request's status condition selects, in stored order. */
  function Selected(all: seq<Complaint>, params: ListParams): seq<Complaint> {
    Filtered(all, StatusFilter(params.status))
  }

  /** The criteria the request's `sort_by` names (default "priority"). */
  function CriteriaOf(params: ListParams): SortCriteria {
    CriteriaFor(params.sortBy.GetOr(DefaultSortBy))
  }

  /** The selected complaints in the order the store returns them. */
  function Ordered(all: seq<Complaint>, params: ListParams): seq<Complaint> {
    Sort(CriteriaOf(params), Selected(all, params))
  }

  /** GET /list over the stored complaints `all`. A negative skip is refused by the store;
      the failure's text is the model's own, and the handler then sends no reply. */
  function List(all: seq<Complaint>, params: ListParams): (r: Result<ListPage>)
    ensures r.Success? <==> SkipOf(params) >= 0
    ensures r.Success? ==>
      && r.value.total == |Selected(all, params)|
      && r.value.page == PageOf(params)
      && (forall c :: c in r.value.items ==> c in all && Matches(c, StatusFilter(params.status)))
      && SortedBy(CriteriaOf(params), r.value.items)
      && (LimitOf(params) > 0 ==> |r.value.items| <= LimitOf(params))
      && (r.value.items == [] <==> SkipOf(params) >= |Selected(all, params)|)
  {
    var skip := SkipOf(params);
    if skip < 0 then Failure("skip value must be non-negative")
    else
      var sorted := Ordered(all, params);
      var items := Window(sorted, skip, LimitOf(params));
      assert forall c :: c in items ==> c in multiset(sorted);
      Success(ListPage(items, PageOf(params), |Selected(all, params)|))
  }

  /** The page is the window of the ordered selection that starts at (page-1)*limit: `limit`
      items or fewer when the selection runs out; all the rest when the limit is 0. */
  lemma ListPageIsWindow(all: seq<Complaint>, params: ListParams)
    requires SkipOf(params) >= 0
    ensures
      var items := List(all, params).value.items;
      var skip := SkipOf(params);
      var rest := if skip <= |Selected(all, params)| then |Selected(all, params)| - skip else 0;
      && |items| == (if LimitOf(params) == 0 then rest else Min(Abs(LimitOf(params)), rest))
      && forall k :: 0 <= k < |items| ==> items[k] == Ordered(all, params)[skip + k]
  {
  }

  /** Under `sort_by=priority` (the default) a page lists scored complaints by descending
      score, newest first among equal scores, and unscored complaints after all scored ones. */
  lemma PriorityListOrder(all: seq<Complaint>, params: ListParams)
    requires params.sortBy.None? || params.sortBy == Some("priority")
    requires SkipOf(params) >= 0
    ensures
      var items := List(all, params).value.items;
      forall i, j :: 0 <= i < j < |items| ==>
        && (items[i].priorityScore.None? ==> items[j].priorityScore.None?)
        && (items[i].priorityScore.Some? && items[j].priorityScore.Some? ==>
              items[i].priorityScore.value >= items[j].priorityScore.value)
        && (items[i].priorityScore == items[j].priorityScore ==> items[i].createdAt >= items[j].createdAt)
  {
    assert CriteriaOf(params) == ByPriority;
  }

  /** Under `sort_by=recent` a page lists complaints newest first. */
  lemma RecentListOrder(all: seq<Complaint>, params: ListParams)
    requires params.sortBy == Some("recent")
    requires SkipOf(params) >= 0
    ensures
      var items := List(all, params).value.items;
      forall i, j :: 0 <= i < j < |items| ==> items[i].createdAt >= items[j].createdAt
  {
  }

  /** Any other `sort_by` applies no sort: the page is a window of the stored order. */
  lemma UnknownSortKeepsStoredOrder(all: seq<Complaint>, params: ListParams)
    requires params.sortBy.Some? && params.sortBy.value != "priority" && params.sortBy.value != "recent"
    requires SkipOf(params) >= 0
    ensures forall k :: 0 <= k < |List(all, params).value.items| ==>
      List(all, params).value.items[k] == Selected(all, params)[SkipOf(params) + k]
  {
  }

  /** The total depends on the status filter only, never on the sort order or the window. */
  lemma TotalIgnoresPaging(all: seq<Complaint>, p1: ListParams, p2: ListParams)
    requires p1.status == p2.status
    requires SkipOf(p1) >= 0 && SkipOf(p2) >= 0
    ensures List(all, p1).value.total == List(all, p2).value.total
  {
  }

  /** 25 stored complaints, no filter, newest first, 20 per page: page 2 holds 5 of them and
      page 3 none, both with a total of 25. */
  lemma TwentyFiveComplaintsExample(all: seq<Complaint>)
    requires |all| == 25
    ensures List(all, ListParams(Some("recent"), None, Some(2), Some(20)))
              == Success(ListPage(List(all, ListParams(Some("recent"), None, Some(2), Some(20))).value.items, 2, 25))
    ensures |List(all, ListParams(Some("recent"), None, Some(2), Some(20))).value.items| == 5
    ensures List(all, ListParams(Some("recent"), None, Some(3), Some(20))) == Success(ListPage([], 3, 25))
  {
  }
}
