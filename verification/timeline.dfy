/**
 * The build timeline (`AzdoTimeline`): a flat list of records, each naming
 * its parent by id, and the views derived from it: all issues, the job
 * names, and the children of a parent sorted stably by `Order`.
 */
module AzdoTimeline {
  import opened Common

  datatype TimelineIssue = TimelineIssue(issueType: string, message: string, category: Option<string>)

  datatype TimelineRecord = TimelineRecord(
    id: string,
    parentId: Option<string>,  // None: a top-level record
    name: string,
    recordType: string,
    order: int,                // sort key; neither unique nor contiguous
    state: Option<string>,
    result: Option<string>,
    errorCount: int,
    warningCount: int,
    startTime: Option<DateTime>,
    finishTime: Option<DateTime>,
    issues: seq<TimelineIssue>,
    workerName: Option<string>,
    logUrl: Option<string>)

  datatype Timeline = Timeline(records: seq<TimelineRecord>)

  // ---------------------------------------------------------------------------
  // GetIssues

  /** `Records.SelectMany(r => r.Issues)`. */
  function AllIssues(records: seq<TimelineRecord>): seq<TimelineIssue> {
    if records == [] then [] else AllIssues(records[..|records| - 1]) + records[|records| - 1].issues
  }

  function IssueCount(records: seq<TimelineRecord>): nat {
    if records == [] then 0 else IssueCount(records[..|records| - 1]) + |records[|records| - 1].issues|
  }

  function GetIssues(t: Timeline): seq<TimelineIssue> {
    AllIssues(t.records)
  }

  /** The flattened list keeps record order: issues of earlier records come first. */
  lemma {:induction false} IssuesAppend(a: seq<TimelineRecord>, b: seq<TimelineRecord>)
    ensures AllIssues(a + b) == AllIssues(a) + AllIssues(b)
    decreases |b|
  {
    if b == [] {
      assert a + b == a;
    } else {
      assert (a + b)[..|a + b| - 1] == a + b[..|b| - 1];
      IssuesAppend(a, b[..|b| - 1]);
    }
  }

  /** Nothing is dropped or added: there are as many issues as the records carry. */
  lemma {:induction false} IssuesLength(t: Timeline)
    ensures |GetIssues(t)| == IssueCount(t.records)
    decreases |t.records|
  {
    if t.records != [] {
      IssuesLength(Timeline(t.records[..|t.records| - 1]));
    }
  }

  /** An issue is reported exactly when some record carries it. */
  lemma {:induction false} IssuesMembership(t: Timeline, issue: TimelineIssue)
    ensures issue in GetIssues(t) <==> exists r :: r in t.records && issue in r.issues
    decreases |t.records|
  {
    var rs := t.records;
    if rs != [] {
      var init := rs[..|rs| - 1];
      IssuesMembership(Timeline(init), issue);
      if issue in GetIssues(t) && issue !in AllIssues(init) {
        assert issue in rs[|rs| - 1].issues;
      }
      if exists r :: r in rs && issue in r.issues {
        var r :| r in rs && issue in r.issues;
        if r != rs[|rs| - 1] {
          assert rs == init + [rs[|rs| - 1]];
          assert r in init;
        }
      }
    }
  }

  /** `Where` keeps a record exactly when it is in the input and satisfies the predicate. */
  lemma RecordFilterMembers(s: seq<TimelineRecord>, p: TimelineRecord -> bool)
    ensures forall r :: r in Filter(s, p) <==> r in s && p(r)
  {
    FilterMembers(s, p);
    forall r | r in s && p(r) ensures r in Filter(s, p) {
      var i :| 0 <= i < |s| && s[i] == r;
    }
  }

  // ---------------------------------------------------------------------------
  // GetJobNames

  predicate IsJob(r: TimelineRecord) { r.recordType == "Job" }

  function Names(records: seq<TimelineRecord>): (names: seq<string>)
    ensures |names| == |records|
    ensures forall i :: 0 <= i < |records| ==> names[i] == records[i].name
  {
    seq(|records|, i requires 0 <= i < |records| => records[i].name)
  }

  /** `Records.Where(r => r.RecordType == "Job").Select(r => r.Name)`. */
  function GetJobNames(t: Timeline): (names: seq<string>)
    ensures |names| == |Filter(t.records, IsJob)|
    ensures forall n :: n in names <==> exists r :: r in t.records && IsJob(r) && r.name == n
  {
    var jobs := Filter(t.records, IsJob);
    var names := Names(jobs);
    FilterMembers(t.records, IsJob);
    assert forall n :: n in names ==> exists i :: 0 <= i < |jobs| && jobs[i].name == n;
    names
  }

  /**
   * Job names follow input order, not `Order`: names of a prefix come before
   * names of what follows. Duplicate names are kept.
   */
  lemma JobNamesAppend(a: seq<TimelineRecord>, b: seq<TimelineRecord>)
    ensures GetJobNames(Timeline(a + b)) == GetJobNames(Timeline(a)) + GetJobNames(Timeline(b))
  {
    FilterAppend(a, b, IsJob);
  }

  // ---------------------------------------------------------------------------
  // Stable sort by Order (`OrderBy(r => r.Order)`)

  predicate SortedByOrder(s: seq<TimelineRecord>) {
    forall i, j :: 0 <= i < j < |s| ==> s[i].order <= s[j].order
  }

  function HasOrder(k: int): TimelineRecord -> bool {
    (r: TimelineRecord) => r.order == k
  }

  /**
   * A stable sort of `s` by `Order`: ascending, and for every key the records
   * with that key appear in the order they had in `s`.
   */
  ghost predicate IsStableSortOf(r: seq<TimelineRecord>, s: seq<TimelineRecord>) {
    SortedByOrder(r) && forall k :: Filter(r, HasOrder(k)) == Filter(s, HasOrder(k))
  }

  /** Puts `x` after every record whose order is at most `x.order`. */
  function Insert(sorted: seq<TimelineRecord>, x: TimelineRecord): seq<TimelineRecord> {
    if sorted == [] || sorted[|sorted| - 1].order <= x.order then sorted + [x]
    else Insert(sorted[..|sorted| - 1], x) + [sorted[|sorted| - 1]]
  }

  function SortByOrder(s: seq<TimelineRecord>): seq<TimelineRecord> {
    if s == [] then [] else Insert(SortByOrder(s[..|s| - 1]), s[|s| - 1])
  }

  lemma {:induction false} InsertMultiset(sorted: seq<TimelineRecord>, x: TimelineRecord)
    ensures multiset(Insert(sorted, x)) == multiset(sorted) + multiset{x}
    decreases |sorted|
  {
    if !(sorted == [] || sorted[|sorted| - 1].order <= x.order) {
      var init, last := sorted[..|sorted| - 1], sorted[|sorted| - 1];
      assert sorted == init + [last];
      InsertMultiset(init, x);
    }
  }

  lemma {:induction false} InsertSorted(sorted: seq<TimelineRecord>, x: TimelineRecord)
    requires SortedByOrder(sorted)
    ensures SortedByOrder(Insert(sorted, x))
    decreases |sorted|
  {
    if !(sorted == [] || sorted[|sorted| - 1].order <= x.order) {
      var init, last := sorted[..|sorted| - 1], sorted[|sorted| - 1];
      InsertSorted(init, x);
      InsertBounded(init, x, last.order);
      SortedSnoc(Insert(init, x), last);
    }
  }

  /** Inserting keeps every key at most `bound` when the inserted one is. */
  lemma InsertBounded(init: seq<TimelineRecord>, x: TimelineRecord, bound: int)
    requires forall i :: 0 <= i < |init| ==> init[i].order <= bound
    requires x.order <= bound
    ensures forall i :: 0 <= i < |Insert(init, x)| ==> Insert(init, x)[i].order <= bound
  {
    InsertMultiset(init, x);
    var ins := Insert(init, x);
    forall i | 0 <= i < |ins| ensures ins[i].order <= bound {
      assert ins[i] in multiset(ins);
      assert ins[i] in multiset(init) || ins[i] == x;
    }
  }

  lemma SortedSnoc(s: seq<TimelineRecord>, y: TimelineRecord)
    requires SortedByOrder(s) && forall i :: 0 <= i < |s| ==> s[i].order <= y.order
    ensures SortedByOrder(s + [y])
  {
  }

  /** Inserting `x` adds it at the end of the records sharing its key, and nowhere else. */
  lemma {:induction false} InsertFilter(sorted: seq<TimelineRecord>, x: TimelineRecord, k: int)
    ensures Filter(Insert(sorted, x), HasOrder(k)) == Filter(sorted, HasOrder(k)) + (if x.order == k then [x] else [])
    decreases |sorted|
  {
    if sorted == [] || sorted[|sorted| - 1].order <= x.order {
      FilterSnoc(sorted, x, HasOrder(k));
    } else {
      var init, last := sorted[..|sorted| - 1], sorted[|sorted| - 1];
      assert sorted == init + [last];
      InsertFilter(init, x, k);
      FilterSnoc(Insert(init, x), last, HasOrder(k));
      FilterSnoc(init, last, HasOrder(k));
      assert x.order == k ==> last.order != k;
    }
  }

  lemma {:induction false} SortByOrderIsStableSort(s: seq<TimelineRecord>)
    ensures IsStableSortOf(SortByOrder(s), s)
    ensures multiset(SortByOrder(s)) == multiset(s)
    decreases |s|
  {
    if s != [] {
      var init, last := s[..|s| - 1], s[|s| - 1];
      SortByOrderIsStableSort(init);
      InsertSorted(SortByOrder(init), last);
      InsertMultiset(SortByOrder(init), last);
      assert s == init + [last];
      forall k ensures Filter(SortByOrder(s), HasOrder(k)) == Filter(s, HasOrder(k)) {
        InsertFilter(SortByOrder(init), last, k);
        FilterAppend(init, [last], HasOrder(k));
      }
    }
  }

  ghost predicate SameKeyFilters(a: seq<TimelineRecord>, b: seq<TimelineRecord>) {
    forall k :: Filter(a, HasOrder(k)) == Filter(b, HasOrder(k))
  }

  /** In a sorted sequence, a record that shares a key with the head has the smallest key. */
  lemma HeadKeyIsLeast(a: seq<TimelineRecord>, b: seq<TimelineRecord>)
    requires a != [] && b != [] && SortedByOrder(b)
    requires Filter(a, HasOrder(a[0].order)) == Filter(b, HasOrder(a[0].order))
    ensures b[0].order <= a[0].order
  {
    FilterMembers(a, HasOrder(a[0].order));
    FilterMembers(b, HasOrder(a[0].order));
    var f := Filter(b, HasOrder(a[0].order));
    assert a[0] in f;
    var i :| 0 <= i < |f| && f[i] == a[0];
  }

  /** Two sorted sequences whose same-key subsequences agree start with the same record. */
  lemma SameHead(a: seq<TimelineRecord>, b: seq<TimelineRecord>)
    requires a != [] && b != [] && SortedByOrder(a) && SortedByOrder(b) && SameKeyFilters(a, b)
    ensures a[0] == b[0]
  {
    assert Filter(a, HasOrder(a[0].order)) == Filter(b, HasOrder(a[0].order));
    assert Filter(a, HasOrder(b[0].order)) == Filter(b, HasOrder(b[0].order));
    HeadKeyIsLeast(a, b);
    HeadKeyIsLeast(b, a);
    var k := a[0].order;
    FilterHead(a, HasOrder(k));
    FilterHead(b, HasOrder(k));
    assert ([a[0]] + Filter(a[1..], HasOrder(k)))[0] == a[0];
  }

  lemma SameTailFilters(a: seq<TimelineRecord>, b: seq<TimelineRecord>)
    requires a != [] && b != [] && a[0] == b[0] && SameKeyFilters(a, b)
    ensures SameKeyFilters(a[1..], b[1..])
  {
    forall k ensures Filter(a[1..], HasOrder(k)) == Filter(b[1..], HasOrder(k)) {
      FilterAppend([a[0]], a[1..], HasOrder(k));
      FilterAppend([b[0]], b[1..], HasOrder(k));
      assert [a[0]] + a[1..] == a;
      assert [b[0]] + b[1..] == b;
      var x := Filter([a[0]], HasOrder(k));
      assert Filter(a, HasOrder(k)) == x + Filter(a[1..], HasOrder(k));
      assert Filter(b, HasOrder(k)) == x + Filter(b[1..], HasOrder(k));
      assert (x + Filter(a[1..], HasOrder(k)))[|x|..] == Filter(a[1..], HasOrder(k));
      assert (x + Filter(b[1..], HasOrder(k)))[|x|..] == Filter(b[1..], HasOrder(k));
    }
  }

  lemma BothEmptyOrNeither(a: seq<TimelineRecord>, b: seq<TimelineRecord>)
    requires SameKeyFilters(a, b)
    ensures a != [] ==> b != []
  {
    if a != [] {
      FilterMembers(a, HasOrder(a[0].order));
      assert Filter(a, HasOrder(a[0].order)) == Filter(b, HasOrder(a[0].order));
    }
  }

  lemma {:induction false} SortedSameKeysEqual(a: seq<TimelineRecord>, b: seq<TimelineRecord>)
    requires SortedByOrder(a) && SortedByOrder(b) && SameKeyFilters(a, b)
    ensures a == b
    decreases |a| + |b|
  {
    BothEmptyOrNeither(a, b);
    BothEmptyOrNeither(b, a);
    if a != [] {
      SameHead(a, b);
      SameTailFilters(a, b);
      SortedSameKeysEqual(a[1..], b[1..]);
      assert a == [a[0]] + a[1..];
      assert b == [b[0]] + b[1..];
    }
  }

  /**
   * A stable sort is unique: any two stable sorts of the same input are equal.
   * So `SortByOrder` is exactly what LINQ's (stable) `OrderBy` returns.
   */
  lemma StableSortUnique(a: seq<TimelineRecord>, b: seq<TimelineRecord>, s: seq<TimelineRecord>)
    requires IsStableSortOf(a, s) && IsStableSortOf(b, s)
    ensures a == b
  {
    forall k ensures Filter(a, HasOrder(k)) == Filter(b, HasOrder(k)) {
      assert Filter(a, HasOrder(k)) == Filter(s, HasOrder(k));
    }
    SortedSameKeysEqual(a, b);
  }

  lemma FilterHead(s: seq<TimelineRecord>, p: TimelineRecord -> bool)
    requires s != [] && p(s[0])
    ensures Filter(s, p) == [s[0]] + Filter(s[1..], p)
  {
    FilterAppend([s[0]], s[1..], p);
    assert [s[0]] + s[1..] == s;
  }

  // ---------------------------------------------------------------------------
  // GetChildren

  function ParentIs(parentId: Option<string>): TimelineRecord -> bool {
    (r: TimelineRecord) => r.parentId == parentId
  }

  /**
   * `Records.Where(r => r.ParentId == parentId).OrderBy(r => r.Order)`:
   * exactly the records naming `parentId` as parent (None: the top-level
   * records), ascending by `Order`, ties in input order.
   */
  function GetChildren(t: Timeline, parentId: Option<string>): (children: seq<TimelineRecord>)
    ensures forall r :: r in children <==> r in t.records && r.parentId == parentId
    ensures SortedByOrder(children)
    ensures multiset(children) == multiset(Filter(t.records, ParentIs(parentId)))
    ensures IsStableSortOf(children, Filter(t.records, ParentIs(parentId)))
  {
    var matching := Filter(t.records, ParentIs(parentId));
    RecordFilterMembers(t.records, ParentIs(parentId));
    SortByOrderIsStableSort(matching);
    var children := SortByOrder(matching);
    assert forall r :: r in children <==> r in multiset(children);
    assert forall r :: r in matching <==> r in multiset(matching);
    children
  }

  /** Any stable sort by `Order` of the matching records gives the same list. */
  lemma GetChildrenIsOrderBy(t: Timeline, parentId: Option<string>, other: seq<TimelineRecord>)
    requires IsStableSortOf(other, Filter(t.records, ParentIs(parentId)))
    ensures GetChildren(t, parentId) == other
  {
    StableSortUnique(GetChildren(t, parentId), other, Filter(t.records, ParentIs(parentId)));
  }

  /** Two children with the same `Order` keep their relative input order. */
  lemma ChildrenTiesKeepInputOrder(t: Timeline, parentId: Option<string>, k: int)
    ensures Filter(GetChildren(t, parentId), HasOrder(k))
         == Filter(t.records, (r: TimelineRecord) => r.parentId == parentId && r.order == k)
  {
    BothFilters(t.records, parentId, k);
  }

  lemma {:induction false} BothFilters(s: seq<TimelineRecord>, parentId: Option<string>, k: int)
    ensures Filter(Filter(s, ParentIs(parentId)), HasOrder(k))
         == Filter(s, (r: TimelineRecord) => r.parentId == parentId && r.order == k)
    decreases |s|
  {
    if s != [] {
      BothFilters(s[..|s| - 1], parentId, k);
      FilterAppend(Filter(s[..|s| - 1], ParentIs(parentId)), if ParentIs(parentId)(s[|s| - 1]) then [s[|s| - 1]] else [], HasOrder(k));
    }
  }

  // ---------------------------------------------------------------------------
  // Orphans and tree walks

  /** A record whose parent id names no record of the timeline. */
  predicate IsOrphan(t: Timeline, r: TimelineRecord) {
    r.parentId.Some? && forall q :: q in t.records ==> q.id != r.parentId.value
  }

  /** An orphan is a child of no record and not a top-level record either. */
  lemma OrphanIsNoOnesChild(t: Timeline, orphan: TimelineRecord)
    requires IsOrphan(t, orphan)
    ensures orphan !in GetChildren(t, None)
    ensures forall q :: q in t.records ==> orphan !in GetChildren(t, Some(q.id))
  {
  }

  /**
   * Walking the tree as a consumer does: each child of `parentId`, followed by
   * the walk below it. `depth` bounds the descent (parent links may form a cycle).
   */
  function Walk(t: Timeline, parentId: Option<string>, depth: nat): seq<TimelineRecord>
    decreases depth, 1, 0
  {
    WalkList(t, GetChildren(t, parentId), depth)
  }

  function WalkList(t: Timeline, children: seq<TimelineRecord>, depth: nat): seq<TimelineRecord>
    decreases depth, 0, |children|
  {
    if children == [] then []
    else
      [children[0]]
      + (if depth == 0 then [] else Walk(t, Some(children[0].id), depth - 1))
      + WalkList(t, children[1..], depth)
  }

  /** Reached by the walk: top-level, or a child of a record that exists. */
  predicate Anchored(t: Timeline, r: TimelineRecord) {
    r in t.records && (r.parentId.None? || exists q :: q in t.records && r.parentId == Some(q.id))
  }

  lemma {:induction false} WalkAnchored(t: Timeline, parentId: Option<string>, depth: nat)
    requires parentId.None? || exists q :: q in t.records && parentId == Some(q.id)
    ensures forall r :: r in Walk(t, parentId, depth) ==> Anchored(t, r)
    decreases depth, 1, 0
  {
    WalkListAnchored(t, GetChildren(t, parentId), depth);
  }

  lemma {:induction false} WalkListAnchored(t: Timeline, children: seq<TimelineRecord>, depth: nat)
    requires forall i :: 0 <= i < |children| ==> Anchored(t, children[i])
    ensures forall r :: r in WalkList(t, children, depth) ==> Anchored(t, r)
    decreases depth, 0, |children|
  {
    if children != [] {
      if depth > 0 {
        WalkAnchored(t, Some(children[0].id), depth - 1);
      }
      WalkListAnchored(t, children[1..], depth);
    }
  }

  /** An orphan is invisible to every walk that starts at the top-level records. */
  lemma OrphanNeverWalked(t: Timeline, orphan: TimelineRecord, depth: nat)
    requires IsOrphan(t, orphan)
    ensures orphan !in Walk(t, None, depth)
  {
    WalkAnchored(t, None, depth);
  }

  /** Every top-level record is visited by a walk from the top. */
  lemma TopLevelWalked(t: Timeline, r: TimelineRecord, depth: nat)
    requires r in t.records && r.parentId.None?
    ensures r in Walk(t, None, depth)
  {
    WalkListContains(t, GetChildren(t, None), depth);
  }

  lemma {:induction false} WalkListContains(t: Timeline, children: seq<TimelineRecord>, depth: nat)
    ensures forall r :: r in children ==> r in WalkList(t, children, depth)
    decreases |children|
  {
    if children != [] {
      WalkListContains(t, children[1..], depth);
      assert children == [children[0]] + children[1..];
    }
  }

  // ---------------------------------------------------------------------------
  // The job list of the `jobs` commands

  /**
   * `Records.Where(r => r.RecordType == "Job").OrderBy(r => r.Order)`: every
   * Job record whatever its nesting, ascending by `Order`, ties in input order.
   */
  function JobsByOrder(records: seq<TimelineRecord>): (jobs: seq<TimelineRecord>)
    ensures forall r :: r in jobs <==> r in records && IsJob(r)
    ensures multiset(jobs) == multiset(Filter(records, IsJob))
    ensures IsStableSortOf(jobs, Filter(records, IsJob))
  {
    var matching := Filter(records, IsJob);
    RecordFilterMembers(records, IsJob);
    SortByOrderIsStableSort(matching);
    var jobs := SortByOrder(matching);
    assert forall r :: r in jobs <==> r in multiset(jobs);
    assert forall r :: r in matching <==> r in multiset(matching);
    jobs
  }

  /** The sorted job list and the job names speak of the same records: one name per job. */
  lemma JobsByOrderMatchesJobNames(t: Timeline)
    ensures |JobsByOrder(t.records)| == |GetJobNames(t)|
    ensures multiset(Names(JobsByOrder(t.records))) == multiset(GetJobNames(t))
  {
    var matching := Filter(t.records, IsJob);
    var jobs := JobsByOrder(t.records);
    assert |jobs| == |multiset(jobs)| == |multiset(matching)| == |matching|;
    NamesOfPermutation(jobs, matching);
  }

  lemma {:induction false} NamesOfPermutation(a: seq<TimelineRecord>, b: seq<TimelineRecord>)
    requires multiset(a) == multiset(b)
    ensures multiset(Names(a)) == multiset(Names(b))
    decreases |a|
  {
    if a == [] {
      assert |multiset(b)| == 0;
    } else {
      var init, x := a[..|a| - 1], a[|a| - 1];
      var i := RemoveLast(a, b);
      NamesOfPermutation(init, b[..i] + b[i + 1..]);
      NamesAppend(init, [x]);
      assert a == init + [x];
    }
  }

  /** The last record of `a` sits at some `i` in its permutation `b`; the rest of `a` is a permutation of `b` without it. */
  lemma RemoveLast(a: seq<TimelineRecord>, b: seq<TimelineRecord>) returns (i: int)
    requires a != [] && multiset(a) == multiset(b)
    ensures 0 <= i < |b| && b[i] == a[|a| - 1]
    ensures multiset(a[..|a| - 1]) == multiset(b[..i] + b[i + 1..])
    ensures multiset(Names(b)) == multiset(Names(b[..i] + b[i + 1..])) + multiset{b[i].name}
  {
    var init, x := a[..|a| - 1], a[|a| - 1];
    assert a == init + [x];
    assert multiset(a) == multiset(init) + multiset{x};
    assert x in b by {
      assert x in multiset(a);
    }
    i :| 0 <= i < |b| && b[i] == x;
    var rest := b[..i] + b[i + 1..];
    RemoveAt(b, i);
    assert multiset(init) + multiset{x} == multiset(rest) + multiset{x};
    MultisetCancel(multiset(init), multiset(rest), x);
  }

  lemma MultisetCancel<T>(m: multiset<T>, n: multiset<T>, x: T)
    requires m + multiset{x} == n + multiset{x}
    ensures m == n
  {
    forall y ensures m[y] == n[y] {
      assert (m + multiset{x})[y] == (n + multiset{x})[y];
    }
  }

  /** Taking out the record at `i` takes one copy of it, and one copy of its name, out of the multisets. */
  lemma RemoveAt(b: seq<TimelineRecord>, i: int)
    requires 0 <= i < |b|
    ensures multiset(b) == multiset(b[..i] + b[i + 1..]) + multiset{b[i]}
    ensures multiset(Names(b)) == multiset(Names(b[..i] + b[i + 1..])) + multiset{b[i].name}
  {
    assert b == b[..i] + [b[i]] + b[i + 1..];
    var n := Names(b);
    assert Names(b[..i] + b[i + 1..]) == n[..i] + n[i + 1..];
    assert n == n[..i] + [n[i]] + n[i + 1..];
  }

  lemma NamesAppend(a: seq<TimelineRecord>, b: seq<TimelineRecord>)
    ensures Names(a + b) == Names(a) + Names(b)
  {
  }
}
