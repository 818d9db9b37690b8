/**
 * `crew tasks`: the task list with a per-status summary, sorted by status and
 * id, with a note on each `todo` task that still waits for open
 * dependencies.
 */
module TaskListing {
  import opened Text
  import opened Transitions
  import opened TaskStore

  /** `STATUS_ORDER`: the order of the summary and of the list. */
  const StatusOrder: seq<TaskStatus> := [InProgress, ChangesRequested, Ready, DevDone, InReview, Blocked, Todo, Closed]

  /** `STATUS_ORDER.indexOf(s)`. */
  function OrderIndex(s: TaskStatus): (r: nat)
    ensures r < |StatusOrder| && StatusOrder[r] == s
    ensures forall k :: 0 <= k < r ==> StatusOrder[k] != s
  {
    match s
    case InProgress => 0
    case ChangesRequested => 1
    case Ready => 2
    case DevDone => 3
    case InReview => 4
    case Blocked => 5
    case Todo => 6
    case Closed => 7
  }

  /** Every status has its place in the order, and only one. */
  lemma StatusOrderIsAPermutation(s: TaskStatus)
    ensures s in StatusOrder
    ensures forall i, j :: 0 <= i < j < |StatusOrder| ==> StatusOrder[i] != StatusOrder[j]
  {
    assert StatusOrder[OrderIndex(s)] == s;
  }

  /** The status as the front matter spells it. */
  function StatusName(s: TaskStatus): string {
    match s
    case Todo => "todo"
    case Ready => "ready"
    case InProgress => "in_progress"
    case DevDone => "dev_done"
    case InReview => "in_review"
    case ChangesRequested => "changes_requested"
    case Blocked => "blocked"
    case Closed => "closed"
  }

  /** `STATUS_ICON`. */
  function Icon(s: TaskStatus): string {
    match s
    case Todo => " "
    case Ready => "▶"
    case InProgress => "⏳"
    case DevDone => "✔"
    case InReview => "🔍"
    case ChangesRequested => "↩"
    case Blocked => "🚫"
    case Closed => "✅"
  }

  // ----- the id map -----

  /** `taskMap` after the first `|tasks|` insertions: a later task with the same id replaces an earlier one. */
  function IdMap(tasks: seq<Task>): map<string, Task>
    decreases |tasks|
  {
    if tasks == [] then map[]
    else
      var last := tasks[|tasks| - 1];
      IdMap(tasks[..|tasks| - 1])[last.frontmatter.id := last]
  }

  /** The map holds exactly the listed ids. */
  lemma {:induction false} IdMapKeys(tasks: seq<Task>)
    ensures forall id :: id in IdMap(tasks) <==> exists i :: 0 <= i < |tasks| && tasks[i].frontmatter.id == id
    decreases |tasks|
  {
    if tasks != [] {
      var n := |tasks| - 1;
      var init := tasks[..n];
      IdMapKeys(init);
      assert IdMap(tasks) == IdMap(init)[tasks[n].frontmatter.id := tasks[n]];
      forall id | exists i :: 0 <= i < |tasks| && tasks[i].frontmatter.id == id
        ensures id in IdMap(tasks)
      {
        var i :| 0 <= i < |tasks| && tasks[i].frontmatter.id == id;
        if i < n {
          assert init[i].frontmatter.id == id;
        }
      }
      forall id | id in IdMap(tasks)
        ensures exists i :: 0 <= i < |tasks| && tasks[i].frontmatter.id == id
      {
        if id != tasks[n].frontmatter.id {
          assert id in IdMap(init);
          var i :| 0 <= i < |init| && init[i].frontmatter.id == id;
          assert tasks[i] == init[i];
        }
      }
    }
  }

  /** Under each id the map holds the last task listed with that id. */
  predicate LastWithId(tasks: seq<Task>, i: int, id: string) {
    0 <= i < |tasks| && tasks[i].frontmatter.id == id && forall j :: i < j < |tasks| ==> tasks[j].frontmatter.id != id
  }

  lemma {:induction false} IdMapLastWins(tasks: seq<Task>)
    ensures forall id :: id in IdMap(tasks) ==> exists i :: LastWithId(tasks, i, id) && tasks[i] == IdMap(tasks)[id]
    decreases |tasks|
  {
    if tasks != [] {
      var n := |tasks| - 1;
      var init := tasks[..n];
      IdMapLastWins(init);
      assert IdMap(tasks) == IdMap(init)[tasks[n].frontmatter.id := tasks[n]];
      forall id | id in IdMap(tasks)
        ensures exists i :: LastWithId(tasks, i, id) && tasks[i] == IdMap(tasks)[id]
      {
        if id == tasks[n].frontmatter.id {
          assert LastWithId(tasks, n, id);
        } else {
          assert id in IdMap(init) && IdMap(tasks)[id] == IdMap(init)[id];
          var i :| LastWithId(init, i, id) && init[i] == IdMap(init)[id];
          assert forall j :: i <= j < n ==> tasks[j] == init[j];
          assert LastWithId(tasks, i, id);
        }
      }
    }
  }

  /** The loop that fills `taskMap`. */
  method BuildTaskMap(tasks: seq<Task>) returns (m: map<string, Task>)
    ensures m == IdMap(tasks)
  {
    m := map[];
    var i := 0;
    while i < |tasks|
      invariant i <= |tasks|
      invariant m == IdMap(tasks[..i])
    {
      assert tasks[..i + 1][..i] == tasks[..i];
      m := m[tasks[i].frontmatter.id := tasks[i]];
      i := i + 1;
    }
    assert tasks[..|tasks|] == tasks;
  }

  // ----- counting -----

  /** The number of tasks with status `s`. */
  function Occurrences(tasks: seq<Task>, s: TaskStatus): (r: nat)
    ensures r <= |tasks|
    decreases |tasks|
  {
    if tasks == [] then 0
    else Occurrences(tasks[..|tasks| - 1], s) + (if tasks[|tasks| - 1].frontmatter.status == s then 1 else 0)
  }

  /** The counts of the statuses in `order`, added up. */
  function SumOver(order: seq<TaskStatus>, tasks: seq<Task>): nat
    decreases |order|
  {
    if order == [] then 0 else Occurrences(tasks, order[0]) + SumOver(order[1..], tasks)
  }

  /** One more task adds one to the sum over a list of distinct statuses that holds its status. */
  lemma {:induction false} SumOverStep(order: seq<TaskStatus>, tasks: seq<Task>, t: Task)
    requires forall i, j :: 0 <= i < j < |order| ==> order[i] != order[j]
    ensures SumOver(order, tasks + [t]) == SumOver(order, tasks) + (if t.frontmatter.status in order then 1 else 0)
    decreases |order|
  {
    if order != [] {
      assert (tasks + [t])[..|tasks|] == tasks;
      SumOverStep(order[1..], tasks, t);
      assert t.frontmatter.status in order[1..] ==> t.frontmatter.status != order[0];
      assert t.frontmatter.status in order <==> t.frontmatter.status == order[0] || t.frontmatter.status in order[1..];
    }
  }

  lemma {:induction false} SumOverNoTasks(order: seq<TaskStatus>)
    ensures SumOver(order, []) == 0
    decreases |order|
  {
    if order != [] {
      SumOverNoTasks(order[1..]);
    }
  }

  /** Over any list naming every status once, the counts add up to the number of tasks. */
  lemma {:induction false} CountsAddUpOver(order: seq<TaskStatus>, tasks: seq<Task>)
    requires forall i, j :: 0 <= i < j < |order| ==> order[i] != order[j]
    requires forall s :: s in order
    ensures SumOver(order, tasks) == |tasks|
    decreases |tasks|
  {
    if tasks == [] {
      SumOverNoTasks(order);
    } else {
      var n := |tasks| - 1;
      CountsAddUpOver(order, tasks[..n]);
      assert tasks[..n] + [tasks[n]] == tasks;
      SumOverStep(order, tasks[..n], tasks[n]);
    }
  }

  /** The per-status counts add up to the number of tasks. */
  lemma CountsAddUp(tasks: seq<Task>)
    ensures SumOver(StatusOrder, tasks) == |tasks|
  {
    forall s ensures s in StatusOrder {
      StatusOrderIsAPermutation(s);
    }
    StatusOrderIsAPermutation(Todo);
    CountsAddUpOver(StatusOrder, tasks);
  }

  /** `statusCounts` after a prefix of the tasks: a status is present exactly when it has been seen. */
  predicate CountsOf(counts: map<TaskStatus, nat>, tasks: seq<Task>) {
    forall s :: (s in counts <==> Occurrences(tasks, s) > 0) && (s in counts ==> counts[s] == Occurrences(tasks, s))
  }

  /** The loop that fills `statusCounts`. */
  method CountStatuses(tasks: seq<Task>) returns (counts: map<TaskStatus, nat>)
    ensures CountsOf(counts, tasks)
  {
    counts := map[];
    var i := 0;
    while i < |tasks|
      invariant i <= |tasks|
      invariant CountsOf(counts, tasks[..i])
    {
      var s := tasks[i].frontmatter.status;
      var before := if s in counts then counts[s] else 0;
      assert tasks[..i + 1][..i] == tasks[..i];
      counts := counts[s := before + 1];
      i := i + 1;
    }
    assert tasks[..|tasks|] == tasks;
  }

  /** `statusCounts.get("closed") ?? 0`. */
  function ClosedCount(counts: map<TaskStatus, nat>): nat {
    if Closed in counts then counts[Closed] else 0
  }

  /** The header `Tasks: <closed>/<total> completed` counts the closed tasks, which are at most all of them. */
  lemma HeaderCountsClosed(counts: map<TaskStatus, nat>, tasks: seq<Task>)
    requires CountsOf(counts, tasks)
    ensures ClosedCount(counts) == Occurrences(tasks, Closed) <= |tasks|
  {
  }

  // ----- the summary line -----

  /** The statuses of `order` the summary names: those counted at least once, in order. */
  function SummaryStatuses(order: seq<TaskStatus>, counts: map<TaskStatus, nat>): (r: seq<TaskStatus>)
    ensures forall s :: s in r <==> s in order && s in counts && counts[s] > 0
    decreases |order|
  {
    if order == [] then []
    else
      var s := order[|order| - 1];
      var init := SummaryStatuses(order[..|order| - 1], counts);
      assert forall x :: x in order <==> x in order[..|order| - 1] || x == s;
      if s in counts && counts[s] > 0 then init + [s] else init
  }

  /** One summary entry: the icon, the status and its count. */
  function SummaryEntry(s: TaskStatus, count: nat): string {
    Icon(s) + " " + StatusName(s) + ":" + NatToString(count)
  }

  /** `summaryParts` after the loop has looked at `order`. */
  function SummaryParts(order: seq<TaskStatus>, counts: map<TaskStatus, nat>): (r: seq<string>)
    ensures var ss := SummaryStatuses(order, counts);
      |r| == |ss| && forall k :: 0 <= k < |r| ==> ss[k] in counts && r[k] == SummaryEntry(ss[k], counts[ss[k]])
    decreases |order|
  {
    if order == [] then []
    else
      var s := order[|order| - 1];
      var init := SummaryParts(order[..|order| - 1], counts);
      if s in counts && counts[s] > 0 then init + [SummaryEntry(s, counts[s])] else init
  }

  /** The loop that builds `summaryParts`, over `STATUS_ORDER`. */
  method BuildSummary(counts: map<TaskStatus, nat>) returns (parts: seq<string>)
    ensures parts == SummaryParts(StatusOrder, counts)
  {
    parts := SummaryLoop(StatusOrder, counts);
  }

  /** The loop of `BuildSummary`, over any order of statuses. */
  method SummaryLoop(order: seq<TaskStatus>, counts: map<TaskStatus, nat>) returns (parts: seq<string>)
    ensures parts == SummaryParts(order, counts)
  {
    parts := [];
    var i := 0;
    while i < |order|
      invariant i <= |order|
      invariant parts == SummaryParts(order[..i], counts)
    {
      var s := order[i];
      SummaryPartsStep(order, i, counts);
      if s in counts && counts[s] > 0 {
        parts := parts + [SummaryEntry(s, counts[s])];
      }
      i := i + 1;
    }
    assert order[..|order|] == order;
  }

  /** The summary after one more status of the order. */
  lemma SummaryPartsStep(order: seq<TaskStatus>, i: nat, counts: map<TaskStatus, nat>)
    requires i < |order|
    ensures var s := order[i]; var before := SummaryParts(order[..i], counts);
      SummaryParts(order[..i + 1], counts) == if s in counts && counts[s] > 0 then before + [SummaryEntry(s, counts[s])] else before
  {
    assert order[..i + 1][..i] == order[..i];
  }

  /** A list ascending in `STATUS_ORDER` position. */
  predicate Ascending(order: seq<TaskStatus>) {
    forall i, j :: 0 <= i < j < |order| ==> OrderIndex(order[i]) < OrderIndex(order[j])
  }

  /** Taking statuses out of an ascending list leaves it ascending. */
  lemma {:induction false} SummaryStatusesAscending(order: seq<TaskStatus>, counts: map<TaskStatus, nat>)
    requires Ascending(order)
    ensures Ascending(SummaryStatuses(order, counts))
    decreases |order|
  {
    if order != [] {
      var n := |order| - 1;
      var init := SummaryStatuses(order[..n], counts);
      var s := order[n];
      SummaryStatusesAscending(order[..n], counts);
      if s in counts && counts[s] > 0 {
        var ss := init + [s];
        forall i, j | 0 <= i < j < |ss|
          ensures OrderIndex(ss[i]) < OrderIndex(ss[j])
        {
          if j == |init| {
            assert ss[i] == init[i] && init[i] in init;
            var k :| 0 <= k < n && order[..n][k] == ss[i];
            assert ss[j] == order[n];
          } else {
            assert ss[i] == init[i] && ss[j] == init[j];
          }
        }
      }
    }
  }

  /** `STATUS_ORDER` itself is ascending: each status sits at its own index. */
  lemma StatusOrderAscending()
    ensures Ascending(StatusOrder)
  {
    assert forall i :: 0 <= i < |StatusOrder| ==> OrderIndex(StatusOrder[i]) == i;
  }

  /**
   * The summary names exactly the statuses that occur among the tasks, each
   * once with its count, in `STATUS_ORDER` order.
   */
  lemma SummaryNamesOccurringStatuses(counts: map<TaskStatus, nat>, tasks: seq<Task>)
    requires CountsOf(counts, tasks)
    ensures var ss := SummaryStatuses(StatusOrder, counts);
      var parts := SummaryParts(StatusOrder, counts);
      (forall s :: s in ss <==> Occurrences(tasks, s) > 0)
      && (forall i, j :: 0 <= i < j < |ss| ==> OrderIndex(ss[i]) < OrderIndex(ss[j]))
      && |parts| == |ss|
      && (forall k :: 0 <= k < |parts| ==> parts[k] == SummaryEntry(ss[k], Occurrences(tasks, ss[k])))
  {
    forall s ensures s in StatusOrder {
      StatusOrderIsAPermutation(s);
    }
    StatusOrderAscending();
    SummaryStatusesAscending(StatusOrder, counts);
  }

  // ----- the sort -----

  /** `localeCompare`, as plain code-point order: its sign. */
  function LexCompare(a: string, b: string): (r: int)
    ensures -1 <= r <= 1
    ensures r == 0 <==> a == b
    decreases |a|
  {
    if a == [] then (if b == [] then 0 else -1)
    else if b == [] then 1
    else if a[0] < b[0] then -1
    else if a[0] > b[0] then 1
    else
      var r := LexCompare(a[1..], b[1..]);
      assert r == 0 ==> a == [a[0]] + a[1..] == [b[0]] + b[1..] == b;
      r
  }

  lemma {:induction false} LexCompareAntisymmetric(a: string, b: string)
    ensures LexCompare(a, b) == -LexCompare(b, a)
    decreases |a|
  {
    if a != [] && b != [] && a[0] == b[0] {
      LexCompareAntisymmetric(a[1..], b[1..]);
    }
  }

  lemma {:induction false} LexCompareTransitive(a: string, b: string, c: string)
    requires LexCompare(a, b) <= 0 && LexCompare(b, c) <= 0
    ensures LexCompare(a, c) <= 0
    decreases |a|
  {
    if a != [] && b != [] && c != [] && a[0] == b[0] && b[0] == c[0] {
      LexCompareTransitive(a[1..], b[1..], c[1..]);
    }
  }

  /** The comparator of the listing: status position first, then id. */
  function Compare(a: Task, b: Task): int {
    var ai := OrderIndex(a.frontmatter.status);
    var bi := OrderIndex(b.frontmatter.status);
    if ai != bi then ai - bi else LexCompare(a.frontmatter.id, b.frontmatter.id)
  }

  /** The comparator is a total preorder, as a sort needs. */
  lemma CompareIsTotalPreorder(a: Task, b: Task, c: Task)
    ensures Compare(a, b) <= 0 || Compare(b, a) <= 0
    ensures Compare(a, b) <= 0 && Compare(b, c) <= 0 ==> Compare(a, c) <= 0
  {
    LexCompareAntisymmetric(a.frontmatter.id, b.frontmatter.id);
    if Compare(a, b) <= 0 && Compare(b, c) <= 0
       && OrderIndex(a.frontmatter.status) == OrderIndex(b.frontmatter.status) == OrderIndex(c.frontmatter.status) {
      LexCompareTransitive(a.frontmatter.id, b.frontmatter.id, c.frontmatter.id);
    }
  }

  /** Each task is in order with the one after it. */
  predicate Sorted(ts: seq<Task>) {
    forall i :: 0 < i < |ts| ==> Compare(ts[i - 1], ts[i]) <= 0
  }

  /** Places `t` before the first task it does not come after. */
  function Insert(t: Task, sorted: seq<Task>): (r: seq<Task>)
    ensures |r| == |sorted| + 1
    decreases |sorted|
  {
    if sorted == [] then [t]
    else if Compare(t, sorted[0]) <= 0 then [t] + sorted
    else [sorted[0]] + Insert(t, sorted[1..])
  }

  lemma {:induction false} InsertKeepsTasks(t: Task, sorted: seq<Task>)
    ensures multiset(Insert(t, sorted)) == multiset(sorted) + multiset{t}
    decreases |sorted|
  {
    if sorted != [] && Compare(t, sorted[0]) > 0 {
      InsertKeepsTasks(t, sorted[1..]);
      assert sorted == [sorted[0]] + sorted[1..];
    }
  }

  lemma {:induction false} InsertKeepsOrder(t: Task, sorted: seq<Task>)
    requires Sorted(sorted)
    ensures Sorted(Insert(t, sorted))
    ensures Insert(t, sorted)[0] == t || (|sorted| > 0 && Insert(t, sorted)[0] == sorted[0])
    decreases |sorted|
  {
    if sorted != [] && Compare(t, sorted[0]) > 0 {
      var rest := Insert(t, sorted[1..]);
      InsertKeepsOrder(t, sorted[1..]);
      CompareIsTotalPreorder(t, sorted[0], sorted[0]);
      if |sorted| > 1 {
        assert Compare(sorted[0], sorted[1]) <= 0;
      }
      var r := [sorted[0]] + rest;
      assert r[1..] == rest;
      assert Compare(r[0], r[1]) <= 0;
    }
  }

  /**
   * The listing order: the tasks sorted by the comparator, a task placed
   * before the equal tasks listed after it.
   */
  function SortTasks(tasks: seq<Task>): (r: seq<Task>)
    ensures Sorted(r)
    decreases |tasks|
  {
    if tasks == [] then []
    else
      var rest := SortTasks(tasks[1..]);
      InsertKeepsOrder(tasks[0], rest);
      Insert(tasks[0], rest)
  }

  /** The listing holds the same tasks as the store returned, each as often. */
  lemma {:induction false} SortKeepsTasks(tasks: seq<Task>)
    ensures multiset(SortTasks(tasks)) == multiset(tasks)
    decreases |tasks|
  {
    if tasks != [] {
      SortKeepsTasks(tasks[1..]);
      InsertKeepsTasks(tasks[0], SortTasks(tasks[1..]));
      assert tasks == [tasks[0]] + tasks[1..];
    }
  }

  /** In the listing every task comes before all the tasks after it, not only the next one. */
  lemma {:induction false} SortedEverywhere(ts: seq<Task>, i: nat, j: nat)
    requires Sorted(ts) && i < j < |ts|
    ensures Compare(ts[i], ts[j]) <= 0
    decreases j - i
  {
    if j > i + 1 {
      SortedEverywhere(ts, i + 1, j);
      CompareIsTotalPreorder(ts[i], ts[i + 1], ts[j]);
    }
  }

  /** The listing shows each task once, and lower statuses of `STATUS_ORDER` first. */
  lemma ListingGroupsByStatus(tasks: seq<Task>, i: nat, j: nat)
    requires i < j < |SortTasks(tasks)|
    ensures multiset(SortTasks(tasks)) == multiset(tasks)
    ensures OrderIndex(SortTasks(tasks)[i].frontmatter.status) <= OrderIndex(SortTasks(tasks)[j].frontmatter.status)
  {
    SortKeepsTasks(tasks);
    SortedEverywhere(SortTasks(tasks), i, j);
  }

  // ----- the waiting note -----

  /** The dependencies that exist and are not closed, in `depends_on` order. */
  function OpenDependencies(deps: seq<string>, taskMap: map<string, Task>): (r: seq<string>)
    ensures |r| <= |deps|
    decreases |deps|
  {
    if deps == [] then []
    else
      var rest := OpenDependencies(deps[1..], taskMap);
      var d := deps[0];
      if d in taskMap && taskMap[d].frontmatter.status != Closed then [d] + rest else rest
  }

  /**
   * The waiting list holds exactly the dependencies that exist and are not
   * closed, and it is empty exactly when every known dependency is closed.
   */
  lemma {:induction false} OpenDependenciesMembers(deps: seq<string>, taskMap: map<string, Task>)
    ensures forall d :: d in OpenDependencies(deps, taskMap) <==> d in deps && d in taskMap && taskMap[d].frontmatter.status != Closed
    ensures OpenDependencies(deps, taskMap) == [] <==> forall d :: d in deps && d in taskMap ==> taskMap[d].frontmatter.status == Closed
    decreases |deps|
  {
    if deps != [] {
      OpenDependenciesMembers(deps[1..], taskMap);
      assert forall x :: x in deps <==> x == deps[0] || x in deps[1..];
    }
  }

  /**
   * The filter keeps `depends_on` order: the open dependencies of a
   * concatenation are those of each part, in turn.
   */
  lemma {:induction false} OpenDependenciesInOrder(a: seq<string>, b: seq<string>, taskMap: map<string, Task>)
    ensures OpenDependencies(a + b, taskMap) == OpenDependencies(a, taskMap) + OpenDependencies(b, taskMap)
    decreases |a|
  {
    if a == [] {
      assert a + b == b;
    } else {
      var d, t := a[0], a[1..];
      var first, ra, rb := OpenDependencies([d], taskMap), OpenDependencies(t, taskMap), OpenDependencies(b, taskMap);
      assert OpenDependencies(a, taskMap) == first + ra by {
        assert a == [d] + t;
        OpenDependenciesCons(d, t, taskMap);
      }
      assert OpenDependencies(a + b, taskMap) == first + (ra + rb) by {
        assert a + b == [d] + (t + b);
        OpenDependenciesCons(d, t + b, taskMap);
        OpenDependenciesInOrder(t, b, taskMap);
      }
      assert first + (ra + rb) == (first + ra) + rb;
    }
  }

  /** One step of the filter: the head's verdict, then the rest. */
  lemma OpenDependenciesCons(d: string, rest: seq<string>, taskMap: map<string, Task>)
    ensures OpenDependencies([d] + rest, taskMap) == OpenDependencies([d], taskMap) + OpenDependencies(rest, taskMap)
  {
    assert ([d] + rest)[1..] == rest && ([d] + rest)[0] == d;
    assert [d][1..] == [];
  }

  /** A single id is kept exactly when it names an existing task that is not closed. */
  lemma OpenDependencyOfOne(d: string, taskMap: map<string, Task>)
    ensures OpenDependencies([d], taskMap) == if d in taskMap && taskMap[d].frontmatter.status != Closed then [d] else []
  {
    assert [d][1..] == [];
    assert OpenDependencies([], taskMap) == [];
  }

  /** The ids a task's `(waiting: …)` note lists: only a `todo` task with dependencies has one. */
  function Unresolved(fm: TaskFrontmatter, taskMap: map<string, Task>): seq<string> {
    if |fm.dependsOn| > 0 && fm.status == Todo then OpenDependencies(fm.dependsOn, taskMap) else []
  }

  /** The note text, empty when nothing is waited for. */
  function WaitingNote(fm: TaskFrontmatter, taskMap: map<string, Task>): string {
    var unresolved := Unresolved(fm, taskMap);
    if |unresolved| > 0 then " (waiting: " + Join(unresolved, ",") + ")" else ""
  }

  /**
   * A task waits on exactly its dependencies that are listed and not closed,
   * and only while it is `todo`; unknown ids are never waited on.
   */
  lemma WaitingOnlyOnOpenDependencies(fm: TaskFrontmatter, taskMap: map<string, Task>, d: string)
    ensures d in Unresolved(fm, taskMap) <==>
      fm.status == Todo && d in fm.dependsOn && d in taskMap && taskMap[d].frontmatter.status != Closed
    ensures d in Unresolved(fm, taskMap) ==> Contains(WaitingNote(fm, taskMap), d)
  {
    OpenDependenciesMembers(fm.dependsOn, taskMap);
    var u := Unresolved(fm, taskMap);
    if d in u {
      var k :| 0 <= k < |u| && u[k] == d;
      JoinContains(u, ",", k);
      ContainsPrefixed(" (waiting: ", Join(u, ","), d);
      ContainsSuffixed(" (waiting: " + Join(u, ","), ")", d);
    }
  }

  /** When every dependency is closed or unknown, there is no note. */
  lemma NoNoteWhenDependenciesDone(fm: TaskFrontmatter, taskMap: map<string, Task>)
    requires forall d :: d in fm.dependsOn && d in taskMap ==> taskMap[d].frontmatter.status == Closed
    ensures Unresolved(fm, taskMap) == [] && WaitingNote(fm, taskMap) == ""
  {
    OpenDependenciesMembers(fm.dependsOn, taskMap);
  }
}
