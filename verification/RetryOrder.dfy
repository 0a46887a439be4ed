/** The retries of a batch in launch and dependency order.
  *
  * `RetryBatches` first walks the recorded retries depth-first to reject a cycle, then lists
  * the descendants by repeatedly taking the first of the available ones, ordered by launch
  * time and name. */
module RetryOrder {
  import opened TextOrder
  import opened Wrappers

  type Name = string

  /** A recorded batch: first claiming launch time (or ""), name, and the batch it retries. */
  datatype Planned = Planned(at: string, name: Name, retryOf: Option<Name>)

  // ---- The order (launch time, name) ----

  predicate Before(a: Planned, b: Planned) {
    TextLess(a.at, b.at) || (a.at == b.at && TextLess(a.name, b.name))
  }

  lemma BeforeTotal(a: Planned, b: Planned)
    ensures Before(a, b) || Before(b, a) || (a.at == b.at && a.name == b.name)
    ensures !(Before(a, b) && Before(b, a))
  {
    TextLessTotal(a.at, b.at);
    TextLessTotal(a.name, b.name);
  }

  lemma BeforeTransitive(a: Planned, b: Planned, c: Planned)
    requires Before(a, b) && Before(b, c)
    ensures Before(a, c)
  {
    if TextLess(a.at, b.at) && TextLess(b.at, c.at) {
      TextLessTransitive(a.at, b.at, c.at);
    } else if a.at == b.at == c.at {
      TextLessTransitive(a.name, b.name, c.name);
    }
  }

  lemma NotBeforeTransitive(p: Planned, x: Planned, q: Planned)
    requires !Before(x, p) && !Before(q, x)
    ensures !Before(q, p)
  {
    BeforeTotal(q, x);
    if Before(q, p) && Before(x, q) {
      BeforeTransitive(x, q, p);
    }
  }

  ghost predicate Sorted(s: seq<Planned>) {
    forall i, j :: 0 <= i < j < |s| ==> !Before(s[j], s[i])
  }

  lemma InsertedAfter(p: Planned, s: seq<Planned>, rest: seq<Planned>)
    requires s != [] && Sorted(s) && Before(s[0], p)
    requires Sorted(rest) && multiset(rest) == multiset(s[1..]) + multiset{p}
    ensures Sorted([s[0]] + rest)
  {
    forall q | q in rest ensures !Before(q, s[0]) {
      assert q in multiset(rest);
      assert q == p || q in s[1..];
      BeforeTotal(s[0], p);
    }
  }

  lemma InsertedFirst(p: Planned, s: seq<Planned>)
    requires s != [] && Sorted(s) && !Before(s[0], p)
    ensures Sorted([p] + s)
  {
    forall q | q in s ensures !Before(q, p) {
      BeforeTotal(s[0], s[0]);
      NotBeforeTransitive(p, s[0], q);
    }
  }

  function Insert(p: Planned, s: seq<Planned>): (r: seq<Planned>)
    requires Sorted(s)
    ensures Sorted(r) && multiset(r) == multiset(s) + multiset{p}
  {
    if s == [] then [p]
    else if Before(s[0], p) then
      var rest := Insert(p, s[1..]);
      assert s == [s[0]] + s[1..];
      InsertedAfter(p, s, rest);
      [s[0]] + rest
    else
      InsertedFirst(p, s);
      [p] + s
  }

  function Sort(s: seq<Planned>): (r: seq<Planned>)
    ensures Sorted(r) && multiset(r) == multiset(s)
  {
    if s == [] then []
    else
      assert s == [s[0]] + s[1..];
      Insert(s[0], Sort(s[1..]))
  }

  // ---- The relation ----

  ghost predicate Link(records: seq<Planned>, parent: Name, child: Name) {
    exists r :: r in records && r.retryOf == Some(parent) && r.name == child
  }

  ghost predicate Walk(records: seq<Planned>, walk: seq<Name>, root: Name) {
    walk != [] && walk[0] == root && forall i :: 0 <= i < |walk| - 1 ==> Link(records, walk[i], walk[i + 1])
  }

  /** Some chain of retries that starts at `root` comes back to a batch it already passed. */
  ghost predicate ReachesCycle(records: seq<Planned>, root: Name) {
    exists walk, i, j :: Walk(records, walk, root) && 0 <= i < j < |walk| && walk[i] == walk[j]
  }

  ghost predicate StrictDescendant(records: seq<Planned>, root: Name, r: Planned) {
    && r in records
    && exists walk ::
         && Walk(records, walk, root)
         && |walk| >= 2
         && walk[|walk| - 1] == r.name
         && r.retryOf == Some(walk[|walk| - 2])
  }

  ghost predicate HasParentIn(r: Planned, root: Name, done: seq<Planned>) {
    r.retryOf == Some(root) || exists d :: d in done && r.retryOf == Some(d.name)
  }

  /** The attempts that can come next once `done` is listed. */
  ghost predicate Available(records: seq<Planned>, root: Name, done: seq<Planned>, r: Planned) {
    r in records && r !in done && HasParentIn(r, root, done)
  }

  /** Each listed attempt is available when its turn comes, none of the others available then
    * comes before it, and nothing available is left out. */
  ghost predicate IsRetryOrder(records: seq<Planned>, root: Name, listed: seq<Planned>) {
    && (forall k :: 0 <= k < |listed| ==>
          && Available(records, root, listed[..k], listed[k])
          && forall r :: Available(records, root, listed[..k], r) ==> !Before(r, listed[k]))
    && forall r :: !Available(records, root, listed, r)
  }

  ghost predicate OneParentEach(records: seq<Planned>) {
    forall r, q :: r in records && q in records && r.name == q.name ==> r == q
  }

  lemma AvailableAt(records: seq<Planned>, root: Name, listed: seq<Planned>, k: nat)
    requires IsRetryOrder(records, root, listed)
    ensures k < |listed| ==> Available(records, root, listed[..k], listed[k])
    ensures k < |listed| ==> listed[..k + 1] == listed[..k] + [listed[k]]
    ensures k == |listed| ==> listed[..k] == listed && forall r :: !Available(records, root, listed, r)
  {
  }

  lemma SameChoice(records: seq<Planned>, root: Name, a: seq<Planned>, b: seq<Planned>, k: nat)
    requires OneParentEach(records) && IsRetryOrder(records, root, a) && IsRetryOrder(records, root, b)
    requires k < |a| && k < |b| && a[..k] == b[..k]
    ensures a[k] == b[k]
  {
    AvailableAt(records, root, a, k);
    AvailableAt(records, root, b, k);
    BeforeTotal(a[k], b[k]);
  }

  /** The order is unique. */
  lemma {:induction false} RetryOrderUnique(records: seq<Planned>, root: Name, a: seq<Planned>, b: seq<Planned>, k: nat)
    requires OneParentEach(records) && IsRetryOrder(records, root, a) && IsRetryOrder(records, root, b)
    requires k <= |a|
    ensures k <= |b| && a[..k] == b[..k]
    ensures k == |a| ==> a == b
  {
    hide OneParentEach, IsRetryOrder, Available;
    AvailableAt(records, root, a, k);
    if k > 0 {
      RetryOrderUnique(records, root, a, b, k - 1);
      AvailableAt(records, root, a, k - 1);
      AvailableAt(records, root, b, k - 1);
      SameChoice(records, root, a, b, k - 1);
    }
    AvailableAt(records, root, b, k);
  }

  lemma WalkExtends(records: seq<Planned>, root: Name, walk: seq<Name>, r: Planned)
    requires Walk(records, walk, root) && r in records && r.retryOf == Some(walk[|walk| - 1])
    ensures Walk(records, walk + [r.name], root)
    ensures StrictDescendant(records, root, r)
  {
    var longer := walk + [r.name];
    forall i | 0 <= i < |longer| - 1 ensures Link(records, longer[i], longer[i + 1]) {
    }
    assert longer[|longer| - 2] == walk[|walk| - 1];
  }

  lemma {:induction false} ListedAreDescendants(records: seq<Planned>, root: Name, listed: seq<Planned>, k: nat)
    requires k < |listed|
    requires forall i :: 0 <= i < |listed| ==> Available(records, root, listed[..i], listed[i])
    ensures StrictDescendant(records, root, listed[k])
  {
    var r := listed[k];
    assert Available(records, root, listed[..k], r);
    if r.retryOf == Some(root) {
      WalkExtends(records, root, [root], r);
    } else {
      var d :| d in listed[..k] && r.retryOf == Some(d.name);
      var i :| 0 <= i < k && listed[i] == d;
      ListedAreDescendants(records, root, listed, i);
      var walk :| Walk(records, walk, root) && walk[|walk| - 1] == d.name;
      WalkExtends(records, root, walk, r);
    }
  }

  lemma {:induction false} DescendantsAreListed(
    records: seq<Planned>, root: Name, listed: seq<Planned>, walk: seq<Name>)
    requires IsRetryOrder(records, root, listed) && OneParentEach(records) && Walk(records, walk, root)
    ensures walk[|walk| - 1] == root || exists r :: r in listed && r.name == walk[|walk| - 1]
  {
    if |walk| > 1 {
      var shorter := walk[..|walk| - 1];
      DescendantsAreListed(records, root, listed, shorter);
      var parent := shorter[|shorter| - 1];
      assert Link(records, walk[|walk| - 2], walk[|walk| - 1]);
      var r :| r in records && r.retryOf == Some(parent) && r.name == walk[|walk| - 1];
      assert HasParentIn(r, root, listed);
      assert !Available(records, root, listed, r);
    }
  }

  /** Any list with the three local properties holds exactly the strict descendants, each once,
    * every parent before its children. */
  lemma RetryOrderIsComplete(records: seq<Planned>, root: Name, listed: seq<Planned>)
    requires OneParentEach(records) && IsRetryOrder(records, root, listed)
    ensures NoDuplicates(listed)
    ensures forall r :: r in listed <==> StrictDescendant(records, root, r)
    ensures forall k :: 0 <= k < |listed| ==> HasParentIn(listed[k], root, listed[..k])
  {
    forall i, j | 0 <= i < j < |listed| ensures listed[i] != listed[j] {
      assert Available(records, root, listed[..j], listed[j]);
      assert listed[i] == listed[..j][i];
    }
    forall r | r in listed ensures StrictDescendant(records, root, r) {
      var k :| 0 <= k < |listed| && listed[k] == r;
      ListedAreDescendants(records, root, listed, k);
    }
    forall r | StrictDescendant(records, root, r) ensures r in listed {
      var walk :| Walk(records, walk, root) && walk[|walk| - 1] == r.name && |walk| >= 2
                  && r.retryOf == Some(walk[|walk| - 2]);
      var shorter := walk[..|walk| - 1];
      DescendantsAreListed(records, root, listed, shorter);
      assert HasParentIn(r, root, listed);
      assert !Available(records, root, listed, r);
    }
  }

  // ---- The cycle check ----

  function ChildrenOf(children: map<Name, seq<Planned>>, parent: Name): seq<Planned> {
    if parent in children then children[parent] else []
  }

  /** `kids` lists the retries of `parent`, each once. */
  ghost predicate ListsRetries(kids: seq<Planned>, records: seq<Planned>, parent: Name) {
    NoDuplicates(kids) && forall r :: r in kids <==> r in records && r.retryOf == Some(parent)
  }

  ghost predicate Indexes(children: map<Name, seq<Planned>>, records: seq<Planned>) {
    forall parent :: ListsRetries(ChildrenOf(children, parent), records, parent)
  }

  /** Every name that a walk from `root` can meet. */
  ghost function Names(records: seq<Planned>, root: Name): set<Name> {
    {root} + set r | r in records :: r.name
  }

  /** Depth-first search with the batches on the current path and those already cleared. */
  class CycleCheck {
    ghost const records: seq<Planned>
    ghost const root: Name
    const children: map<Name, seq<Planned>>
    var active: set<Name>
    var visited: set<Name>
    ghost var path: seq<Name>       // the active batches from the root down
    ghost var finished: seq<Name>   // the cleared batches, children first

    constructor (ghost records: seq<Planned>, ghost root: Name, children: map<Name, seq<Planned>>)
      requires Indexes(children, records)
      ensures Valid() && path == [] && fresh(this)
      ensures this.records == records && this.root == root && this.children == children
    {
      this.records, this.root, this.children := records, root, children;
      active, visited, path, finished := {}, {}, [], [];
    }

    ghost predicate Valid()
      reads this
    {
      Indexes(children, records) && Searching(records, root, active, visited, path, finished)
    }

    method Check(parent: Name) returns (acyclic: bool)
      requires Valid() && Comes(records, root, path, parent)
      modifies this
      ensures acyclic ==> Valid() && path == old(path) && active == old(active)
      ensures acyclic ==> parent in visited && old(visited) <= visited
      ensures !acyclic ==> ReachesCycle(records, root)
      decreases Names(records, root) - active
    {
      hide Indexes, Searching, Comes, Names, ReachesCycle, ChildrenOf;
      if parent in active {
        BackEdge(records, root, active, visited, path, finished, parent);
        return false;
      }
      if parent in visited {
        return true;
      }
      Enter(records, root, active, visited, path, finished, parent);
      active := active + {parent};
      path := path + [parent];
      ghost var entered := path;
      var below := ChildrenOf(children, parent);
      for k := 0 to |below|
        invariant Valid() && path == entered && active == old(active) + {parent} && old(visited) <= visited
        invariant forall i :: 0 <= i < k ==> below[i].name in visited
      {
        ChildComes(records, root, children, path, parent, k);
        var fine := Check(below[k].name);
        if !fine {
          return false;
        }
      }
      Leave(records, root, children, active, visited, path, finished, parent);
      active := active - {parent};
      path := path[..|path| - 1];
      visited := visited + {parent};
      finished := finished + [parent];
      return true;
    }
  }

  /** The search's sets are those of its path and of its cleared batches, the path walks down
    * from the root, and the children of every cleared batch were cleared before it. */
  ghost predicate Searching(records: seq<Planned>, root: Name, active: set<Name>, visited: set<Name>,
                            path: seq<Name>, finished: seq<Name>) {
    && (forall n :: n in active <==> n in path)
    && (forall n :: n in visited <==> n in finished)
    && active <= Names(records, root)
    && (path != [] ==> Walk(records, path, root))
    && ChildrenFirst(records, finished)
  }

  ghost predicate Comes(records: seq<Planned>, root: Name, path: seq<Name>, parent: Name) {
    if path == [] then parent == root else Link(records, path[|path| - 1], parent)
  }

  lemma Enter(records: seq<Planned>, root: Name, active: set<Name>, visited: set<Name>,
              path: seq<Name>, finished: seq<Name>, parent: Name)
    requires Searching(records, root, active, visited, path, finished)
    requires Comes(records, root, path, parent) && parent !in active
    ensures Searching(records, root, active + {parent}, visited, path + [parent], finished)
    ensures Names(records, root) - (active + {parent}) < Names(records, root) - active
    ensures (active + {parent}) - {parent} == active && (path + [parent])[..|path|] == path && parent !in path
  {
    hide ChildrenFirst, Link;
    assert parent in Names(records, root) by {
      if path != [] {
        LinkNames(records, root, path[|path| - 1], parent);
      }
    }
  }

  lemma LinkNames(records: seq<Planned>, root: Name, parent: Name, child: Name)
    requires Link(records, parent, child)
    ensures child in Names(records, root)
  {
  }

  lemma ChildComes(records: seq<Planned>, root: Name, children: map<Name, seq<Planned>>, path: seq<Name>,
                   parent: Name, k: nat)
    requires Indexes(children, records) && path != [] && path[|path| - 1] == parent
    requires k < |ChildrenOf(children, parent)|
    ensures Comes(records, root, path, ChildrenOf(children, parent)[k].name)
  {
    assert ChildrenOf(children, parent)[k] in ChildrenOf(children, parent);
  }

  lemma Leave(records: seq<Planned>, root: Name, children: map<Name, seq<Planned>>, active: set<Name>,
              visited: set<Name>, path: seq<Name>, finished: seq<Name>, parent: Name)
    requires Indexes(children, records) && Searching(records, root, active, visited, path, finished)
    requires path != [] && path[|path| - 1] == parent && parent !in path[..|path| - 1]
    requires forall i :: 0 <= i < |ChildrenOf(children, parent)| ==> ChildrenOf(children, parent)[i].name in visited
    ensures Searching(records, root, active - {parent}, visited + {parent}, path[..|path| - 1], finished + [parent])
  {
    forall child | Link(records, parent, child) ensures child in finished {
      var r :| r in records && r.retryOf == Some(parent) && r.name == child;
      assert r in ChildrenOf(children, parent);
    }
    ChildrenFirstGrows(records, finished, parent);
    hide ChildrenFirst, Link;
    assert path == path[..|path| - 1] + [parent];
  }

  /** Children come earlier. */
  ghost predicate ChildrenFirst(records: seq<Planned>, finished: seq<Name>) {
    forall i, child :: 0 <= i < |finished| && Link(records, finished[i], child) ==> child in finished[..i]
  }

  lemma BackEdge(records: seq<Planned>, root: Name, active: set<Name>, visited: set<Name>,
                 path: seq<Name>, finished: seq<Name>, parent: Name)
    requires Searching(records, root, active, visited, path, finished)
    requires Comes(records, root, path, parent) && parent in active
    ensures ReachesCycle(records, root)
  {
    var i :| 0 <= i < |path| && path[i] == parent;
    var walk := path + [parent];
    assert Walk(records, walk, root) && walk[i] == walk[|path|];
  }

  lemma ChildrenFirstGrows(records: seq<Planned>, finished: seq<Name>, parent: Name)
    requires ChildrenFirst(records, finished) && forall child :: Link(records, parent, child) ==> child in finished
    ensures ChildrenFirst(records, finished + [parent])
  {
    var longer := finished + [parent];
    forall i, child | 0 <= i < |longer| && Link(records, longer[i], child) ensures child in longer[..i] {
      assert longer[..i] == finished[..i];
      if i == |finished| {
        assert finished[..i] == finished;
      }
    }
  }

  lemma {:induction false} WalksDescend(
    records: seq<Planned>, finished: seq<Name>, walk: seq<Name>, i: nat, j: nat, at: nat)
    requires ChildrenFirst(records, finished)
    requires i <= j < |walk| && forall k :: 0 <= k < |walk| - 1 ==> Link(records, walk[k], walk[k + 1])
    requires at < |finished| && finished[at] == walk[i]
    ensures exists to :: 0 <= to <= at && finished[to] == walk[j] && (i < j ==> to < at)
    decreases j - i
  {
    if i < j {
      assert Link(records, finished[at], walk[i + 1]);
      var next: nat :| next < at && finished[..at][next] == walk[i + 1];
      WalksDescend(records, finished, walk, i + 1, j, next);
    }
  }

  lemma ClearedRootReachesNoCycle(records: seq<Planned>, finished: seq<Name>, root: Name)
    requires ChildrenFirst(records, finished) && root in finished
    ensures !ReachesCycle(records, root)
  {
    if ReachesCycle(records, root) {
      var walk, i, j :| Walk(records, walk, root) && 0 <= i < j < |walk| && walk[i] == walk[j];
      var at: nat :| at < |finished| && finished[at] == root;
      WalksDescend(records, finished, walk, 0, i, at);
      var first :| 0 <= first <= at && finished[first] == walk[i];
      Endless(records, finished, walk, i, j, first);
    }
  }

  /** Going round a cycle would find ever smaller positions of one batch. */
  lemma {:induction false} Endless(records: seq<Planned>, finished: seq<Name>, walk: seq<Name>, i: nat, j: nat, at: nat)
    requires ChildrenFirst(records, finished)
    requires i < j < |walk| && forall k :: 0 <= k < |walk| - 1 ==> Link(records, walk[k], walk[k + 1])
    requires walk[i] == walk[j] && at < |finished| && finished[at] == walk[i]
    ensures false
    decreases at
  {
    WalksDescend(records, finished, walk, i, j, at);
    var to :| 0 <= to < at && finished[to] == walk[j];
    Endless(records, finished, walk, i, j, to);
  }

  // ---- The listing ----

  lemma ListOne(kids: seq<Planned>, records: seq<Planned>, parent: Name, r: Planned)
    requires ListsRetries(kids, records, parent) && r !in records
    ensures ListsRetries(if r.retryOf == Some(parent) then kids + [r] else kids, records + [r], parent)
  {
    if r.retryOf == Some(parent) {
      JoinDistinct(kids, [r]);
    }
  }

  lemma IndexOne(children: map<Name, seq<Planned>>, records: seq<Planned>, r: Planned)
    requires Indexes(children, records) && r !in records
    ensures Indexes(
      if r.retryOf.None? then children
      else children[r.retryOf.value := ChildrenOf(children, r.retryOf.value) + [r]],
      records + [r])
  {
    hide ListsRetries;
    var grown := if r.retryOf.None? then children
      else children[r.retryOf.value := ChildrenOf(children, r.retryOf.value) + [r]];
    forall parent ensures ListsRetries(ChildrenOf(grown, parent), records + [r], parent) {
      ListOne(ChildrenOf(children, parent), records, parent, r);
    }
  }

  method IndexChildren(records: seq<Planned>) returns (children: map<Name, seq<Planned>>)
    requires NoDuplicates(records)
    ensures Indexes(children, records)
  {
    children := map[];
    for k := 0 to |records|
      invariant Indexes(children, records[..k])
    {
      var r := records[k];
      assert records[..k + 1] == records[..k] + [r];
      IndexOne(children, records[..k], r);
      hide Indexes, ChildrenOf;
      if r.retryOf.Some? {
        children := children[r.retryOf.value := ChildrenOf(children, r.retryOf.value) + [r]];
      }
    }
    assert records[..|records|] == records;
  }

  lemma WalksAreSimple(records: seq<Planned>, root: Name, walk: seq<Name>)
    requires !ReachesCycle(records, root) && Walk(records, walk, root)
    ensures NoDuplicates(walk)
  {
  }

  /** A child of the attempt just listed can be neither listed nor waiting already. */
  lemma NewChildrenAreNew(records: seq<Planned>, root: Name, listed: seq<Planned>, c: Planned, kid: Planned)
    requires OneParentEach(records) && !ReachesCycle(records, root)
    requires forall i :: 0 <= i < |listed| ==> Available(records, root, listed[..i], listed[i])
    requires Available(records, root, listed, c)
    requires kid in records && kid.retryOf == Some(c.name)
    ensures kid != c && kid !in listed && !HasParentIn(kid, root, listed)
  {
    var longer := listed + [c];
    forall i | 0 <= i < |longer| ensures Available(records, root, longer[..i], longer[i]) {
      assert longer[..i] == listed[..i];
    }
    ListedAreDescendants(records, root, longer, |listed|);
    var walk :| Walk(records, walk, root) && walk[|walk| - 1] == c.name && |walk| >= 2;
    WalkExtends(records, root, walk, kid);
    WalksAreSimple(records, root, walk);
    WalksAreSimple(records, root, walk + [kid.name]);
    assert c.name != root;
    assert kid.name != c.name by {
      assert (walk + [kid.name])[|walk| - 1] == c.name && (walk + [kid.name])[|walk|] == kid.name;
    }
    forall d | d in listed ensures d.name != c.name {
      ListedInRecords(records, root, listed, d);
    }
    forall k | 0 <= k < |listed| ensures listed[k] != kid {
      assert Available(records, root, listed[..k], listed[k]);
      assert HasParentIn(listed[k], root, listed);
    }
  }

  lemma ListedInRecords(records: seq<Planned>, root: Name, listed: seq<Planned>, d: Planned)
    requires forall i :: 0 <= i < |listed| ==> Available(records, root, listed[..i], listed[i])
    requires d in listed
    ensures d in records
  {
    var k :| 0 <= k < |listed| && listed[k] == d;
    assert Available(records, root, listed[..k], listed[k]);
  }

  /** The retries of `root`, or `None` for the rejection of a cycle. */
  method RetryBatches(records: seq<Planned>, root: Name) returns (result: Option<seq<Planned>>)
    requires NoDuplicates(records) && OneParentEach(records)
    ensures result.None? <==> ReachesCycle(records, root)
    ensures result.Some? ==> IsRetryOrder(records, root, result.value)
  {
    hide IsRetryOrder, OneParentEach, Indexes;
    var children := IndexChildren(records);
    var check := new CycleCheck(records, root, children);
    var acyclic := check.Check(root);
    if !acyclic {
      return None;
    }
    ClearedRootReachesNoCycle(records, check.finished, root);
    var listed := ListDescendants(records, root, children);
    return Some(listed);
  }

  method ListDescendants(records: seq<Planned>, root: Name, children: map<Name, seq<Planned>>)
    returns (listed: seq<Planned>)
    requires OneParentEach(records) && Indexes(children, records) && !ReachesCycle(records, root)
    ensures IsRetryOrder(records, root, listed)
  {
    var ready := ChildrenOf(children, root);
    listed := [];
    assert Chosen(records, root, listed) && Waiting(records, root, listed, ready);
    hide *;
    while ready != []
      invariant Waiting(records, root, listed, ready) && Chosen(records, root, listed)
      decreases Unlisted(records, listed)
    {
      SortKeepsWaiting(records, root, listed, ready);
      ready := Sort(ready);
      var c := ready[0];
      ListNext(records, root, listed, ready, children);
      listed := listed + [c];
      ready := ready[1..] + ChildrenOf(children, c.name);
    }
    ChosenIsOrder(records, root, listed);
  }

  /** The worklist holds exactly the available attempts, each once. */
  ghost predicate Waiting(records: seq<Planned>, root: Name, listed: seq<Planned>, ready: seq<Planned>) {
    NoDuplicates(ready) && forall r :: r in ready <==> Available(records, root, listed, r)
  }

  lemma ChosenIsOrder(records: seq<Planned>, root: Name, listed: seq<Planned>)
    requires Chosen(records, root, listed) && Waiting(records, root, listed, [])
    ensures IsRetryOrder(records, root, listed)
  {
  }

  ghost function Unlisted(records: seq<Planned>, listed: seq<Planned>): set<Planned> {
    set r | r in records && r !in listed
  }

  lemma FewerUnlisted(records: seq<Planned>, root: Name, listed: seq<Planned>, c: Planned)
    requires Available(records, root, listed, c)
    ensures Unlisted(records, listed + [c]) < Unlisted(records, listed)
  {
    assert c in Unlisted(records, listed) && c !in Unlisted(records, listed + [c]);
  }

  /** Every attempt so far was available, and first among the available ones, in its turn. */
  ghost predicate Chosen(records: seq<Planned>, root: Name, listed: seq<Planned>) {
    forall k :: 0 <= k < |listed| ==>
      && Available(records, root, listed[..k], listed[k])
      && forall r :: Available(records, root, listed[..k], r) ==> !Before(r, listed[k])
  }

  lemma SortKeeps(s: seq<Planned>)
    requires NoDuplicates(s)
    ensures NoDuplicates(Sort(s)) && Sorted(Sort(s)) && |Sort(s)| == |s| && forall r :: r in s <==> r in Sort(s)
  {
    DistinctCounts(s);
    assert forall r :: r in s <==> r in multiset(s);
    assert forall r :: r in Sort(s) <==> r in multiset(Sort(s));
    assert |multiset(s)| == |multiset(Sort(s))|;
    CountsDistinct(Sort(s));
  }

  lemma SortKeepsWaiting(records: seq<Planned>, root: Name, listed: seq<Planned>, ready: seq<Planned>)
    requires Waiting(records, root, listed, ready)
    ensures Waiting(records, root, listed, Sort(ready)) && Sorted(Sort(ready)) && |Sort(ready)| == |ready|
  {
    hide Available, Sorted;
    SortKeeps(ready);
  }

  lemma {:induction false} DistinctCounts(s: seq<Planned>)
    requires NoDuplicates(s)
    ensures forall r :: multiset(s)[r] <= 1
  {
    if s != [] {
      assert s == [s[0]] + s[1..];
      DistinctCounts(s[1..]);
      assert s[0] !in s[1..];
    }
  }

  lemma CountsDistinct(s: seq<Planned>)
    requires forall r :: multiset(s)[r] <= 1
    ensures NoDuplicates(s)
  {
    forall i, j | 0 <= i < j < |s| ensures s[i] != s[j] {
      var rest := s[..i] + s[i + 1..];
      assert s == s[..i] + [s[i]] + s[i + 1..];
      assert multiset(s) == multiset(rest) + multiset{s[i]};
      assert rest[j - 1] == s[j];
      assert s[j] in multiset(rest) && multiset(s)[s[i]] == multiset(rest)[s[i]] + 1;
    }
  }

  /** Listing the first waiting attempt leaves exactly the available ones waiting. */
  lemma ListNext(records: seq<Planned>, root: Name, listed: seq<Planned>, ready: seq<Planned>,
                 children: map<Name, seq<Planned>>)
    requires OneParentEach(records) && !ReachesCycle(records, root) && Indexes(children, records)
    requires Chosen(records, root, listed) && Waiting(records, root, listed, ready)
    requires ready != [] && Sorted(ready)
    ensures Chosen(records, root, listed + [ready[0]])
    ensures Waiting(records, root, listed + [ready[0]], ready[1..] + ChildrenOf(children, ready[0].name))
    ensures Unlisted(records, listed + [ready[0]]) < Unlisted(records, listed)
  {
    assert ready[0] in ready;
    FewerUnlisted(records, root, listed, ready[0]);
    ListFirst(records, root, listed, ready, ChildrenOf(children, ready[0].name));
  }

  lemma ListFirst(records: seq<Planned>, root: Name, listed: seq<Planned>, ready: seq<Planned>, kids: seq<Planned>)
    requires OneParentEach(records) && !ReachesCycle(records, root)
    requires Chosen(records, root, listed)
    requires ready != [] && NoDuplicates(ready) && Sorted(ready)
    requires forall r :: r in ready <==> Available(records, root, listed, r)
    requires NoDuplicates(kids) && forall r :: r in kids <==> r in records && r.retryOf == Some(ready[0].name)
    ensures Chosen(records, root, listed + [ready[0]])
    ensures NoDuplicates(ready[1..] + kids)
    ensures forall r :: r in ready[1..] + kids <==> Available(records, root, listed + [ready[0]], r)
  {
    var c := ready[0];
    var longer := listed + [c];
    assert ready == [c] + ready[1..];
    forall k | 0 <= k < |longer| ensures
      && Available(records, root, longer[..k], longer[k])
      && forall r :: Available(records, root, longer[..k], r) ==> !Before(r, longer[k])
    {
      assert longer[..k] == listed[..k];
      if k == |listed| {
        assert listed[..k] == listed;
        assert c in ready;
        BeforeTotal(c, c);
      }
    }
    forall kid | kid in kids ensures kid != c && kid !in listed && !HasParentIn(kid, root, listed) {
      assert c in ready;
      NewChildrenAreNew(records, root, listed, c, kid);
    }
    forall r ensures r in ready[1..] + kids <==> Available(records, root, longer, r) {
      assert HasParentIn(r, root, longer) <==> HasParentIn(r, root, listed) || r.retryOf == Some(c.name);
      assert r in ready <==> r == c || r in ready[1..];
    }
    assert c !in ready[1..];
    forall kid | kid in kids ensures kid !in ready {
      assert !Available(records, root, listed, kid);
    }
    JoinDistinct(ready[1..], kids);
  }

  lemma JoinDistinct(a: seq<Planned>, b: seq<Planned>)
    requires NoDuplicates(a) && NoDuplicates(b) && forall r :: r in b ==> r !in a
    ensures NoDuplicates(a + b)
  {
    var joined := a + b;
    forall i, j | 0 <= i < j < |joined| ensures joined[i] != joined[j] {
      if i < |a| <= j {
        assert joined[i] == a[i] && a[i] in a && joined[j] == b[j - |a|] && b[j - |a|] in b;
      } else if |a| <= i {
        assert joined[i] == b[i - |a|] && joined[j] == b[j - |a|];
      }
    }
  }
}
