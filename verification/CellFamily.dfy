/** The cell of a batch: everything that retries and replacements connect to it.
  *
  * A recorded batch cites at most one parent, through `retry_of` or `replaces`.
  * `CellModelFamily` walks those citations in both directions with a work list and
  * then follows every parent chain looking for a cycle. It is proved here against
  * a definition that knows nothing of work lists: connection by a walk of
  * citations, and parent chains as iterated ancestors. */
module CellFamily {
  import opened Wrappers

  type Name = string

  /** The JSON value found under a relation key: absent, a string, or anything else. */
  datatype Field = Unset | Text(batch: Name) | Malformed

  /** A record's `spec`; `NotAnObject` is a record whose spec is null or not an object. */
  datatype Spec = NotAnObject | Readable(retryOf: Field, replacing: Field)

  type Specs = map<Name, Spec>

  datatype Error =
    | MissingRecord(member: Name)
    | UnreadableSpec(member: Name)
    | BothRelations(member: Name)
    | InvalidReplaces(member: Name)
    | InvalidRetry(member: Name)
    | SelfRelation(member: Name)
    | Cycle(member: Name)

  /** The parent a member's own spec names, or the reason the spec is refused. */
  function ParentOf(member: Name, spec: Spec): Result<Option<Name>, Error> {
    if spec.NotAnObject? then Failure(UnreadableSpec(member))
    else if spec.retryOf != Unset && spec.replacing != Unset then Failure(BothRelations(member))
    else if spec.replacing != Unset && (spec.replacing.Malformed? || spec.replacing.batch == "") then
      Failure(InvalidReplaces(member))
    else if spec.retryOf != Unset && (spec.retryOf.Malformed? || spec.retryOf.batch == "") then
      Failure(InvalidRetry(member))
    else
      var parent := if spec.replacing != Unset then Some(spec.replacing.batch)
                    else if spec.retryOf != Unset then Some(spec.retryOf.batch) else None;
      if parent == Some(member) then Failure(SelfRelation(member)) else Success(parent)
  }

  /** The outcome of looking one member up and reading its parent. */
  function Lookup(specs: Specs, member: Name): Result<Option<Name>, Error> {
    if member in specs then ParentOf(member, specs[member]) else Failure(MissingRecord(member))
  }

  predicate Cites(specs: Specs, child: Name, parent: Name) {
    && parent != ""
    && child in specs
    && specs[child].Readable?
    && (specs[child].retryOf == Text(parent) || specs[child].replacing == Text(parent))
  }

  predicate Linked(specs: Specs, a: Name, b: Name) {
    Cites(specs, a, b) || Cites(specs, b, a)
  }

  // ---- Connection and ancestry, the reference definitions ----

  ghost predicate IsWalk(specs: Specs, walk: seq<Name>, from: Name, to: Name) {
    && |walk| > 0
    && walk[0] == from
    && walk[|walk| - 1] == to
    && forall i :: 0 <= i < |walk| - 1 ==> Linked(specs, walk[i], walk[i + 1])
  }

  ghost predicate Connected(specs: Specs, a: Name, b: Name) {
    exists walk :: IsWalk(specs, walk, a, b)
  }

  /** The k-th ancestor of a member along the parents that can be read. */
  ghost function Ancestor(specs: Specs, member: Name, k: nat): Option<Name> {
    if k == 0 then Some(member)
    else
      match Ancestor(specs, member, k - 1)
      case None => None
      case Some(below) =>
        match Lookup(specs, below) case Success(parent) => parent case Failure(_) => None
  }

  /** The parent chain of a member comes back to a batch it already passed. */
  ghost predicate Revisits(specs: Specs, member: Name) {
    exists i: nat, j: nat ::
      i < j && Ancestor(specs, member, i).Some? && Ancestor(specs, member, i) == Ancestor(specs, member, j)
  }

  ghost predicate Ends(specs: Specs, member: Name) {
    exists k: nat :: Ancestor(specs, member, k).None?
  }

  lemma ConnectedToSelf(specs: Specs, a: Name)
    ensures Connected(specs, a, a)
  {
    assert IsWalk(specs, [a], a, a);
  }

  lemma ConnectedStep(specs: Specs, a: Name, b: Name, c: Name)
    requires Connected(specs, a, b) && Linked(specs, b, c)
    ensures Connected(specs, a, c)
  {
    var walk :| IsWalk(specs, walk, a, b);
    assert IsWalk(specs, walk + [c], a, c);
  }

  lemma ConnectedSymmetric(specs: Specs, a: Name, b: Name)
    requires Connected(specs, a, b)
    ensures Connected(specs, b, a)
  {
    var walk :| IsWalk(specs, walk, a, b);
    var back := seq(|walk|, i requires 0 <= i < |walk| => walk[|walk| - 1 - i]);
    forall i | 0 <= i < |back| - 1 ensures Linked(specs, back[i], back[i + 1]) {
      var k := |walk| - 2 - i;
      assert back[i] == walk[k + 1] && back[i + 1] == walk[k];
    }
    assert IsWalk(specs, back, b, a);
  }

  lemma ConnectedTransitive(specs: Specs, a: Name, b: Name, c: Name)
    requires Connected(specs, a, b) && Connected(specs, b, c)
    ensures Connected(specs, a, c)
  {
    var first :| IsWalk(specs, first, a, b);
    var second :| IsWalk(specs, second, b, c);
    var walk := first + second[1..];
    forall i | 0 <= i < |walk| - 1 ensures Linked(specs, walk[i], walk[i + 1]) {
      if i >= |first| - 1 {
        var k := i - (|first| - 1);
        assert walk[i] == second[k] && walk[i + 1] == second[k + 1];
      }
    }
    assert IsWalk(specs, walk, a, c);
  }

  /** A set closed under links that holds one end of a walk holds the other. */
  lemma {:induction false} ClosedUnderWalk(specs: Specs, members: set<Name>, walk: seq<Name>, a: Name, b: Name)
    requires IsWalk(specs, walk, a, b) && a in members
    requires forall x, y :: x in members && Linked(specs, x, y) ==> y in members
    ensures b in members
  {
    if |walk| > 1 {
      assert Linked(specs, walk[0], walk[1]);
      assert IsWalk(specs, walk[1..], walk[1], b);
      ClosedUnderWalk(specs, members, walk[1..], walk[1], b);
    }
  }

  lemma {:induction false} AncestorOfAncestor(specs: Specs, member: Name, i: nat, j: nat)
    requires Ancestor(specs, member, i).Some?
    ensures Ancestor(specs, Ancestor(specs, member, i).value, j) == Ancestor(specs, member, i + j)
  {
    if j > 0 {
      AncestorOfAncestor(specs, member, i, j - 1);
    }
  }

  lemma {:induction false} NoneStaysNone(specs: Specs, member: Name, k: nat, m: nat)
    requires Ancestor(specs, member, k).None? && k <= m
    ensures Ancestor(specs, member, m).None?
  {
    if k < m {
      NoneStaysNone(specs, member, k, m - 1);
    }
  }

  lemma {:induction false} RevisitForever(specs: Specs, member: Name, i: nat, period: nat, n: nat)
    requires Ancestor(specs, member, i).Some? && Ancestor(specs, member, i) == Ancestor(specs, member, i + period)
    ensures Ancestor(specs, member, i + n * period) == Ancestor(specs, member, i)
  {
    if n > 0 {
      RevisitForever(specs, member, i, period, n - 1);
      var far := i + (n - 1) * period;
      AncestorOfAncestor(specs, member, far, period);
      AncestorOfAncestor(specs, member, i, period);
      assert far + period == i + n * period;
    }
  }

  lemma EndingChainsNeverRevisit(specs: Specs, member: Name)
    requires Ends(specs, member)
    ensures !Revisits(specs, member)
  {
    if Revisits(specs, member) {
      var k: nat :| Ancestor(specs, member, k).None?;
      var i: nat, j: nat :|
        i < j && Ancestor(specs, member, i).Some? && Ancestor(specs, member, i) == Ancestor(specs, member, j);
      var period: nat := j - i;
      RevisitForever(specs, member, i, period, k);
      var far := i + k * period;
      AtLeast(k, period);
      NoneStaysNone(specs, member, k, far);
    }
  }

  lemma AtLeast(k: nat, period: nat)
    requires period >= 1
    ensures k * period >= k
  {
  }

  // ---- The algorithm ----

  /** Every name a walk can meet. */
  ghost function Universe(specs: Specs, name: Name): set<Name> {
    var readable := set n | n in specs && specs[n].Readable?;
    {name} + specs.Keys
    + (set n | n in readable && specs[n].retryOf.Text? :: specs[n].retryOf.batch)
    + (set n | n in readable && specs[n].replacing.Text? :: specs[n].replacing.batch)
  }

  function ChildrenOf(children: map<Name, seq<Name>>, parent: Name): seq<Name> {
    if parent in children then children[parent] else []
  }

  method IndexChildren(order: seq<Name>, specs: Specs) returns (children: map<Name, seq<Name>>)
    requires forall n :: n in order <==> n in specs
    ensures forall parent, child :: child in ChildrenOf(children, parent) <==> Cites(specs, child, parent)
  {
    children := map[];
    for i := 0 to |order|
      invariant forall parent, child ::
        child in ChildrenOf(children, parent) <==> child in order[..i] && Cites(specs, child, parent)
    {
      var member := order[i];
      var spec := specs[member];
      assert order[..i + 1] == order[..i] + [member];
      if spec.Readable? {
        if spec.retryOf.Text? && spec.retryOf.batch != "" {
          children := children[spec.retryOf.batch := ChildrenOf(children, spec.retryOf.batch) + [member]];
        }
        if spec.replacing.Text? && spec.replacing.batch != "" {
          children := children[spec.replacing.batch := ChildrenOf(children, spec.replacing.batch) + [member]];
        }
      }
    }
    assert order[..|order|] == order;
  }

  /** What a read member adds to the work list are its neighbours. */
  lemma Neighbours(
    specs: Specs, children: map<Name, seq<Name>>, name: Name, member: Name, parents: seq<Name>)
    requires forall parent, child :: child in ChildrenOf(children, parent) <==> Cites(specs, child, parent)
    requires Connected(specs, name, member) && Lookup(specs, member).Success?
    requires forall n :: n in parents <==> Lookup(specs, member).value == Some(n)
    ensures forall n :: n in parents + ChildrenOf(children, member) <==> Linked(specs, member, n)
    ensures forall n :: n in parents + ChildrenOf(children, member) ==>
              Connected(specs, name, n) && n in Universe(specs, name)
  {
    var more := parents + ChildrenOf(children, member);
    forall n ensures n in more <==> Linked(specs, member, n) {
      assert n in parents <==> Cites(specs, member, n);
    }
    forall n | n in more ensures Connected(specs, name, n) {
      ConnectedStep(specs, name, member, n);
    }
  }

  /** The members read so far and the work list: all connected, and every neighbour of a read
    * member is read or waiting. */
  ghost predicate Collecting(specs: Specs, name: Name, family: seq<Name>, seen: set<Name>, ready: seq<Name>) {
    && NoDuplicates(family) && (forall n :: n in seen <==> n in family)
    && (name in seen || name in ready)
    && (forall n :: n in seen || n in ready ==> Connected(specs, name, n) && n in Universe(specs, name))
    && (forall n :: n in seen ==> Lookup(specs, n).Success?)
    && (forall x, y :: x in seen && Linked(specs, x, y) ==> y in seen || y in ready)
  }

  lemma CollectOne(
    specs: Specs, name: Name, family: seq<Name>, seen: set<Name>, ready: seq<Name>, member: Name, more: seq<Name>)
    requires Collecting(specs, name, family, seen, ready + [member]) && member !in seen
    requires Lookup(specs, member).Success?
    requires forall n :: n in more <==> Linked(specs, member, n)
    requires forall n :: n in more ==> Connected(specs, name, n) && n in Universe(specs, name)
    ensures Collecting(specs, name, family + [member], seen + {member}, ready + more)
    ensures Universe(specs, name) - (seen + {member}) < Universe(specs, name) - seen
    ensures Connected(specs, name, member)
  {
    hide Connected, Linked, Universe, Lookup;
    assert member in ready + [member];
    var longer := family + [member];
    forall i, j | 0 <= i < j < |longer| ensures longer[i] != longer[j] {
      if j == |family| {
        assert family[i] in family;
      }
    }
  }

  lemma CollectSkip(specs: Specs, name: Name, family: seq<Name>, seen: set<Name>, ready: seq<Name>, member: Name)
    requires Collecting(specs, name, family, seen, ready + [member]) && member in seen
    ensures Collecting(specs, name, family, seen, ready)
  {
    hide Connected, Linked, Universe, Lookup;
  }

  lemma CollectedAll(specs: Specs, name: Name, family: seq<Name>, seen: set<Name>)
    requires Collecting(specs, name, family, seen, [])
    ensures NoDuplicates(family) && forall n :: n in family <==> Connected(specs, name, n)
    ensures forall n :: Connected(specs, name, n) ==> Lookup(specs, n).Success?
  {
    forall n | Connected(specs, name, n) ensures n in seen {
      ClosedUnderConnection(specs, seen, name, n);
    }
  }

  lemma StartCollecting(specs: Specs, name: Name)
    ensures Collecting(specs, name, [], {}, [name])
  {
    ConnectedToSelf(specs, name);
  }

  lemma WaitingIsConnected(
    specs: Specs, name: Name, family: seq<Name>, seen: set<Name>, ready: seq<Name>, member: Name)
    requires Collecting(specs, name, family, seen, ready + [member])
    ensures Connected(specs, name, member)
  {
    assert member in ready + [member];
  }

  /** The work-list half: the connected members, or the first one that cannot be read. */
  method CollectMembers(order: seq<Name>, specs: Specs, name: Name) returns (r: Result<seq<Name>, Error>)
    requires forall n :: n in order <==> n in specs
    ensures r.Success? ==> NoDuplicates(r.value) && forall n :: n in r.value <==> Connected(specs, name, n)
    ensures r.Success? <==> forall n :: Connected(specs, name, n) ==> Lookup(specs, n).Success?
    ensures r.Failure? ==> exists n :: Connected(specs, name, n) && Lookup(specs, n) == Failure(r.error)
    ensures r.Failure? ==> !r.error.Cycle?
  {
    var children := IndexChildren(order, specs);
    var family: seq<Name> := [];
    var seen: set<Name> := {};
    var ready := [name];
    StartCollecting(specs, name);
    hide Collecting, Connected, Linked, Cites, Universe, ParentOf, ChildrenOf;
    while ready != []
      invariant Collecting(specs, name, family, seen, ready)
      decreases Universe(specs, name) - seen, |ready|
    {
      var member := ready[|ready| - 1];
      assert ready == ready[..|ready| - 1] + [member];
      ready := ready[..|ready| - 1];
      WaitingIsConnected(specs, name, family, seen, ready, member);
      if member !in seen {
        var found := Lookup(specs, member);
        if found.Failure? {
          NotACycle(specs, member);
          return Failure(found.error);
        }
        var parents := if found.value.Some? then [found.value.value] else [];
        var more := parents + ChildrenOf(children, member);
        Neighbours(specs, children, name, member, parents);
        CollectOne(specs, name, family, seen, ready, member, more);
        seen := seen + {member};
        family := family + [member];
        ready := ready + more;
      } else {
        CollectSkip(specs, name, family, seen, ready, member);
      }
    }
    CollectedAll(specs, name, family, seen);
    return Success(family);
  }

  lemma NotACycle(specs: Specs, member: Name)
    requires Lookup(specs, member).Failure?
    ensures !Lookup(specs, member).error.Cycle?
  {
  }

  lemma ClosedUnderConnection(specs: Specs, seen: set<Name>, name: Name, n: Name)
    requires name in seen && Connected(specs, name, n)
    requires forall x, y :: x in seen && Linked(specs, x, y) ==> y in seen
    ensures n in seen
  {
    var walk :| IsWalk(specs, walk, name, n);
    ClosedUnderWalk(specs, seen, walk, name, n);
  }

  /** Where the walk up the parents of `member` stands after `t` steps. */
  ghost predicate Following(
    specs: Specs, members: set<Name>, member: Name, cursor: Option<Name>, chain: set<Name>, t: nat)
  {
    && cursor == Ancestor(specs, member, t)
    && (cursor.Some? ==> cursor.value in members)
    && chain <= members
    && (t == 0 ==> chain == {})
    && (t > 0 ==> member in chain)
    && forall n :: n in chain ==> exists i: nat :: i < t && Ancestor(specs, member, i) == Some(n)
  }

  lemma FollowOne(specs: Specs, members: set<Name>, member: Name, cursor: Name, chain: set<Name>, t: nat)
    requires Following(specs, members, member, Some(cursor), chain, t)
    requires forall n :: n in members ==> Lookup(specs, n).Success?
    requires forall x, y :: x in members && Cites(specs, x, y) ==> y in members
    ensures Lookup(specs, cursor).Success?
    ensures Following(specs, members, member, Lookup(specs, cursor).value, chain + {cursor}, t + 1)
    ensures cursor in chain ==> Revisits(specs, member)
  {
  }

  lemma ChainClears(specs: Specs, members: set<Name>, member: Name, cursor: Option<Name>, chain: set<Name>, t: nat)
    requires Following(specs, members, member, cursor, chain, t)
    requires cursor.Some? ==> Ends(specs, cursor.value)
    ensures forall n :: n in chain ==> Ends(specs, n)
  {
    ChainEnds(specs, member, t);
    forall n | n in chain ensures Ends(specs, n) {
      var i: nat :| i < t && Ancestor(specs, member, i) == Some(n);
      var k: nat :| Ancestor(specs, member, k).None? && k >= t;
      AncestorOfAncestor(specs, member, i, k - i);
      assert Ancestor(specs, n, k - i).None?;
    }
  }

  /** One parent chain, up to a member already cleared: a batch met twice, or the members of a
    * chain that ends. */
  method FollowChain(specs: Specs, family: seq<Name>, done: set<Name>, member: Name)
    returns (again: Option<Name>, chain: set<Name>)
    requires member in family
    requires forall n :: n in family ==> Lookup(specs, n).Success?
    requires forall x, y :: x in family && Cites(specs, x, y) ==> y in family
    requires forall n :: n in done ==> Ends(specs, n)
    ensures again.Some? ==> Revisits(specs, member)
    ensures again.None? ==> (member in chain || member in done) && forall n :: n in chain ==> Ends(specs, n)
  {
    ghost var members := set n | n in family;
    chain := {};
    var cursor := Some(member);
    ghost var t: nat := 0;
    while cursor.Some? && cursor.value !in done
      invariant Following(specs, members, member, cursor, chain, t)
      decreases members - chain
    {
      FollowOne(specs, members, member, cursor.value, chain, t);
      if cursor.value in chain {
        return Some(cursor.value), chain;
      }
      chain := chain + {cursor.value};
      cursor := Lookup(specs, cursor.value).value;
      t := t + 1;
    }
    ChainClears(specs, members, member, cursor, chain, t);
    return None, chain;
  }

  /** The cycle half: follow every parent chain, stopping at members already cleared. */
  method CheckChains(specs: Specs, family: seq<Name>) returns (r: Result<(), Error>)
    requires forall n :: n in family ==> Lookup(specs, n).Success?
    requires forall x, y :: x in family && Cites(specs, x, y) ==> y in family
    ensures r.Success? <==> forall n :: n in family ==> !Revisits(specs, n)
    ensures r.Failure? ==> r.error.Cycle?
  {
    var done: set<Name> := {};
    hide Lookup, Cites, Revisits, Ends;
    for f := 0 to |family|
      invariant forall n :: n in done ==> Ends(specs, n)
      invariant forall i :: 0 <= i < f ==> family[i] in done
    {
      assert family[f] in family;
      var again, chain := FollowChain(specs, family, done, family[f]);
      if again.Some? {
        return Failure(Cycle(again.value));
      }
      done := done + chain;
    }
    forall n | n in family ensures !Revisits(specs, n) {
      EndingChainsNeverRevisit(specs, n);
    }
    return Success(());
  }

  lemma ChainEnds(specs: Specs, member: Name, t: nat)
    requires Ancestor(specs, member, t).None? || Ends(specs, Ancestor(specs, member, t).value)
    ensures exists k: nat :: Ancestor(specs, member, k).None? && k >= t
  {
    if Ancestor(specs, member, t).Some? {
      var cursor := Ancestor(specs, member, t).value;
      var k: nat :| Ancestor(specs, cursor, k).None?;
      AncestorOfAncestor(specs, member, t, k);
      assert Ancestor(specs, member, t + k).None?;
    }
  }

  /** The whole cell: exactly the connected members, each once, and a failure exactly when
    * one of them cannot be read or the parent chain of one of them runs into a cycle. */
  method CellModelFamily(order: seq<Name>, specs: Specs, name: Name) returns (r: Result<seq<Name>, Error>)
    requires forall n :: n in order <==> n in specs
    ensures r.Success? ==> NoDuplicates(r.value) && forall n :: n in r.value <==> Connected(specs, name, n)
    ensures r.Success? <==>
      && (forall n :: Connected(specs, name, n) ==> Lookup(specs, n).Success?)
      && (forall n :: Connected(specs, name, n) ==> !Revisits(specs, n))
    ensures r.Failure? && r.error.Cycle? <==>
      && (forall n :: Connected(specs, name, n) ==> Lookup(specs, n).Success?)
      && (exists n :: Connected(specs, name, n) && Revisits(specs, n))
  {
    var collected := CollectMembers(order, specs, name);
    if collected.Failure? {
      return collected;
    }
    var family := collected.value;
    forall x, y | x in family && Cites(specs, x, y) ensures y in family {
      ConnectedStep(specs, name, x, y);
    }
    var chains := CheckChains(specs, family);
    if chains.Failure? {
      return Failure(chains.error);
    }
    return Success(family);
  }

  // ---- Forests: relations that only ever grew by attaching a leaf to a recorded batch ----

  /** Every spec reads, and every parent is recorded and older than its child. */
  ghost predicate Forest(specs: Specs, age: map<Name, nat>) {
    && specs.Keys <= age.Keys
    && forall n {:trigger Lookup(specs, n)} :: n in specs ==>
        && Lookup(specs, n).Success?
        && (Lookup(specs, n).value.Some? ==>
              Lookup(specs, n).value.value in specs && age[Lookup(specs, n).value.value] < age[n])
  }

  ghost function Root(specs: Specs, age: map<Name, nat>, n: Name): (root: Name)
    requires Forest(specs, age) && n in specs
    ensures root in specs
    decreases age[n]
  {
    match Lookup(specs, n).value
    case None => n
    case Some(parent) => Root(specs, age, parent)
  }

  lemma CitesIsParent(specs: Specs, child: Name, parent: Name)
    requires child in specs && Lookup(specs, child).Success?
    ensures Cites(specs, child, parent) <==> Lookup(specs, child).value == Some(parent)
  {
  }

  lemma {:induction false} WalkKeepsRoot(specs: Specs, age: map<Name, nat>, walk: seq<Name>, a: Name, b: Name)
    requires Forest(specs, age) && a in specs && IsWalk(specs, walk, a, b)
    ensures b in specs && Root(specs, age, a) == Root(specs, age, b)
  {
    if |walk| > 1 {
      var next := walk[1];
      assert Linked(specs, a, next);
      if Cites(specs, a, next) {
        CitesIsParent(specs, a, next);
      } else {
        CitesIsParent(specs, next, a);
      }
      assert IsWalk(specs, walk[1..], next, b);
      WalkKeepsRoot(specs, age, walk[1..], next, b);
    }
  }

  lemma {:induction false} ConnectedToRoot(specs: Specs, age: map<Name, nat>, n: Name)
    requires Forest(specs, age) && n in specs
    ensures Connected(specs, n, Root(specs, age, n))
    decreases age[n]
  {
    ConnectedToSelf(specs, n);
    if Lookup(specs, n).value.Some? {
      var parent := Lookup(specs, n).value.value;
      CitesIsParent(specs, n, parent);
      ConnectedStep(specs, n, n, parent);
      ConnectedToRoot(specs, age, parent);
      ConnectedTransitive(specs, n, parent, Root(specs, age, n));
    }
  }

  /** In a forest a cell is exactly the set of batches with one common root. */
  lemma CellIsRootClass(specs: Specs, age: map<Name, nat>, a: Name, b: Name)
    requires Forest(specs, age) && a in specs
    ensures Connected(specs, a, b) <==> b in specs && Root(specs, age, a) == Root(specs, age, b)
  {
    if Connected(specs, a, b) {
      var walk :| IsWalk(specs, walk, a, b);
      WalkKeepsRoot(specs, age, walk, a, b);
    } else if b in specs && Root(specs, age, a) == Root(specs, age, b) {
      ConnectedToRoot(specs, age, a);
      ConnectedToRoot(specs, age, b);
      ConnectedSymmetric(specs, b, Root(specs, age, b));
      ConnectedTransitive(specs, a, Root(specs, age, a), b);
    }
  }

  lemma {:induction false} ForestChainsEnd(specs: Specs, age: map<Name, nat>, n: Name)
    requires Forest(specs, age) && n in specs
    ensures Ends(specs, n)
    decreases age[n]
  {
    var parent := Lookup(specs, n).value;
    assert Ancestor(specs, n, 0) == Some(n);
    assert Ancestor(specs, n, 1) == parent;
    if parent.Some? {
      ForestChainsEnd(specs, age, parent.value);
      var k: nat :| Ancestor(specs, parent.value, k).None?;
      AncestorOfAncestor(specs, n, 1, k);
      assert Ancestor(specs, n, 1 + k).None?;
    }
  }

  /** On a forest the cell of a recorded batch is always found: nothing in it is unreadable or cyclic. */
  lemma ForestNeverFails(specs: Specs, age: map<Name, nat>, name: Name)
    requires Forest(specs, age) && name in specs
    ensures forall n :: Connected(specs, name, n) ==> Lookup(specs, n).Success? && !Revisits(specs, n)
  {
    forall n | Connected(specs, name, n) ensures Lookup(specs, n).Success? && !Revisits(specs, n) {
      CellIsRootClass(specs, age, name, n);
      ForestChainsEnd(specs, age, n);
      EndingChainsNeverRevisit(specs, n);
    }
  }
}
