/** How each phase of a publication runs: forward up to its first fault or mismatch, and back with
  * what the rollback reports. */
module PublicationRuns {
  import opened Wrappers
  import opened Publication

  // ---- Where faults happened ----

  ghost predicate Calm(faults: Faults, from: nat, to: nat) {
    forall k: nat :: from <= k < to ==> !faults(k)
  }

  /** A status query, or another operation, of the trace from `from` on has failed. */
  ghost predicate Faulted(faults: Faults, trace: seq<Op>, from: nat, query: bool) {
    exists k: nat :: from <= k < |trace| && trace[k].Query? == query && faults(k)
  }

  lemma FaultedSplits(faults: Faults, shorter: seq<Op>, longer: seq<Op>, from: nat, query: bool)
    requires shorter <= longer && from <= |shorter|
    ensures Faulted(faults, longer, from, query) <==>
              Faulted(faults, shorter, from, query) || Faulted(faults, longer, |shorter|, query)
  {
    if Faulted(faults, shorter, from, query) {
      var k: nat :| from <= k < |shorter| && shorter[k].Query? == query && faults(k);
      assert longer[k] == shorter[k];
    }
    if Faulted(faults, longer, from, query) {
      var k: nat :| from <= k < |longer| && longer[k].Query? == query && faults(k);
      assert k < |shorter| ==> shorter[k] == longer[k];
    }
  }

  lemma CalmIsNoFault(faults: Faults, trace: seq<Op>, from: nat)
    ensures Calm(faults, from, |trace|) <==>
              !Faulted(faults, trace, from, true) && !Faulted(faults, trace, from, false)
  {
    if !Calm(faults, from, |trace|) {
      var k: nat :| from <= k < |trace| && faults(k);
      assert trace[k].Query? == true || trace[k].Query? == false;
    }
  }

  // ---- How far a publication has come ----

  function Names(names: seq<Name>): set<Name> {
    set n | n in names
  }

  /** The state of one name: its target is moved away, published over, or restored. */
  ghost predicate NameAt(files: Files, before: Files, n: Name, backed: bool, published: bool) {
    && (published ==> Staged(n) in before && (!backed ==> Target(n) !in before))
    && (backed ==> Target(n) in before && At(files, Previous(n)) == At(before, Target(n)))
    && (!published ==> At(files, Staged(n)) == At(before, Staged(n)))
    && At(files, Target(n)) ==
       if published then At(before, Staged(n)) else if backed then None else At(before, Target(n))
  }

  /** How far it has come from `before`: the `backed` targets are away, the `published` ones hold
    * their staged content. */
  ghost predicate Progress(files: Files, before: Files, backed: set<Name>, published: set<Name>) {
    && (forall n: Name :: NameAt(files, before, n, n in backed, n in published))
    && At(files, Manifest) == At(before, Manifest)
  }

  /** Every target and the manifest are as they were. */
  ghost predicate Untouched(files: Files, before: Files) {
    (forall n :: At(files, Target(n)) == At(before, Target(n))) && At(files, Manifest) == At(before, Manifest)
  }

  lemma MovedAt(files: Files, from: Path, to: Path, path: Path)
    requires from in files && from != to
    ensures At(Moved(files, from, to), path) ==
            if path == to then At(files, from) else if path == from then None else At(files, path)
  {
  }

  lemma BackUpOne(files: Files, before: Files, backed: set<Name>, name: Name)
    requires Progress(files, before, backed, {}) && name !in backed && Target(name) in files
    ensures Progress(Moved(files, Target(name), Previous(name)), before, backed + {name}, {})
  {
    forall path {
      MovedAt(files, Target(name), Previous(name), path);
    }
    hide Moved;
    forall n: Name ensures
      NameAt(Moved(files, Target(name), Previous(name)), before, n, n in backed + {name}, false)
    {
      assert NameAt(files, before, n, n in backed, false);
      MovedAt(files, Target(name), Previous(name), Target(n));
      MovedAt(files, Target(name), Previous(name), Previous(n));
      MovedAt(files, Target(name), Previous(name), Staged(n));
    }
    MovedAt(files, Target(name), Previous(name), Manifest);
  }

  lemma PublishOne(files: Files, before: Files, backed: set<Name>, published: set<Name>, name: Name)
    requires Progress(files, before, backed, published) && name !in published && Staged(name) in files
    requires name !in backed ==> Target(name) !in before
    ensures Progress(Moved(files, Staged(name), Target(name)), before, backed, published + {name})
  {
    hide Moved;
    forall n: Name ensures
      NameAt(Moved(files, Staged(name), Target(name)), before, n, n in backed, n in published + {name})
    {
      assert NameAt(files, before, n, n in backed, n in published);
      MovedAt(files, Staged(name), Target(name), Target(n));
      MovedAt(files, Staged(name), Target(name), Previous(n));
      MovedAt(files, Staged(name), Target(name), Staged(n));
    }
    MovedAt(files, Staged(name), Target(name), Manifest);
  }

  // ---- Undoing ----

  /** The state of one name while it is undone; staged files no longer matter. */
  ghost predicate Undoing(files: Files, before: Files, n: Name, backed: bool, published: bool) {
    && (published && !backed ==> Target(n) !in before)
    && (backed ==> Target(n) in before && At(files, Previous(n)) == At(before, Target(n)))
    && (!published ==> At(files, Target(n)) == if backed then None else At(before, Target(n)))
  }

  ghost predicate UndoProgress(files: Files, before: Files, backed: set<Name>, published: set<Name>) {
    && (forall n: Name :: Undoing(files, before, n, n in backed, n in published))
    && At(files, Manifest) == At(before, Manifest)
  }

  lemma DiscardOne(files: Files, before: Files, backed: set<Name>, published: set<Name>, name: Name)
    requires UndoProgress(files, before, backed, published) && name in published && Target(name) in files
    ensures UndoProgress(Moved(files, Target(name), Discarded(name)), before, backed, published - {name})
  {
    hide Moved;
    forall n: Name ensures
      Undoing(Moved(files, Target(name), Discarded(name)), before, n, n in backed, n in published - {name})
    {
      assert Undoing(files, before, n, n in backed, n in published);
      MovedAt(files, Target(name), Discarded(name), Target(n));
      MovedAt(files, Target(name), Discarded(name), Previous(n));
    }
    MovedAt(files, Target(name), Discarded(name), Manifest);
  }

  lemma AlreadyGone(files: Files, before: Files, backed: set<Name>, published: set<Name>, name: Name)
    requires UndoProgress(files, before, backed, published) && name in published && Target(name) !in files
    ensures UndoProgress(files, before, backed, published - {name})
  {
    forall n: Name ensures Undoing(files, before, n, n in backed, n in published - {name}) {
      assert Undoing(files, before, n, n in backed, n in published);
    }
  }

  lemma RestoreOne(files: Files, before: Files, backed: set<Name>, name: Name)
    requires UndoProgress(files, before, backed, {}) && name in backed && Previous(name) in files
    ensures UndoProgress(Moved(files, Previous(name), Target(name)), before, backed - {name}, {})
  {
    hide Moved;
    assert Undoing(files, before, name, true, false);
    forall n: Name ensures
      Undoing(Moved(files, Previous(name), Target(name)), before, n, n in backed - {name}, false)
    {
      assert Undoing(files, before, n, n in backed, false);
      MovedAt(files, Previous(name), Target(name), Target(n));
      MovedAt(files, Previous(name), Target(name), Previous(n));
    }
    MovedAt(files, Previous(name), Target(name), Manifest);
  }

  lemma StartUndoing(files: Files, before: Files, backed: set<Name>, published: set<Name>)
    requires Progress(files, before, backed, published)
    ensures UndoProgress(files, before, backed, published)
  {
    forall n: Name ensures Undoing(files, before, n, n in backed, n in published) {
      assert NameAt(files, before, n, n in backed, n in published);
    }
  }

  lemma AllUndone(files: Files, before: Files)
    requires UndoProgress(files, before, {}, {})
    ensures Untouched(files, before)
  {
    forall n ensures At(files, Target(n)) == At(before, Target(n)) {
      var none: set<Name> := {};
      assert Undoing(files, before, n, n in none, n in none);
    }
  }

  // ---- Forward: up to the first fault or mismatch ----

  /** One phase ran from `s` to `r`; only its last operation can have failed, and has not if `ok`. */
  ghost predicate RunsTo(s: State, faults: Faults, r: State, ok: bool) {
    && s.trace <= r.trace
    && (ok ==> Calm(faults, |s.trace|, |r.trace|))
    && (!ok ==> |s.trace| < |r.trace| && Calm(faults, |s.trace|, |r.trace| - 1))
  }

  lemma Chains(s: State, faults: Faults, m: State, r: State, ok: bool)
    requires RunsTo(s, faults, m, true) && RunsTo(m, faults, r, ok)
    ensures RunsTo(s, faults, r, ok)
    ensures Calm(faults, |s.trace|, |r.trace|) <==> Calm(faults, |m.trace|, |r.trace|)
  {
  }

  lemma OneRuns(s: State, faults: Faults, r: State, op: Op, ok: bool)
    requires r.trace == s.trace + [op] && (ok ==> !Fails(s, faults))
    ensures RunsTo(s, faults, r, ok)
    ensures Calm(faults, |s.trace|, |r.trace|) <==> !Fails(s, faults)
  {
  }

  ghost predicate NoIrregularTarget(files: Files) {
    forall n :: At(files, Target(n)) != Some(Irregular)
  }

  lemma {:induction false} PreflightRuns(s: State, faults: Faults, names: seq<Name>)
    ensures var r := Preflighted(s, faults, names);
            && RunsTo(s, faults, r.state, r.ok) && r.state.files == s.files
            && (r.ok <==>
                  && Calm(faults, |s.trace|, |r.state.trace|)
                  && forall n :: n in names ==> At(s.files, Target(n)) != Some(Irregular))
    decreases |names|
  {
    if names != [] {
      var check := Checked(s, faults, Target(names[0]));
      OneRuns(s, faults, check.state, Check(Target(names[0])), check.ok);
      assert names == [names[0]] + names[1..];
      if check.ok {
        var r := Preflighted(check.state, faults, names[1..]);
        PreflightRuns(check.state, faults, names[1..]);
        Chains(s, faults, check.state, r.state, r.ok);
      }
    }
  }

  /** The backups so far, with `names` still to come. */
  ghost predicate Backing(files: Files, before: Files, names: seq<Name>, backed: seq<Name>) {
    && NoDuplicates(names + backed)
    && Progress(files, before, Names(backed), {})
    && forall n :: n !in names && n !in backed ==> Target(n) !in before
  }

  lemma BackNext(files: Files, before: Files, names: seq<Name>, backed: seq<Name>)
    requires Backing(files, before, names, backed) && names != []
    ensures Target(names[0]) in files <==> Target(names[0]) in before
    ensures Target(names[0]) !in files ==> Backing(files, before, names[1..], backed)
    ensures Target(names[0]) in files ==>
              Backing(Moved(files, Target(names[0]), Previous(names[0])), before, names[1..], backed + [names[0]])
  {
    var name := names[0];
    Apart(names, backed);
    StillThere(files, before, Names(backed), name);
    assert names == [name] + names[1..];
    if name !in Names(backed) && Target(name) in files {
      BackUpOne(files, before, Names(backed), name);
      assert Names(backed + [name]) == Names(backed) + {name};
    }
    RestDistinct(names, backed);
  }

  lemma Apart(first: seq<Name>, second: seq<Name>)
    requires NoDuplicates(first + second)
    ensures forall n :: n in first ==> n !in second
  {
    var all := first + second;
    forall i, j | 0 <= i < |first| && 0 <= j < |second| ensures first[i] != second[j] {
      assert all[i] == first[i] && all[|first| + j] == second[j];
    }
  }

  lemma RestDistinct(names: seq<Name>, backed: seq<Name>)
    requires NoDuplicates(names + backed) && names != []
    ensures NoDuplicates(names[1..] + backed) && NoDuplicates(names[1..] + (backed + [names[0]]))
  {
    var all := names + backed;
    assert names[1..] + backed == all[1..];
    var turned := names[1..] + (backed + [names[0]]);
    assert turned == all[1..] + [all[0]];
  }

  lemma StillThere(files: Files, before: Files, backed: set<Name>, name: Name)
    requires Progress(files, before, backed, {}) && name !in backed
    ensures Target(name) in files <==> Target(name) in before
  {
    var none: set<Name> := {};
    assert NameAt(files, before, name, name in backed, name in none);
  }

  lemma {:induction false} BackUpRuns(
    s: State, faults: Faults, before: Files, names: seq<Name>, backed: seq<Name>)
    requires Backing(s.files, before, names, backed)
    ensures var r := BackedUp(s, faults, names, backed);
            && RunsTo(s, faults, r.state, r.ok)
            && (r.ok <==> Calm(faults, |s.trace|, |r.state.trace|))
            && NoDuplicates(r.names) && Progress(r.state.files, before, Names(r.names), {})
            && (r.ok ==> forall n :: n !in r.names ==> Target(n) !in before)
    decreases |names|
  {
    if names == [] {
      assert names + backed == backed;
    } else {
      hide Backing, Progress, Names;
      var name := names[0];
      BackNext(s.files, before, names, backed);
      BackedIsProgress(s.files, before, names, backed);
      var (seen, look) := Looked(s, faults, Target(name));
      OneRuns(s, faults, seen, Query(Target(name)), look != Fault);
      var r := BackedUp(s, faults, names, backed);
      if look == Missing {
        BackUpRuns(seen, faults, before, names[1..], backed);
        Chains(s, faults, seen, r.state, r.ok);
      } else if look == Found {
        var move := Replaced(seen, faults, Target(name), Previous(name));
        OneRuns(seen, faults, move.state, Move(Target(name), Previous(name)), move.ok);
        Chains(s, faults, seen, move.state, move.ok);
        if move.ok {
          BackUpRuns(move.state, faults, before, names[1..], backed + [name]);
          Chains(s, faults, move.state, r.state, r.ok);
        }
      }
    }
  }

  lemma BackedIsProgress(files: Files, before: Files, names: seq<Name>, backed: seq<Name>)
    requires Backing(files, before, names, backed)
    ensures NoDuplicates(backed) && Progress(files, before, Names(backed), {})
  {
    assert backed == (names + backed)[|names|..];
  }

  /** The outputs placed so far, with `names` still to come. */
  ghost predicate Placing(files: Files, before: Files, backed: set<Name>, names: seq<Name>, published: seq<Name>) {
    && NoDuplicates(published + names)
    && Progress(files, before, backed, Names(published))
    && forall n :: n !in backed ==> Target(n) !in before
  }

  lemma PlaceNext(files: Files, before: Files, backed: set<Name>, names: seq<Name>, published: seq<Name>)
    requires Placing(files, before, backed, names, published) && names != []
    ensures At(files, Target(names[0])) == None
    ensures Staged(names[0]) in files <==> Staged(names[0]) in before
    ensures Staged(names[0]) in files ==>
              Placing(
                Moved(files, Staged(names[0]), Target(names[0])), before, backed, names[1..],
                published + [names[0]])
  {
    var name := names[0];
    Apart(published, names);
    assert name !in Names(published);
    assert NameAt(files, before, name, name in backed, name in Names(published));
    if Staged(name) in files {
      PublishOne(files, before, backed, Names(published), name);
      assert Names(published + [name]) == Names(published) + {name};
      assert published + [name] + names[1..] == published + names;
    }
  }

  lemma PlacedIsProgress(files: Files, before: Files, backed: set<Name>, names: seq<Name>, published: seq<Name>)
    requires Placing(files, before, backed, names, published)
    ensures NoDuplicates(published) && Progress(files, before, backed, Names(published))
  {
    assert published == (published + names)[..|published|];
  }

  lemma {:induction false} PublishRuns(
    s: State, faults: Faults, before: Files, backed: set<Name>, names: seq<Name>, published: seq<Name>)
    requires Placing(s.files, before, backed, names, published)
    ensures var r := PublishedAll(s, faults, names, published);
            && RunsTo(s, faults, r.state, r.ok)
            && (r.ok <==>
                  && Calm(faults, |s.trace|, |r.state.trace|)
                  && forall n :: n in names ==> Staged(n) in before)
            && NoDuplicates(r.names) && Progress(r.state.files, before, backed, Names(r.names))
            && (r.ok ==> r.names == published + names)
    decreases |names|
  {
    PlacedIsProgress(s.files, before, backed, names, published);
    if names == [] {
      assert published + names == published;
    } else {
      hide Placing, Progress, Names;
      var name := names[0];
      PlaceNext(s.files, before, backed, names, published);
      var check := Checked(s, faults, Target(name));
      OneRuns(s, faults, check.state, Check(Target(name)), check.ok);
      assert names == [name] + names[1..];
      var r := PublishedAll(s, faults, names, published);
      if check.ok {
        var move := Replaced(check.state, faults, Staged(name), Target(name));
        OneRuns(check.state, faults, move.state, Move(Staged(name), Target(name)), move.ok);
        Chains(s, faults, check.state, move.state, move.ok);
        if move.ok {
          assert published + names == published + [name] + names[1..];
          PublishRuns(move.state, faults, before, backed, names[1..], published + [name]);
          Chains(s, faults, move.state, r.state, r.ok);
        }
      }
    }
  }

  lemma {:induction false} CompareRuns(s: State, faults: Faults, names: seq<Name>, expected: map<Name, Content>)
    requires forall n: Name :: n in expected
    ensures var r := ComparedAll(s, faults, names, expected);
            && RunsTo(s, faults, r.state, r.ok) && r.state.files == s.files
            && (r.ok <==>
                  && Calm(faults, |s.trace|, |r.state.trace|)
                  && forall n :: n in names ==> At(s.files, Target(n)) == Some(Regular(expected[n])))
    decreases |names|
  {
    if names != [] {
      var same := Compared(s, faults, Target(names[0]), expected[names[0]]);
      OneRuns(s, faults, same.state, Digest(Target(names[0])), same.ok);
      assert names == [names[0]] + names[1..];
      if same.ok {
        var r := ComparedAll(same.state, faults, names[1..], expected);
        CompareRuns(same.state, faults, names[1..], expected);
        Chains(s, faults, same.state, r.state, r.ok);
      }
    }
  }

  /** Every output is staged with the content its digest stands for. */
  ghost predicate StagedRight(files: Files, expected: map<Name, Content>)
    requires forall n: Name :: n in expected
  {
    forall n :: At(files, Staged(n)) == Some(Regular(expected[n]))
  }

  /** Every target has the content its digest stands for. */
  ghost predicate InPlace(files: Files, expected: map<Name, Content>)
    requires forall n: Name :: n in expected
  {
    forall n :: At(files, Target(n)) == Some(Regular(expected[n]))
  }

  lemma CompareOrder(s: State, faults: Faults, expected: map<Name, Content>)
    requires forall n: Name :: n in expected
    ensures var r := ComparedAll(s, faults, ORDER, expected);
            && RunsTo(s, faults, r.state, r.ok) && r.state.files == s.files
            && (r.ok <==> Calm(faults, |s.trace|, |r.state.trace|) && InPlace(s.files, expected))
  {
    CompareRuns(s, faults, ORDER, expected);
    forall n ensures n in ORDER {
      Everyone(n);
    }
  }

  lemma Everyone(n: Name)
    ensures n in ORDER
  {
    match n
    case Pdf => assert ORDER[0] == n;
    case Tex => assert ORDER[1] == n;
    case Markdown => assert ORDER[2] == n;
    case Json => assert ORDER[3] == n;
  }

  lemma PublishedEverywhere(files: Files, before: Files, backed: set<Name>)
    requires Progress(files, before, backed, Names(ORDER))
    ensures forall n :: At(files, Target(n)) == At(before, Staged(n))
  {
    forall n: Name ensures At(files, Target(n)) == At(before, Staged(n)) {
      Everyone(n);
      assert NameAt(files, before, n, n in backed, n in Names(ORDER));
    }
  }

  lemma StartBacking(files: Files)
    ensures Backing(files, files, ORDER, [])
  {
    assert ORDER + [] == ORDER && Names([]) == {};
    forall n ensures n in ORDER {
      Everyone(n);
    }
  }

  lemma StartPlacing(files: Files, before: Files, backed: seq<Name>)
    requires Progress(files, before, Names(backed), {})
    requires forall n :: n !in backed ==> Target(n) !in before
    ensures Placing(files, before, Names(backed), ORDER, [])
  {
    assert [] + ORDER == ORDER && Names([]) == {};
  }

  /** The forward half goes through exactly without a fault and with every output staged right. */
  lemma ForwardRuns(s: State, faults: Faults, expected: map<Name, Content>, manifest: Content)
    requires forall n: Name :: n in expected
    ensures var r := Forward(s, faults, expected, manifest);
            && RunsTo(s, faults, r.state, r.ok)
            && (r.ok <==> Calm(faults, |s.trace|, |r.state.trace|) && StagedRight(s.files, expected))
            && (r.ok ==>
                  && InPlace(r.state.files, expected)
                  && At(r.state.files, Manifest) == Some(Regular(manifest)))
            && (!r.ok ==>
                  && NoDuplicates(r.backed) && NoDuplicates(r.published)
                  && Progress(r.state.files, s.files, Names(r.backed), Names(r.published)))
  {
    var r := Forward(s, faults, expected, manifest);
    var away := BackedUp(s, faults, ORDER, []);
    StartBacking(s.files);
    BackUpRuns(s, faults, s.files, ORDER, []);
    assert Names([]) == {};
    if away.ok {
      StartPlacing(away.state.files, s.files, away.names);
      AfterBackUp(s, faults, away, expected, manifest);
    }
  }

  /** The forward half after the backups. */
  lemma AfterBackUp(s: State, faults: Faults, away: Step, expected: map<Name, Content>, manifest: Content)
    requires forall n: Name :: n in expected
    requires away == BackedUp(s, faults, ORDER, []) && away.ok && RunsTo(s, faults, away.state, true)
    requires NoDuplicates(away.names) && Placing(away.state.files, s.files, Names(away.names), ORDER, [])
    ensures var r := Forward(s, faults, expected, manifest);
            && RunsTo(s, faults, r.state, r.ok)
            && (r.ok <==> Calm(faults, |s.trace|, |r.state.trace|) && StagedRight(s.files, expected))
            && (r.ok ==>
                  && InPlace(r.state.files, expected)
                  && At(r.state.files, Manifest) == Some(Regular(manifest)))
            && (!r.ok ==>
                  && NoDuplicates(r.published)
                  && Progress(r.state.files, s.files, Names(r.backed), Names(r.published)))
  {
    var r := Forward(s, faults, expected, manifest);
    var placed := PublishedAll(away.state, faults, ORDER, []);
    PublishRuns(away.state, faults, s.files, Names(away.names), ORDER, []);
    Chains(s, faults, away.state, placed.state, placed.ok);
    forall n ensures n in ORDER {
      Everyone(n);
    }
    hide Placing, BackedUp, PublishedAll, Progress, Names;
    if placed.ok {
      assert [] + ORDER == ORDER;
      AfterPlacing(s, faults, away, placed, expected, manifest);
    }
  }

  lemma AfterPlacing(
    s: State, faults: Faults, away: Step, placed: Step, expected: map<Name, Content>, manifest: Content)
    requires forall n: Name :: n in expected
    requires away == BackedUp(s, faults, ORDER, []) && away.ok
    requires placed == PublishedAll(away.state, faults, ORDER, []) && placed.ok && placed.names == ORDER
    requires RunsTo(s, faults, placed.state, true)
    requires Progress(placed.state.files, s.files, Names(away.names), Names(ORDER))
    ensures var r := Forward(s, faults, expected, manifest);
            && RunsTo(s, faults, r.state, r.ok)
            && (r.ok <==> Calm(faults, |s.trace|, |r.state.trace|) && StagedRight(s.files, expected))
            && (r.ok ==>
                  && InPlace(r.state.files, expected)
                  && At(r.state.files, Manifest) == Some(Regular(manifest)))
            && (!r.ok ==> r.state.files == placed.state.files)
  {
    ForwardIs(s, faults, away, placed, expected, manifest);
    var same := ComparedAll(placed.state, faults, ORDER, expected);
    CompareOrder(placed.state, faults, expected);
    PublishedEverywhere(placed.state.files, s.files, Names(away.names));
    RightInPlace(placed.state.files, s.files, expected);
    hide BackedUp, PublishedAll, ComparedAll, Progress, Names, Forward, StagedRight, InPlace, At;
    Chains(s, faults, placed.state, same.state, same.ok);
    if same.ok {
      var end := Written(same.state, faults, manifest);
      WriteKeepsPlaces(same.state, faults, expected, manifest);
      hide Written, Fails;
      OneRuns(same.state, faults, end.state, Write, end.ok);
      Chains(s, faults, same.state, end.state, end.ok);
    }
  }

  lemma WriteKeepsPlaces(s: State, faults: Faults, expected: map<Name, Content>, manifest: Content)
    requires forall n: Name :: n in expected
    requires InPlace(s.files, expected)
    ensures var r := Written(s, faults, manifest);
            && InPlace(r.state.files, expected)
            && (r.ok ==> At(r.state.files, Manifest) == Some(Regular(manifest)))
            && (r.ok <==> !Fails(s, faults))
            && r.state.trace == s.trace + [Write]
            && (!r.ok ==> r.state.files == s.files)
  {
  }

  lemma RightInPlace(files: Files, before: Files, expected: map<Name, Content>)
    requires forall n: Name :: n in expected
    requires forall n :: At(files, Target(n)) == At(before, Staged(n))
    ensures InPlace(files, expected) <==> StagedRight(before, expected)
  {
    assert forall n :: At(files, Target(n)) == At(before, Staged(n));
  }

  lemma ForwardIs(
    s: State, faults: Faults, away: Step, placed: Step, expected: map<Name, Content>, manifest: Content)
    requires forall n: Name :: n in expected
    requires away == BackedUp(s, faults, ORDER, []) && away.ok
    requires placed == PublishedAll(away.state, faults, ORDER, []) && placed.ok
    ensures var same := ComparedAll(placed.state, faults, ORDER, expected);
            var end := if same.ok then Written(same.state, faults, manifest) else same;
            Forward(s, faults, expected, manifest) == Attempt(end.state, end.ok, away.names, placed.names)
  {
    hide BackedUp, PublishedAll, ComparedAll, Written;
  }

  // ---- Back: what the rollback reports ----

  lemma NothingFaulted(faults: Faults, trace: seq<Op>, query: bool)
    ensures !Faulted(faults, trace, |trace|, query)
  {
  }

  /** The trace grew by one operation. */
  lemma OneFaulted(s: State, faults: Faults, trace: seq<Op>, op: Op, query: bool)
    requires trace == s.trace + [op]
    ensures Faulted(faults, trace, |s.trace|, query) <==> op.Query? == query && Fails(s, faults)
  {
    if op.Query? == query && Fails(s, faults) {
      assert trace[|s.trace|] == op && faults(|s.trace|);
    }
  }

  lemma {:induction false} DiscardReports(s: State, faults: Faults, published: seq<Name>, errors: nat)
    requires NoDuplicates(published)
    ensures var r := DiscardedAll(s, faults, published, errors);
            && s.trace <= r.state.trace && r.errors >= errors
            && (r.aborted <==> Faulted(faults, r.state.trace, |s.trace|, true))
            && (!r.aborted ==>
                  (r.errors == errors <==>
                     && !Faulted(faults, r.state.trace, |s.trace|, false)
                     && forall n :: n in published ==> At(s.files, Target(n)) != Some(Irregular)))
    decreases |published|
  {
    var r := DiscardedAll(s, faults, published, errors);
    if published == [] {
      NothingFaulted(faults, s.trace, true);
      NothingFaulted(faults, s.trace, false);
    } else {
      var rest, name := published[..|published| - 1], published[|published| - 1];
      assert published == rest + [name] && name !in rest;
      var (seen, look) := Looked(s, faults, Target(name));
      OneFaulted(s, faults, seen.trace, Query(Target(name)), true);
      OneFaulted(s, faults, seen.trace, Query(Target(name)), false);
      if look == Missing {
        DiscardReports(seen, faults, rest, errors);
        Split(faults, s.trace, seen.trace, r.state.trace);
      } else if look == Found {
        var move := DiscardedOne(seen, faults, name);
        DiscardOneReports(seen, faults, name, rest);
        DiscardReports(move.state, faults, rest, if move.ok then errors else errors + 1);
        Split(faults, s.trace, seen.trace, move.state.trace);
        Split(faults, s.trace, move.state.trace, r.state.trace);
      }
    }
  }

  lemma Split(faults: Faults, first: seq<Op>, second: seq<Op>, third: seq<Op>)
    requires first <= second <= third
    ensures forall query :: Faulted(faults, third, |first|, query) <==>
              Faulted(faults, second, |first|, query) || Faulted(faults, third, |second|, query)
  {
    forall query ensures Faulted(faults, third, |first|, query) <==>
              Faulted(faults, second, |first|, query) || Faulted(faults, third, |second|, query)
    {
      FaultedSplits(faults, second, third, |first|, query);
    }
  }

  lemma DiscardOneReports(s: State, faults: Faults, name: Name, rest: seq<Name>)
    requires Target(name) in s.files && name !in rest
    ensures var r := DiscardedOne(s, faults, name);
            && s.trace <= r.state.trace && !Faulted(faults, r.state.trace, |s.trace|, true)
            && (r.ok <==>
                  !Faulted(faults, r.state.trace, |s.trace|, false) && At(s.files, Target(name)) != Some(Irregular))
            && (forall n :: n in rest ==> At(r.state.files, Target(n)) == At(s.files, Target(n)))
  {
    var check := Checked(s, faults, Target(name));
    var op := Move(Target(name), Discarded(name));
    OneFaulted(s, faults, check.state.trace, Check(Target(name)), true);
    OneFaulted(s, faults, check.state.trace, Check(Target(name)), false);
    if check.ok {
      var r := Replaced(check.state, faults, Target(name), Discarded(name));
      OneFaulted(check.state, faults, r.state.trace, op, true);
      OneFaulted(check.state, faults, r.state.trace, op, false);
      Split(faults, s.trace, check.state.trace, r.state.trace);
    }
  }

  /** A discarding without error undoes the placing. */
  lemma {:induction false} DiscardUndoes(
    s: State, faults: Faults, before: Files, backed: set<Name>, published: seq<Name>)
    requires NoDuplicates(published) && UndoProgress(s.files, before, backed, Names(published))
    requires var r := DiscardedAll(s, faults, published, 0); !r.aborted && r.errors == 0
    ensures UndoProgress(DiscardedAll(s, faults, published, 0).state.files, before, backed, {})
    decreases |published|
  {
    if published == [] {
      assert Names(published) == {};
    } else {
      var rest, name := published[..|published| - 1], published[|published| - 1];
      assert published == rest + [name] && name !in rest;
      assert Names(published) - {name} == Names(rest) && name in Names(published);
      hide UndoProgress, Names;
      var (seen, look) := Looked(s, faults, Target(name));
      if look == Missing {
        AlreadyGone(s.files, before, backed, Names(published), name);
        DiscardUndoes(seen, faults, before, backed, rest);
      } else {
        var move := DiscardedOne(seen, faults, name);
        ErrorsGrow(move.state, faults, rest, if move.ok then 0 else 1);
        DiscardOne(s.files, before, backed, Names(published), name);
        DiscardUndoes(move.state, faults, before, backed, rest);
      }
    }
  }

  lemma ErrorsGrow(s: State, faults: Faults, published: seq<Name>, errors: nat)
    requires NoDuplicates(published)
    ensures DiscardedAll(s, faults, published, errors).errors >= errors
  {
    DiscardReports(s, faults, published, errors);
  }

  lemma {:induction false} RestoreReports(s: State, faults: Faults, backed: seq<Name>, errors: nat)
    ensures var r := RestoredAll(s, faults, backed, errors);
            && s.trace <= r.state.trace && r.errors >= errors
            && (r.aborted <==> Faulted(faults, r.state.trace, |s.trace|, true))
    decreases |backed|
  {
    var r := RestoredAll(s, faults, backed, errors);
    if backed == [] {
      NothingFaulted(faults, s.trace, true);
    } else {
      var rest, name := backed[..|backed| - 1], backed[|backed| - 1];
      var (seen, look) := Looked(s, faults, Target(name));
      OneFaulted(s, faults, seen.trace, Query(Target(name)), true);
      if look == Found {
        RestoreReports(seen, faults, rest, errors + 1);
        Split(faults, s.trace, seen.trace, r.state.trace);
      } else if look == Missing {
        var move := Replaced(seen, faults, Previous(name), Target(name));
        OneFaulted(seen, faults, move.state.trace, Move(Previous(name), Target(name)), true);
        RestoreReports(move.state, faults, rest, if move.ok then errors else errors + 1);
        Split(faults, s.trace, seen.trace, move.state.trace);
        Split(faults, s.trace, move.state.trace, r.state.trace);
      }
    }
  }

  /** With everything discarded, a restoring fails only by a fault, and without one undoes the backups. */
  lemma {:induction false} RestoreUndoes(s: State, faults: Faults, before: Files, backed: seq<Name>)
    requires NoDuplicates(backed) && UndoProgress(s.files, before, Names(backed), {})
    ensures var r := RestoredAll(s, faults, backed, 0);
            !r.aborted ==>
              && (r.errors == 0 <==> !Faulted(faults, r.state.trace, |s.trace|, false))
              && (r.errors == 0 ==> Untouched(r.state.files, before))
    decreases |backed|
  {
    var r := RestoredAll(s, faults, backed, 0);
    if backed == [] {
      NothingFaulted(faults, s.trace, false);
      assert Names(backed) == {};
      AllUndone(s.files, before);
    } else {
      var rest, name := backed[..|backed| - 1], backed[|backed| - 1];
      assert backed == rest + [name] && name !in rest;
      assert Names(backed) - {name} == Names(rest) && name in Names(backed);
      AwayAndKept(s.files, before, Names(backed), name);
      var (seen, look) := Looked(s, faults, Target(name));
      OneFaulted(s, faults, seen.trace, Query(Target(name)), false);
      hide UndoProgress, Names;
      if look != Fault {
        var move := Replaced(seen, faults, Previous(name), Target(name));
        OneFaulted(seen, faults, move.state.trace, Move(Previous(name), Target(name)), false);
        RestoreReports(move.state, faults, rest, if move.ok then 0 else 1);
        Split(faults, s.trace, seen.trace, move.state.trace);
        Split(faults, s.trace, move.state.trace, r.state.trace);
        if move.ok {
          RestoreOne(s.files, before, Names(backed), name);
          RestoreUndoes(move.state, faults, before, rest);
        }
      }
    }
  }

  lemma AwayAndKept(files: Files, before: Files, backed: set<Name>, name: Name)
    requires UndoProgress(files, before, backed, {}) && name in backed
    ensures Target(name) !in files && Previous(name) in files
  {
    var none: set<Name> := {};
    assert Undoing(files, before, name, name in backed, name in none);
  }

  /** A published output is not a regular file. */
  ghost predicate PublishedIrregular(before: Files, published: seq<Name>) {
    exists n :: n in published && At(before, Staged(n)) == Some(Irregular)
  }

  lemma PlacedContents(files: Files, before: Files, backed: set<Name>, published: seq<Name>)
    requires Progress(files, before, backed, Names(published))
    ensures forall n :: n in published ==> At(files, Target(n)) == At(before, Staged(n))
  {
    forall n | n in published ensures At(files, Target(n)) == At(before, Staged(n)) {
      assert n in Names(published);
      assert NameAt(files, before, n, n in backed, true);
    }
  }

  /** The outcome of a rollback, from what failed in it. */
  lemma RollBackReports(s: State, faults: Faults, before: Files, backed: seq<Name>, published: seq<Name>)
    requires NoDuplicates(backed) && NoDuplicates(published)
    requires Progress(s.files, before, Names(backed), Names(published))
    ensures var (end, outcome) := RolledBack(s, faults, backed, published);
            && s.trace <= end.trace
            && outcome in {Raised, RollbackFailed, RollbackAborted}
            && (outcome == RollbackAborted <==> Faulted(faults, end.trace, |s.trace|, true))
            && (outcome == Raised <==>
                  && Calm(faults, |s.trace|, |end.trace|)
                  && !PublishedIrregular(before, published))
            && (outcome == Raised ==> Untouched(end.files, before))
  {
    var discard := DiscardedAll(s, faults, published, 0);
    DiscardReports(s, faults, published, 0);
    PlacedContents(s.files, before, Names(backed), published);
    StartUndoing(s.files, before, Names(backed), Names(published));
    var (end, outcome) := RolledBack(s, faults, backed, published);
    CalmIsNoFault(faults, end.trace, |s.trace|);
    hide Progress, UndoProgress, Names, Calm;
    if !discard.aborted {
      RestoreReports(discard.state, faults, backed, discard.errors);
      Split(faults, s.trace, discard.state.trace, end.trace);
      if discard.errors == 0 {
        DiscardUndoes(s, faults, before, Names(backed), published);
        RestoreUndoes(discard.state, faults, before, backed);
      }
    }
  }
}
