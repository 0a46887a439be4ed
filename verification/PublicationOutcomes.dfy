/** When a publication returns, raises, blames its rollback, or aborts it: each outcome exactly, for
  * every state of the files and every schedule of faults. */
module PublicationOutcomes {
  import opened Wrappers
  import opened Publication
  import opened PublicationRuns

  // ---- The transaction ----

  lemma TransactionRuns(s: State, faults: Faults, expected: map<Name, Content>, manifest: Content)
    requires forall n: Name :: n in expected
    ensures var t := Transacted(s, faults, expected, manifest);
            && s.trace <= t.state.trace && |s.trace| <= t.start <= |t.state.trace|
            && (t.outcome != Returned ==>
                  && t.start > |s.trace| && Calm(faults, |s.trace|, t.start - 1)
                  && !(Calm(faults, |s.trace|, t.start)
                       && NoIrregularTarget(s.files) && StagedRight(s.files, expected)))
            && (t.outcome == Returned <==>
                  && Calm(faults, |s.trace|, |t.state.trace|)
                  && NoIrregularTarget(s.files) && StagedRight(s.files, expected))
            && (t.outcome == Returned ==>
                  && InPlace(t.state.files, expected)
                  && At(t.state.files, Manifest) == Some(Regular(manifest)))
            && (t.outcome == RollbackAborted <==> Faulted(faults, t.state.trace, t.start, true))
            && (t.outcome == Raised ==> Untouched(t.state.files, s.files))
            && (t.outcome == RollbackFailed <==>
                  && !Faulted(faults, t.state.trace, t.start, true)
                  && (Faulted(faults, t.state.trace, t.start, false) || PublishedIrregular(s.files, t.published)))
  {
    var t := Transacted(s, faults, expected, manifest);
    var check := Preflighted(s, faults, ORDER);
    PreflightRuns(s, faults, ORDER);
    forall n ensures n in ORDER {
      Everyone(n);
    }
    NothingFaulted(faults, check.state.trace, true);
    NothingFaulted(faults, check.state.trace, false);
    if check.ok {
      ForwardRuns(check.state, faults, expected, manifest);
      var attempt := Forward(check.state, faults, expected, manifest);
      Chains(s, faults, check.state, attempt.state, attempt.ok);
      NothingFaulted(faults, attempt.state.trace, true);
      NothingFaulted(faults, attempt.state.trace, false);
      if !attempt.ok {
        RollBackReports(attempt.state, faults, s.files, attempt.backed, attempt.published);
        CalmIsNoFault(faults, t.state.trace, t.start);
      }
    }
  }

  /** It returns exactly without a fault, over regular or missing targets and outputs staged right; then
    * every target holds its staged content and the final manifest is written. */
  lemma ReturnsExactly(s: State, faults: Faults, expected: map<Name, Content>, manifest: Content)
    requires forall n: Name :: n in expected
    ensures var t := Transacted(s, faults, expected, manifest);
            && (t.outcome == Returned <==>
                  && Calm(faults, |s.trace|, |t.state.trace|)
                  && NoIrregularTarget(s.files) && StagedRight(s.files, expected))
            && (t.outcome == Returned ==>
                  && (forall n :: At(t.state.files, Target(n)) == Some(Regular(expected[n])) == At(s.files, Staged(n)))
                  && At(t.state.files, Manifest) == Some(Regular(manifest)))
  {
    TransactionRuns(s, faults, expected, manifest);
  }

  /** The rollback is aborted exactly by a status query that fails inside it. */
  lemma AbortsExactly(s: State, faults: Faults, expected: map<Name, Content>, manifest: Content)
    requires forall n: Name :: n in expected
    ensures var t := Transacted(s, faults, expected, manifest);
            t.outcome == RollbackAborted <==> Faulted(faults, t.state.trace, t.start, true)
  {
    TransactionRuns(s, faults, expected, manifest);
  }

  /** The rollback is blamed exactly when another operation fails inside it, or it had to take back an
    * output that is not a regular file; and no status query fails inside it. */
  lemma BlamesRollbackExactly(s: State, faults: Faults, expected: map<Name, Content>, manifest: Content)
    requires forall n: Name :: n in expected
    ensures var t := Transacted(s, faults, expected, manifest);
            t.outcome == RollbackFailed <==>
              && !Faulted(faults, t.state.trace, t.start, true)
              && (Faulted(faults, t.state.trace, t.start, false) || PublishedIrregular(s.files, t.published))
  {
    TransactionRuns(s, faults, expected, manifest);
  }

  /** When nothing fails inside the rollback and the staged outputs are regular files, a publication that
    * does not return leaves everything as before. */
  lemma CleanRollbackRestores(s: State, faults: Faults, expected: map<Name, Content>, manifest: Content)
    requires forall n: Name :: n in expected
    requires forall n :: At(s.files, Staged(n)) != Some(Irregular)
    ensures var t := Transacted(s, faults, expected, manifest);
            Calm(faults, t.start, |t.state.trace|) && t.outcome != Returned ==>
              t.outcome == Raised && Untouched(t.state.files, s.files)
  {
    TransactionRuns(s, faults, expected, manifest);
    var t := Transacted(s, faults, expected, manifest);
    CalmIsNoFault(faults, t.state.trace, t.start);
  }

  /** A single fault, wherever it falls, is undone: over regular targets and outputs staged right there
    * is either no fault, and it returns, or one, and everything is as before. */
  lemma OneFaultIsUndone(s: State, faults: Faults, expected: map<Name, Content>, manifest: Content, only: nat)
    requires forall n: Name :: n in expected
    requires NoIrregularTarget(s.files) && StagedRight(s.files, expected)
    requires forall k: nat :: k >= |s.trace| && faults(k) ==> k == only
    ensures var t := Transacted(s, faults, expected, manifest);
            && (t.outcome == Returned <==> !(|s.trace| <= only < |t.state.trace| && faults(only)))
            && (t.outcome != Returned ==> t.outcome == Raised && Untouched(t.state.files, s.files))
  {
    TransactionRuns(s, faults, expected, manifest);
    var t := Transacted(s, faults, expected, manifest);
    if t.outcome != Returned {
      StopsAtFault(s, faults, expected, manifest);
      assert Calm(faults, t.start, |t.state.trace|);
      CleanRollbackRestores(s, faults, expected, manifest);
    }
  }

  /** With nothing amiss but faults, the operation before the rollback is the one that failed. */
  lemma StopsAtFault(s: State, faults: Faults, expected: map<Name, Content>, manifest: Content)
    requires forall n: Name :: n in expected
    requires NoIrregularTarget(s.files) && StagedRight(s.files, expected)
    ensures var t := Transacted(s, faults, expected, manifest);
            t.outcome != Returned ==> t.start > |s.trace| && faults(t.start - 1)
  {
    hide *;
    TransactionRuns(s, faults, expected, manifest);
    var t := Transacted(s, faults, expected, manifest);
    if t.outcome != Returned {
      var from, to := |s.trace|, t.start;
      assert Calm(faults, from, to - 1) && !Calm(faults, from, to);
      CalmStops(faults, from, to);
    }
  }

  lemma CalmStops(faults: Faults, from: nat, to: nat)
    requires from < to && Calm(faults, from, to - 1) && !Calm(faults, from, to)
    ensures faults(to - 1)
  {
  }

  // ---- When the promise is kept ----

  /** Published in full, or an error with everything as before, or the explicit rollback error. */
  ghost predicate Promised(s: State, t: Transaction, expected: map<Name, Content>, manifest: Content)
    requires forall n: Name :: n in expected
  {
    match t.outcome
    case Returned => InPlace(t.state.files, expected) && At(t.state.files, Manifest) == Some(Regular(manifest))
    case RollbackFailed => true
    case _ => Untouched(t.state.files, s.files)
  }

  /** The target is missing or holds the new output. */
  ghost predicate Away(files: Files, before: Files, n: Name) {
    At(files, Target(n)) in {None, At(before, Staged(n))}
  }

  lemma {:induction false} DiscardKeepsAway(
    s: State, faults: Faults, before: Files, published: seq<Name>, errors: nat, n: Name)
    requires Away(s.files, before, n)
    ensures Away(DiscardedAll(s, faults, published, errors).state.files, before, n)
    decreases |published|
  {
    if published != [] {
      var rest, name := published[..|published| - 1], published[|published| - 1];
      var (seen, look) := Looked(s, faults, Target(name));
      if look == Missing {
        DiscardKeepsAway(seen, faults, before, rest, errors, n);
      } else if look == Found {
        var move := DiscardedOne(seen, faults, name);
        DiscardKeepsAway(move.state, faults, before, rest, if move.ok then errors else errors + 1, n);
      }
    }
  }

  /** An aborted discarding leaves a new output in place. */
  lemma {:induction false} AbortedDiscard(
    s: State, faults: Faults, before: Files, published: seq<Name>, errors: nat) returns (n: Name)
    requires NoDuplicates(published) && DiscardedAll(s, faults, published, errors).aborted
    requires forall m :: m in published ==> At(s.files, Target(m)) == At(before, Staged(m))
    ensures n in published
    ensures At(DiscardedAll(s, faults, published, errors).state.files, Target(n)) == At(before, Staged(n))
    decreases |published|
  {
    var rest, name := published[..|published| - 1], published[|published| - 1];
    assert published == rest + [name] && name !in rest;
    var (seen, look) := Looked(s, faults, Target(name));
    if look == Fault {
      n := name;
    } else if look == Missing {
      n := AbortedDiscard(seen, faults, before, rest, errors);
    } else {
      var move := DiscardedOne(seen, faults, name);
      n := AbortedDiscard(move.state, faults, before, rest, if move.ok then errors else errors + 1);
    }
  }

  /** An aborted restoring leaves a previous target away. */
  lemma {:induction false} AbortedRestore(
    s: State, faults: Faults, before: Files, backed: seq<Name>, errors: nat) returns (n: Name)
    requires NoDuplicates(backed) && RestoredAll(s, faults, backed, errors).aborted
    requires forall m :: m in backed ==> Away(s.files, before, m)
    ensures n in backed && Away(RestoredAll(s, faults, backed, errors).state.files, before, n)
    decreases |backed|
  {
    var rest, name := backed[..|backed| - 1], backed[|backed| - 1];
    assert backed == rest + [name] && name !in rest;
    var (seen, look) := Looked(s, faults, Target(name));
    if look == Fault {
      n := name;
    } else if look == Found {
      n := AbortedRestore(seen, faults, before, rest, errors + 1);
    } else {
      var move := Replaced(seen, faults, Previous(name), Target(name));
      forall m | m in rest ensures Away(move.state.files, before, m) {
        assert m in backed && m != name;
        assert Away(s.files, before, m);
      }
      n := AbortedRestore(move.state, faults, before, rest, if move.ok then errors else errors + 1);
    }
  }

  /** A rollback that is aborted leaves something changed, when every output is news. */
  lemma AbortedRollbackShows(s: State, faults: Faults, before: Files, backed: seq<Name>, published: seq<Name>)
    requires NoDuplicates(backed) && NoDuplicates(published)
    requires Progress(s.files, before, Names(backed), Names(published))
    requires forall n :: Staged(n) in before ==> At(before, Target(n)) != At(before, Staged(n))
    requires RolledBack(s, faults, backed, published).1 == RollbackAborted
    ensures !Untouched(RolledBack(s, faults, backed, published).0.files, before)
  {
    var discard := DiscardedAll(s, faults, published, 0);
    PlacedContents(s.files, before, Names(backed), published);
    PlacedAreAway(s.files, before, backed, published);
    hide Progress, Names;
    if discard.aborted {
      var n := AbortedDiscard(s, faults, before, published, 0);
    } else {
      forall n | n in backed ensures Away(discard.state.files, before, n) {
        DiscardKeepsAway(s, faults, before, published, 0, n);
      }
      var n := AbortedRestore(discard.state, faults, before, backed, discard.errors);
    }
  }

  lemma PlacedAreAway(files: Files, before: Files, backed: seq<Name>, published: seq<Name>)
    requires Progress(files, before, Names(backed), Names(published))
    ensures forall n :: n in backed ==> Away(files, before, n) && Target(n) in before
    ensures forall n :: n in published ==> Staged(n) in before
  {
    forall n: Name
      ensures n in backed ==> Away(files, before, n) && Target(n) in before
      ensures n in published ==> Staged(n) in before
    {
      assert NameAt(files, before, n, n in Names(backed), n in Names(published));
    }
  }

  /** Whatever is published, equal outputs included: the promise is kept exactly when no status query
    * fails inside the rollback, or everything is as before all the same. */
  lemma PromiseKeptOrUntouched(s: State, faults: Faults, expected: map<Name, Content>, manifest: Content)
    requires forall n: Name :: n in expected
    ensures var t := Transacted(s, faults, expected, manifest);
            Promised(s, t, expected, manifest) <==>
              !Faulted(faults, t.state.trace, t.start, true) || Untouched(t.state.files, s.files)
  {
    TransactionRuns(s, faults, expected, manifest);
    hide Transacted, Faulted, Untouched, InPlace, At;
  }

  /** Publishing outputs that are news, the promise is kept exactly when no status query fails inside
    * the rollback. */
  lemma PromiseKeptExactly(s: State, faults: Faults, expected: map<Name, Content>, manifest: Content)
    requires forall n: Name :: n in expected
    requires forall n :: Staged(n) in s.files ==> At(s.files, Target(n)) != At(s.files, Staged(n))
    ensures var t := Transacted(s, faults, expected, manifest);
            Promised(s, t, expected, manifest) <==> !Faulted(faults, t.state.trace, t.start, true)
  {
    TransactionRuns(s, faults, expected, manifest);
    var t := Transacted(s, faults, expected, manifest);
    if t.outcome == RollbackAborted {
      var check := Preflighted(s, faults, ORDER);
      PreflightRuns(s, faults, ORDER);
      ForwardRuns(check.state, faults, expected, manifest);
      var attempt := Forward(check.state, faults, expected, manifest);
      AbortedRollbackShows(attempt.state, faults, s.files, attempt.backed, attempt.published);
    }
  }

  /** A run in which it is not kept: the PDF has been moved away when the query of the TeX target fails,
    * and so does the query that opens the restoring of the PDF. */
  lemma AbortedRollbackLosesTarget(expected: map<Name, Content>, manifest: Content)
    requires forall n: Name :: n in expected
    ensures var s := State(map[Target(Pdf) := Regular("previous")], []);
            var t := Transacted(s, k => k == 6 || k == 7, expected, manifest);
            && t.outcome == RollbackAborted && t.start == 7
            && t.state.trace[6..] == [Query(Target(Tex)), Query(Target(Pdf))]
            && Target(Pdf) in s.files && Target(Pdf) !in t.state.files && !Promised(s, t, expected, manifest)
  {
    var s := State(map[Target(Pdf) := Regular("previous")], []);
    var faults: Faults := k => k == 6 || k == 7;
    var checks := [Check(Target(Pdf)), Check(Target(Tex)), Check(Target(Markdown)), Check(Target(Json))];
    var check := Preflighted(s, faults, ORDER);
    assert check == Tried(State(s.files, checks), true);
    var (seen, look) := Looked(check.state, faults, Target(Pdf));
    var move := Replaced(seen, faults, Target(Pdf), Previous(Pdf));
    assert move.ok;
    var away := BackedUp(check.state, faults, ORDER, []);
    assert away == BackedUp(move.state, faults, ORDER[1..], [Pdf]);
    assert away == Step(Did(move.state, Query(Target(Tex))), false, [Pdf]);
    var attempt := Forward(check.state, faults, expected, manifest);
    var discard := DiscardedAll(attempt.state, faults, [], 0);
    var restore := RestoredAll(discard.state, faults, [Pdf], 0);
    assert restore == Undone(Did(attempt.state, Query(Target(Pdf))), 0, true);
  }
}
