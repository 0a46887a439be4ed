/** Publication of one report set: four targets and a manifest, with rollback, when any file
  * operation may fail. */
module Publication {
  import opened Wrappers

  type Content = string

  datatype Name = Pdf | Tex | Markdown | Json

  const ORDER: seq<Name> := [Pdf, Tex, Markdown, Json]

  /** The targets and the manifest are in the output directory, the rest in a private stage. */
  datatype Path = Target(n: Name) | Manifest | Staged(n: Name) | Previous(n: Name) | Discarded(n: Name)

  /** `Irregular` is anything but a regular file. */
  datatype Entry = Regular(content: Content) | Irregular

  type Files = map<Path, Entry>

  datatype Look = Missing | Found | Fault

  function At(files: Files, path: Path): Option<Entry> {
    if path in files then Some(files[path]) else None
  }

  // ---- Operations that may fail ----

  datatype Op = Query(path: Path) | Check(path: Path) | Move(from: Path, to: Path) | Digest(path: Path) | Write

  /** Which operations fail, by number; the operations tried so far number the next one. */
  type Faults = nat -> bool

  datatype State = State(files: Files, trace: seq<Op>)

  datatype Tried = Tried(state: State, ok: bool)

  predicate Fails(s: State, faults: Faults) {
    faults(|s.trace|)
  }

  function Did(s: State, op: Op): State {
    State(s.files, s.trace + [op])
  }

  function Looked(s: State, faults: Faults, path: Path): (State, Look) {
    (Did(s, Query(path)), if Fails(s, faults) then Fault else if path in s.files then Found else Missing)
  }

  /** Accepts a missing or regular target. */
  function Checked(s: State, faults: Faults, path: Path): Tried {
    Tried(Did(s, Check(path)), !Fails(s, faults) && At(s.files, path) != Some(Irregular))
  }

  function Moved(files: Files, from: Path, to: Path): Files
    requires from in files
  {
    (files - {from})[to := files[from]]
  }

  function Replaced(s: State, faults: Faults, from: Path, to: Path): Tried {
    if Fails(s, faults) || from !in s.files then Tried(Did(s, Move(from, to)), false)
    else Tried(State(Moved(s.files, from, to), s.trace + [Move(from, to)]), true)
  }

  /** Compares the digest of a file; digests are as good as contents. */
  function Compared(s: State, faults: Faults, path: Path, content: Content): Tried {
    Tried(Did(s, Digest(path)), !Fails(s, faults) && At(s.files, path) == Some(Regular(content)))
  }

  /** All or nothing. */
  function Written(s: State, faults: Faults, content: Content): Tried {
    if Fails(s, faults) then Tried(Did(s, Write), false)
    else Tried(State(s.files[Manifest := Regular(content)], s.trace + [Write]), true)
  }

  /** The file system. A failing operation changes nothing. */
  class Disk {
    const faults: Faults
    var files: Files
    var trace: seq<Op>

    function Now(): State
      reads this
    {
      State(files, trace)
    }

    constructor (files: Files, faults: Faults)
      ensures Now() == State(files, []) && this.faults == faults
    {
      this.files, this.trace, this.faults := files, [], faults;
    }

    method Lstat(path: Path) returns (look: Look)
      modifies this
      ensures (Now(), look) == Looked(old(Now()), faults, path)
    {
      look := if faults(|trace|) then Fault else if path in files then Found else Missing;
      trace := trace + [Query(path)];
    }

    method CheckTarget(path: Path) returns (ok: bool)
      modifies this
      ensures Tried(Now(), ok) == Checked(old(Now()), faults, path)
    {
      ok := !faults(|trace|) && At(files, path) != Some(Irregular);
      trace := trace + [Check(path)];
    }

    method Replace(from: Path, to: Path) returns (ok: bool)
      modifies this
      ensures Tried(Now(), ok) == Replaced(old(Now()), faults, from, to)
    {
      ok := !faults(|trace|) && from in files;
      if ok {
        files := (files - {from})[to := files[from]];
      }
      trace := trace + [Move(from, to)];
    }

    method HasContent(path: Path, content: Content) returns (ok: bool)
      modifies this
      ensures Tried(Now(), ok) == Compared(old(Now()), faults, path, content)
    {
      ok := !faults(|trace|) && At(files, path) == Some(Regular(content));
      trace := trace + [Digest(path)];
    }

    method WriteManifest(content: Content) returns (ok: bool)
      modifies this
      ensures Tried(Now(), ok) == Written(old(Now()), faults, content)
    {
      ok := !faults(|trace|);
      if ok {
        files := files[Manifest := Regular(content)];
      }
      trace := trace + [Write];
    }
  }

  // ---- The transaction as a function of the files and the faults ----

  datatype Outcome =
    | Returned
    | Raised            // the fault or mismatch itself
    | RollbackFailed    // the explicit error that lists what could not be undone
    | RollbackAborted   // a status query failed inside the rollback, and its error escapes

  datatype Step = Step(state: State, ok: bool, names: seq<Name>)

  function Preflighted(s: State, faults: Faults, names: seq<Name>): Tried
    decreases |names|
  {
    if names == [] then Tried(s, true)
    else
      var check := Checked(s, faults, Target(names[0]));
      if check.ok then Preflighted(check.state, faults, names[1..]) else check
  }

  /** Moves the existing targets away, in order, up to the first fault. */
  function BackedUp(s: State, faults: Faults, names: seq<Name>, backed: seq<Name>): Step
    decreases |names|
  {
    if names == [] then Step(s, true, backed)
    else
      var (seen, look) := Looked(s, faults, Target(names[0]));
      if look == Fault then Step(seen, false, backed)
      else if look == Missing then BackedUp(seen, faults, names[1..], backed)
      else
        var move := Replaced(seen, faults, Target(names[0]), Previous(names[0]));
        if move.ok then BackedUp(move.state, faults, names[1..], backed + [names[0]])
        else Step(move.state, false, backed)
  }

  function PublishedOne(s: State, faults: Faults, name: Name): Tried {
    var check := Checked(s, faults, Target(name));
    if check.ok then Replaced(check.state, faults, Staged(name), Target(name)) else check
  }

  /** Moves the staged files to their targets, in order, up to the first fault. */
  function PublishedAll(s: State, faults: Faults, names: seq<Name>, published: seq<Name>): Step
    decreases |names|
  {
    if names == [] then Step(s, true, published)
    else
      var move := PublishedOne(s, faults, names[0]);
      if move.ok then PublishedAll(move.state, faults, names[1..], published + [names[0]])
      else Step(move.state, false, published)
  }

  function ComparedAll(s: State, faults: Faults, names: seq<Name>, expected: map<Name, Content>): Tried
    requires forall n: Name :: n in expected
    decreases |names|
  {
    if names == [] then Tried(s, true)
    else
      var same := Compared(s, faults, Target(names[0]), expected[names[0]]);
      if same.ok then ComparedAll(same.state, faults, names[1..], expected) else same
  }

  datatype Attempt = Attempt(state: State, ok: bool, backed: seq<Name>, published: seq<Name>)

  function Forward(s: State, faults: Faults, expected: map<Name, Content>, manifest: Content): Attempt
    requires forall n: Name :: n in expected
  {
    var away := BackedUp(s, faults, ORDER, []);
    if !away.ok then Attempt(away.state, false, away.names, [])
    else
      var placed := PublishedAll(away.state, faults, ORDER, []);
      if !placed.ok then Attempt(placed.state, false, away.names, placed.names)
      else
        var same := ComparedAll(placed.state, faults, ORDER, expected);
        var end := if same.ok then Written(same.state, faults, manifest) else same;
        Attempt(end.state, end.ok, away.names, placed.names)
  }

  datatype Undone = Undone(state: State, errors: nat, aborted: bool)

  function DiscardedOne(s: State, faults: Faults, name: Name): Tried {
    var check := Checked(s, faults, Target(name));
    if check.ok then Replaced(check.state, faults, Target(name), Discarded(name)) else check
  }

  /** Moves what was published out of the way, newest first. */
  function DiscardedAll(s: State, faults: Faults, published: seq<Name>, errors: nat): Undone
    decreases |published|
  {
    if published == [] then Undone(s, errors, false)
    else
      var rest, name := published[..|published| - 1], published[|published| - 1];
      var (seen, look) := Looked(s, faults, Target(name));
      if look == Fault then Undone(seen, errors, true)
      else if look == Missing then DiscardedAll(seen, faults, rest, errors)
      else
        var move := DiscardedOne(seen, faults, name);
        DiscardedAll(move.state, faults, rest, if move.ok then errors else errors + 1)
  }

  /** Moves the backups back, newest first. */
  function RestoredAll(s: State, faults: Faults, backed: seq<Name>, errors: nat): Undone
    decreases |backed|
  {
    if backed == [] then Undone(s, errors, false)
    else
      var rest, name := backed[..|backed| - 1], backed[|backed| - 1];
      var (seen, look) := Looked(s, faults, Target(name));
      if look == Fault then Undone(seen, errors, true)
      else if look == Found then RestoredAll(seen, faults, rest, errors + 1)
      else
        var move := Replaced(seen, faults, Previous(name), Target(name));
        RestoredAll(move.state, faults, rest, if move.ok then errors else errors + 1)
  }

  function RolledBack(s: State, faults: Faults, backed: seq<Name>, published: seq<Name>): (State, Outcome) {
    var discard := DiscardedAll(s, faults, published, 0);
    if discard.aborted then (discard.state, RollbackAborted)
    else
      var restore := RestoredAll(discard.state, faults, backed, discard.errors);
      (restore.state,
       if restore.aborted then RollbackAborted else if restore.errors > 0 then RollbackFailed else Raised)
  }

  /** `start` is the number of the first operation of the rollback, if there is one; `published` are
    * the outputs that had been moved into place. */
  datatype Transaction = Transaction(state: State, outcome: Outcome, start: nat, published: seq<Name>)

  function Transacted(s: State, faults: Faults, expected: map<Name, Content>, manifest: Content): Transaction
    requires forall n: Name :: n in expected
  {
    var check := Preflighted(s, faults, ORDER);
    if !check.ok then Transaction(check.state, Raised, |check.state.trace|, [])
    else
      var attempt := Forward(check.state, faults, expected, manifest);
      var start := |attempt.state.trace|;
      if attempt.ok then Transaction(attempt.state, Returned, start, attempt.published)
      else
        var (end, outcome) := RolledBack(attempt.state, faults, attempt.backed, attempt.published);
        Transaction(end, outcome, start, attempt.published)
  }

  // ---- The code ----

  method BackUp(disk: Disk) returns (ok: bool, backed: seq<Name>)
    modifies disk
    ensures Step(disk.Now(), ok, backed) == BackedUp(old(disk.Now()), disk.faults, ORDER, [])
  {
    backed := [];
    ghost var end := BackedUp(disk.Now(), disk.faults, ORDER, []);
    assert ORDER[0..] == ORDER;
    for k := 0 to |ORDER|
      invariant BackedUp(disk.Now(), disk.faults, ORDER[k..], backed) == end
    {
      assert ORDER[k..][0] == ORDER[k] && ORDER[k..][1..] == ORDER[k + 1..];
      var look := disk.Lstat(Target(ORDER[k]));
      if look == Fault {
        return false, backed;
      }
      if look == Found {
        var moved := disk.Replace(Target(ORDER[k]), Previous(ORDER[k]));
        if !moved {
          return false, backed;
        }
        backed := backed + [ORDER[k]];
      }
    }
    return true, backed;
  }

  method Publish(disk: Disk, name: Name) returns (ok: bool)
    modifies disk
    ensures Tried(disk.Now(), ok) == PublishedOne(old(disk.Now()), disk.faults, name)
  {
    ok := disk.CheckTarget(Target(name));
    if ok {
      ok := disk.Replace(Staged(name), Target(name));
    }
  }

  method PublishAll(disk: Disk) returns (ok: bool, published: seq<Name>)
    modifies disk
    ensures Step(disk.Now(), ok, published) == PublishedAll(old(disk.Now()), disk.faults, ORDER, [])
  {
    published := [];
    ghost var end := PublishedAll(disk.Now(), disk.faults, ORDER, []);
    assert ORDER[0..] == ORDER;
    for k := 0 to |ORDER|
      invariant PublishedAll(disk.Now(), disk.faults, ORDER[k..], published) == end
    {
      assert ORDER[k..][0] == ORDER[k] && ORDER[k..][1..] == ORDER[k + 1..];
      ok := Publish(disk, ORDER[k]);
      if !ok {
        return false, published;
      }
      published := published + [ORDER[k]];
    }
    return true, published;
  }

  method CheckDigests(disk: Disk, expected: map<Name, Content>) returns (ok: bool)
    requires forall n: Name :: n in expected
    modifies disk
    ensures Tried(disk.Now(), ok) == ComparedAll(old(disk.Now()), disk.faults, ORDER, expected)
  {
    ghost var end := ComparedAll(disk.Now(), disk.faults, ORDER, expected);
    assert ORDER[0..] == ORDER;
    for k := 0 to |ORDER|
      invariant ComparedAll(disk.Now(), disk.faults, ORDER[k..], expected) == end
    {
      assert ORDER[k..][0] == ORDER[k] && ORDER[k..][1..] == ORDER[k + 1..];
      ok := disk.HasContent(Target(ORDER[k]), expected[ORDER[k]]);
      if !ok {
        return false;
      }
    }
    return true;
  }

  method Preflight(disk: Disk) returns (ok: bool)
    modifies disk
    ensures Tried(disk.Now(), ok) == Preflighted(old(disk.Now()), disk.faults, ORDER)
  {
    ghost var end := Preflighted(disk.Now(), disk.faults, ORDER);
    assert ORDER[0..] == ORDER;
    for k := 0 to |ORDER|
      invariant Preflighted(disk.Now(), disk.faults, ORDER[k..]) == end
    {
      assert ORDER[k..][0] == ORDER[k] && ORDER[k..][1..] == ORDER[k + 1..];
      ok := disk.CheckTarget(Target(ORDER[k]));
      if !ok {
        return false;
      }
    }
    return true;
  }

  method Discard(disk: Disk, published: seq<Name>) returns (errors: nat, aborted: bool)
    modifies disk
    ensures Undone(disk.Now(), errors, aborted) == DiscardedAll(old(disk.Now()), disk.faults, published, 0)
  {
    errors, aborted := 0, false;
    ghost var end := DiscardedAll(disk.Now(), disk.faults, published, 0);
    var k := |published|;
    assert published[..k] == published;
    while k > 0
      invariant k <= |published|
      invariant DiscardedAll(disk.Now(), disk.faults, published[..k], errors) == end
    {
      k := k - 1;
      var name := published[k];
      assert published[..k + 1][k] == name && published[..k + 1][..k] == published[..k];
      var look := disk.Lstat(Target(name));
      if look == Fault {
        return errors, true;
      }
      if look == Found {
        var fine := disk.CheckTarget(Target(name));
        if fine {
          fine := disk.Replace(Target(name), Discarded(name));
        }
        if !fine {
          errors := errors + 1;
        }
      }
    }
  }

  method Restore(disk: Disk, backed: seq<Name>, earlier: nat) returns (errors: nat, aborted: bool)
    modifies disk
    ensures Undone(disk.Now(), errors, aborted) == RestoredAll(old(disk.Now()), disk.faults, backed, earlier)
  {
    errors, aborted := earlier, false;
    ghost var end := RestoredAll(disk.Now(), disk.faults, backed, earlier);
    var k := |backed|;
    assert backed[..k] == backed;
    while k > 0
      invariant k <= |backed|
      invariant RestoredAll(disk.Now(), disk.faults, backed[..k], errors) == end
    {
      k := k - 1;
      var name := backed[k];
      assert backed[..k + 1][k] == name && backed[..k + 1][..k] == backed[..k];
      var look := disk.Lstat(Target(name));
      if look == Fault {
        return errors, true;
      }
      if look == Found {
        errors := errors + 1;       // the target unexpectedly exists
      } else {
        var fine := disk.Replace(Previous(name), Target(name));
        if !fine {
          errors := errors + 1;
        }
      }
    }
  }

  /** Undoes what was done, and says how that went. */
  method RollBack(disk: Disk, backed: seq<Name>, published: seq<Name>) returns (outcome: Outcome)
    modifies disk
    ensures (disk.Now(), outcome) == RolledBack(old(disk.Now()), disk.faults, backed, published)
  {
    var errors, aborted := Discard(disk, published);
    if aborted {
      return RollbackAborted;
    }
    errors, aborted := Restore(disk, backed, errors);
    if aborted {
      return RollbackAborted;
    }
    return if errors > 0 then RollbackFailed else Raised;
  }

  /** Publishes one report set. `expected` are the contents that the digests stand for. */
  method PublishTransaction(disk: Disk, expected: map<Name, Content>, manifest: Content) returns (outcome: Outcome)
    requires forall n: Name :: n in expected
    modifies disk
    ensures var t := Transacted(old(disk.Now()), disk.faults, expected, manifest);
            disk.Now() == t.state && outcome == t.outcome
  {
    hide Preflighted, BackedUp, PublishedAll, ComparedAll, RolledBack;
    var ok := Preflight(disk);
    if !ok {
      return Raised;
    }
    var backed, published := [], [];
    ok, backed := BackUp(disk);
    if ok {
      ok, published := PublishAll(disk);
    }
    if ok {
      ok := CheckDigests(disk, expected);
    }
    if ok {
      ok := disk.WriteManifest(manifest);
    }
    if ok {
      return Returned;
    }
    outcome := RollBack(disk, backed, published);
  }
}
