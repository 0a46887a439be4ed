/** When the supervisor of one evaluator gives its claim back, and when the claim wrapper clears
  * the evaluator group from its claim, over every exit. Any call may fail or raise; what was last
  * learnt of the group is remembered. */
module EvaluatorRelease {
  import opened Wrappers

  /** How a termination or a quiescence check ends. */
  datatype Report = Quiesced | NotQuiesced | Raises

  /** How a block ends: it goes on, returns an exit code, or raises. */
  datatype Flow = Go(code: int) | Return(code: int) | Raise

  const CLEANUP_FAILED := 125

  datatype ClaimState = Held | Released

  // ---- The per-instance supervisor ----

  /** The last thing learnt of the evaluator group: nothing sure, a report that it is terminated or
    * quiet, that report and then a look that did not find it, or a look that found it alive. */
  datatype Evidence = Unknown | Reported | Gone | SeenAlive

  class Supervisor {
    var releaseOwned: bool
    var claim: ClaimState
    /** The group that the claim retains for a later cleanup, once that was persisted. */
    var retained: bool
    /** A stop of the evaluation has been requested; `stopInTime`: before the wait was over. */
    var stop: bool
    ghost var stopInTime: bool
    ghost var evidence: Evidence

    constructor ()
      ensures releaseOwned && claim == Held && !retained && evidence == Unknown
    {
      releaseOwned, claim, retained, stop, stopInTime, evidence := true, Held, false, false, false, Unknown;
    }

    ghost predicate Valid()
      reads this
    {
      claim == Held && (retained ==> !releaseOwned)
    }

    /** The claim may be given back only when the last word was a report of success. */
    ghost predicate Covered()
      reads this
    {
      releaseOwned ==> evidence == Reported || evidence == Gone
    }

    method Terminate() returns (r: Report)
      modifies this`evidence
      ensures evidence == if r == Quiesced then Reported else Unknown
    {
      var fine: bool := *;
      var raises: bool := *;
      r := if raises then Raises else if fine then Quiesced else NotQuiesced;
      evidence := if r == Quiesced then Reported else Unknown;
    }

    method GroupExists() returns (alive: bool)
      modifies this`evidence
      ensures evidence == if alive then SeenAlive else if old(evidence) == Reported then Gone else old(evidence)
    {
      alive := *;
      evidence := if alive then SeenAlive else if evidence == Reported then Gone else evidence;
    }

    /** From here on the claim is not given back, even if persisting that fails. */
    method RetainResidualClaim() returns (raised: bool)
      requires Valid()
      modifies this`releaseOwned, this`retained
      ensures Valid() && !releaseOwned && (!raised ==> retained || old(retained) == retained)
    {
      releaseOwned := false;
      var fails: bool := *;
      raised := fails;
      if !fails {
        var updated: bool := *;
        retained := retained || updated;
      }
    }

    method TerminateEvaluator() returns (r: Report)
      requires Valid()
      modifies this`releaseOwned, this`retained, this`evidence
      ensures Valid() && (r == Quiesced ==> evidence == Reported) && (r == NotQuiesced ==> !releaseOwned)
      ensures !old(releaseOwned) ==> !releaseOwned
    {
      r := Terminate();
      if r == NotQuiesced {
        var raised := RetainResidualClaim();
        if raised {
          r := Raises;
        }
      }
    }

    method Fails() returns (raises: bool) {
      raises := *;
    }

    /** Time passes, and a stop may be requested. */
    method LetPass()
      modifies this`stop
      ensures old(stop) ==> stop
    {
      var requested: bool := *;
      stop := stop || requested;
    }

    /** Terminates on an error or a stop request, and returns the code of the outcome. */
    method GiveUp(code: int) returns (flow: Flow)
      requires Valid() && code != 0
      modifies this`releaseOwned, this`retained, this`evidence
      ensures Valid() && !flow.Go? && (flow.Return? ==> Covered() && flow.code != 0)
      ensures flow.Return? && releaseOwned ==> evidence == Reported
      ensures !old(releaseOwned) ==> !releaseOwned
    {
      var noted := Fails();                     // the line in the log
      if noted {
        return Raise;
      }
      var r := TerminateEvaluator();
      if r == Raises {
        return Raise;
      }
      flow := Return(if r == Quiesced then code else CLEANUP_FAILED);
    }

    /** Waits for the evaluator; a timeout or an error of the wait terminates it. */
    method Wait() returns (flow: Flow)
      requires Valid()
      modifies this`releaseOwned, this`retained, this`stop, this`stopInTime, this`evidence
      ensures Valid() && !flow.Return? && (flow.Go? && releaseOwned ==> evidence == Reported)
      ensures stopInTime ==> stop
    {
      LetPass();
      stopInTime := stop;
      var timedOut: bool := *;
      var raises := Fails();
      var interrupted: bool := *;
      if interrupted {
        return Raise;                           // no error that the wait itself handles
      }
      if timedOut || raises {
        flow := GiveUp(if timedOut then 124 else 4);
        return if flow.Return? then Go(flow.code) else Raise;
      }
      var returncode: int := *;
      var r := Terminate();                     // the quiescence check after the wait
      if r == Raises {
        // caught together with the errors of the wait
        flow := GiveUp(4);
        return if flow.Return? then Go(flow.code) else Raise;
      }
      if r == NotQuiesced {
        var raised := RetainResidualClaim();
        if raised {
          flow := GiveUp(4);
          return if flow.Return? then Go(flow.code) else Raise;
        }
        return Go(CLEANUP_FAILED);
      }
      return Go(returncode);
    }

    /** The body of the inner try block. After a stop requested before the wait was over, to go on takes
      * a look that did not find the group. */
    method Supervise() returns (flow: Flow)
      requires Valid()
      modifies this`releaseOwned, this`retained, this`stop, this`stopInTime, this`evidence
      ensures Valid() && (!flow.Raise? ==> Covered())
      ensures flow.Return? ==> flow.code != 0
      ensures flow.Go? && stopInTime && releaseOwned ==> evidence == Gone
    {
      LetPass();
      var raises := Fails();                    // the process set, the identity probe, the claim update
      if raises {
        return Raise;
      }
      var claimUpdated: bool := *;
      if !claimUpdated {
        flow := GiveUp(4);
        return;
      }
      if stop {
        flow := GiveUp(130);
        return;
      }
      raises := Fails();                        // the attempt identity
      if raises {
        flow := GiveUp(4);
        return;
      }
      flow := Wait();
      if flow.Raise? {
        return;
      }
      LetPass();
      if stop {
        var alive := GroupExists();
        if alive {
          var raised := RetainResidualClaim();
          if raised {
            return Raise;
          }
          flow := Go(CLEANUP_FAILED);
        }
      }
    }

    /** The inner try with its handler for everything raised. */
    method SuperviseAndCleanUp() returns (flow: Flow)
      requires Valid()
      modifies this`releaseOwned, this`retained, this`stop, this`stopInTime, this`evidence
      ensures Valid() && Covered()
      ensures flow.Return? ==> flow.code != 0
      ensures flow.Go? && stopInTime && releaseOwned ==> evidence == Gone
    {
      flow := Supervise();
      LetPass();
      if flow.Raise? {
        var r := Terminate();
        if r != Quiesced {
          var raised := RetainResidualClaim();
        }
      }
    }

    /** From the moment an evaluator handle exists to the end of the run. When a claim is given back,
      * the last report was that the group is terminated or quiet and it was not seen alive since;
      * in any other case the claim stays, whatever timed out, failed or was interrupted. An exit code
      * 0 although a stop was requested before the wait was over comes with a look that did not find the
      * group, or with the claim held; later requests are not heard. */
    method RunEvaluator() returns (code: Option<int>)
      requires Valid() && releaseOwned
      modifies this
      ensures claim == Released ==> evidence == Reported || evidence == Gone
      ensures evidence == Unknown || evidence == SeenAlive ==> claim == Held && !releaseOwned
      ensures retained ==> claim == Held
      ensures code == Some(0) && stopInTime ==> evidence == Gone || (claim == Held && !releaseOwned)
    {
      var flow := SuperviseAndCleanUp();
      LetPass();
      code := if flow.Raise? then None else Some(flow.code);
      if flow.Go? {
        var raises := Fails();                  // the report check, the final attempt identity
        if raises {
          code := None;
        }
      }
      if releaseOwned {
        var fails := Fails();                   // an error while giving back leaves the claim
        if !fails {
          claim := Released;
        }
      }
    }
  }

  // ---- The claim wrapper ----

  /** What a published claim says of the evaluator group. */
  datatype Published = Published(pid: nat, pgid: Option<nat>)

  class Wrapper {
    /** The claim document; `pgid` is `None` until the identity of the evaluator is entered. */
    var pid: nat
    var pgid: Option<nat>
    var written: seq<Published>
    ghost var reported: bool
    /** For each written claim, whether success had been reported by then. */
    ghost var reportedBy: seq<bool>

    constructor ()
      ensures pid == 0 && pgid == None && written == [] && !reported && reportedBy == []
    {
      pid, pgid, written, reported, reportedBy := 0, None, [], false, [];
    }

    /** No claim with a cleared group was written before a report of success, and no claim names
      * another group than `child`. */
    ghost predicate Valid(child: nat)
      reads this
    {
      && (pgid == Some(0) ==> reported)
      && |reportedBy| == |written|
      && (forall k :: 0 <= k < |written| && written[k].pgid == Some(0) ==> reportedBy[k])
      && (forall k :: 0 <= k < |written| && reportedBy[k] ==> reported)
      && pgid in {None, Some(child), Some(0)}
      && forall w :: w in written ==> w.pgid in {None, Some(child), Some(0)}
    }

    /** Writes the claim; an error leaves the claim on disk alone. */
    method WriteClaim(ghost child: nat) returns (raised: bool)
      requires Valid(child)
      modifies this`written, this`reportedBy
      ensures Valid(child) && (raised ==> written == old(written))
      ensures !raised ==> written == old(written) + [Published(pid, pgid)]
    {
      raised := *;
      if !raised {
        written := written + [Published(pid, pgid)];
        reportedBy := reportedBy + [reported];
      }
    }

    /** The claim and then the attempt; either write may raise. */
    method PublishBoth(ghost child: nat) returns (raised: bool)
      requires Valid(child)
      modifies this`written, this`reportedBy
      ensures Valid(child)
    {
      raised := WriteClaim(child);
      if !raised {
        raised := *;
      }
    }

    /** Whether the group is gone: it no longer exists, or its termination reported success. */
    method CleanUp(residual: bool) returns (quiesced: bool)
      modifies this`reported
      ensures reported == (old(reported) || quiesced) && (!residual ==> quiesced)
    {
      var terminated: bool := *;
      quiesced := !residual || terminated;
      reported := reported || quiesced;
    }

    /** Enters the final state: the owner is cleared, the group only when it was reported gone. */
    method EnterFinal(quiesced: bool, ghost child: nat)
      requires Valid(child) && (quiesced ==> reported)
      modifies this`pid, this`pgid
      ensures Valid(child) && pid == 0 && pgid == if quiesced then Some(0) else old(pgid)
    {
      pid := 0;
      if quiesced {
        pgid := Some(0);
      }
    }

    /** The main path: identity, heartbeats until the evaluator ends, final claim. */
    method Watch(own: nat, child: nat, heartbeats: nat) returns (raised: bool)
      requires Valid(child) && child > 0
      modifies this`pid, this`pgid, this`written, this`reported, this`reportedBy
      ensures Valid(child) && (old(reported) ==> reported)
    {
      raised := *;
      if raised {
        return;                                 // before the identity is entered
      }
      pid, pgid := own, Some(child);
      raised := PublishBoth(child);
      if raised {
        return;
      }
      for k := 0 to heartbeats
        invariant Valid(child) && pgid == Some(child) && (old(reported) ==> reported)
      {
        raised := PublishBoth(child);
        if raised {
          return;
        }
      }
      raised := *;
      if raised {
        return;                                 // a signal while waiting
      }
      var residual: bool := *;
      var quiesced := CleanUp(residual);
      EnterFinal(quiesced, child);
      raised := PublishBoth(child);
    }

    /** From the moment the evaluator is started. A claim whose evaluator group is cleared is only
      * ever written after the group was found gone or its termination reported success. */
    method RunEvaluator(own: nat, child: nat, heartbeats: nat)
      requires pgid == None && written == [] && reportedBy == [] && !reported && child > 0
      modifies this
      ensures |reportedBy| == |written|
      ensures forall k :: 0 <= k < |written| && written[k].pgid == Some(0) ==> reportedBy[k]
      ensures !reported ==> forall w :: w in written ==> w.pgid == Some(child) || w.pgid == None
    {
      var raised := Watch(own, child, heartbeats);
      if raised {
        var quiesced := CleanUp(true);
        EnterFinal(quiesced, child);
        raised := WriteClaim(child);
      }
    }
  }
}
