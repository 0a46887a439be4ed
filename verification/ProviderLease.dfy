/** A granted request slot inside one process: its descriptor, the response that owns it, and the
  * call that opens the upstream. */
module ProviderLease {
  import opened Wrappers

  /** How the wrapped opener ends; an HTTP error is a response too. */
  datatype Outcome = Opened | HttpError | Raises

  /** What the process has done, in order. */
  datatype Event = Asked(outcome: Outcome) | ResponseClosed(raised: bool) | FdOpened(fd: nat) | FdClosed(fd: nat)

  /** The process: its descriptor table, whose numbers are used again after a close, and its upstream. */
  class Process {
    var open: set<nat>
    ghost var events: seq<Event>

    constructor ()
      ensures open == {} && events == []
    {
      open, events := {}, [];
    }

    method Open(fd: nat)
      requires fd !in open
      modifies this
      ensures open == old(open) + {fd} && events == old(events) + [FdOpened(fd)]
    {
      open, events := open + {fd}, events + [FdOpened(fd)];
    }

    method Close(fd: nat)
      requires fd in open
      modifies this
      ensures open == old(open) - {fd} && events == old(events) + [FdClosed(fd)]
    {
      open, events := open - {fd}, events + [FdClosed(fd)];
    }

    /** The wrapped opener; any way it ends is possible. */
    method Ask() returns (outcome: Outcome)
      modifies this`events
      ensures events == old(events) + [Asked(outcome)]
    {
      outcome := *;
      events := events + [Asked(outcome)];
    }

    /** Closes an upstream response, which may raise. */
    method CloseResponse() returns (raised: bool)
      modifies this`events
      ensures events == old(events) + [ResponseClosed(raised)]
    {
      raised := *;
      events := events + [ResponseClosed(raised)];
    }
  }

  class Lease {
    const process: Process
    var fd: Option<nat>

    constructor (process: Process, fd: nat)
      requires fd in process.open
      ensures this.process == process && this.fd == Some(fd)
    {
      this.process, this.fd := process, Some(fd);
    }

    /** What a lease still owns is open. */
    predicate Valid()
      reads this, process
    {
      fd.Some? ==> fd.value in process.open
    }

    /** The first call closes the descriptor; later calls touch nothing, even when another part of
      * the process has the same number open again. */
    method Close()
      requires Valid()
      modifies this, process
      ensures Valid() && fd.None?
      ensures process.open == if old(fd).Some? then old(process.open) - {old(fd).value} else old(process.open)
      ensures process.events ==
              old(process.events) + if old(fd).Some? then [FdClosed(old(fd).value)] else []
    {
      if fd.Some? {
        process.Close(fd.value);
        fd := None;
      }
    }
  }

  class LeasedResponse {
    const lease: Lease

    constructor (lease: Lease)
      ensures this.lease == lease
    {
      this.lease := lease;
    }

    /** The response is closed first; then the slot is given back, once, also when that close raised. */
    method Close() returns (raised: bool)
      requires lease.Valid()
      modifies lease, lease.process
      ensures lease.Valid() && lease.fd.None?
      ensures lease.process.open ==
              if old(lease.fd).Some? then old(lease.process.open) - {old(lease.fd).value} else old(lease.process.open)
      ensures lease.process.events ==
              old(lease.process.events) + [ResponseClosed(raised)]
              + if old(lease.fd).Some? then [FdClosed(old(lease.fd).value)] else []
    {
      raised := lease.process.CloseResponse();
      lease.Close();
    }
  }

  /** After a grant the upstream is asked: either it gives a response, and that owns the slot, or it
    * raises, and the slot is given back. */
  method OpenLimited(lease: Lease) returns (response: Option<LeasedResponse>, outcome: Outcome)
    requires lease.Valid() && lease.fd.Some?
    modifies lease, lease.process
    ensures lease.Valid() && (response.None? <==> outcome == Raises)
    ensures response.Some? ==>
              && fresh(response.value) && response.value.lease == lease
              && lease.fd == old(lease.fd) && lease.process.open == old(lease.process.open)
              && lease.process.events == old(lease.process.events) + [Asked(outcome)]
    ensures response.None? ==>
              && lease.fd.None? && lease.process.open == old(lease.process.open) - {old(lease.fd).value}
              && lease.process.events == old(lease.process.events) + [Asked(Raises), FdClosed(old(lease.fd).value)]
  {
    outcome := lease.process.Ask();
    if outcome == Raises {
      lease.Close();
      return None, outcome;
    }
    var owned := new LeasedResponse(lease);
    return Some(owned), outcome;
  }

  /** Closing twice, with the number taken by somebody else in between, closes it once. */
  method CloseTwice(lease: Lease)
    requires lease.Valid() && lease.fd.Some?
    modifies lease, lease.process
    ensures lease.process.open == old(lease.process.open)
    ensures var fd := old(lease.fd).value;
            lease.process.events == old(lease.process.events) + [FdClosed(fd), FdOpened(fd)]
  {
    var fd := lease.fd.value;
    lease.Close();
    lease.process.Open(fd);
    lease.Close();
  }
}
