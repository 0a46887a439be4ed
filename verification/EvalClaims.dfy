/** The evidence on which an evaluation claim is kept or reclaimed. Times are nanoseconds. */
module EvalClaims {
  import opened Wrappers

  type Id = nat

  const SECOND := 1_000_000_000
  const GRACE := 30 * SECOND         // CLAIM_CONSTRUCTION_GRACE_SECONDS
  const LEASE := 30 * SECOND         // CLAIM_LEASE_SECONDS
  const LEGACY_AGE := 300 * SECOND   // CLAIM_LEGACY_MAX_AGE_SECONDS

  datatype Status = Claiming | Launching | Started | Completed | Failed

  /** A claim names its owner and its evaluator group by number and start identity. `origin` is the
    * handoff it belongs to; no check reads it. */
  datatype Claim = Claim(
    pid: int, owner: Option<Id>, status: Status, startedAt: int, leaseUntil: int,
    pgid: int, leader: Option<Id>, origin: Id)

  /** What asking the system about a process or a group gives; `None` is an unknown identity. */
  datatype Probe = Probe(active: bool, identity: Option<Id>)

  predicate LeaseIsFresh(c: Claim, mtime: int, now: int) {
    if c.leaseUntil > 0 then now <= c.leaseUntil <= now + 2 * LEASE
    else 0 <= now - mtime < LEGACY_AGE
  }

  predicate OwnerIsActive(c: Claim, mtime: int, probe: Probe, now: int) {
    && probe.active
    && if c.owner.Some? then probe.identity.None? || probe.identity == c.owner else LeaseIsFresh(c, mtime, now)
  }

  predicate ResidualGroupIsLive(c: Claim, mtime: int, probe: Probe, now: int) {
    && c.pgid > 1
    && probe.active
    && (probe.identity.None? || if c.leader.Some? then probe.identity == c.leader else LeaseIsFresh(c, mtime, now))
  }

  predicate IsBootstrapping(c: Claim, now: int) {
    && (c.status == Claiming || c.status == Launching)
    && c.startedAt > 0
    && 0 <= now - c.startedAt < GRACE
  }

  /** The probe found the process gone, or positively another one. */
  predicate FoundGone(probe: Probe, recorded: Id) {
    !probe.active || (probe.identity.Some? && probe.identity.value != recorded)
  }

  /** The claim may be replaced exactly on evidence, for every claim. An owner or group with a recorded
    * identity must have been found gone or found to be another process, whatever the lease says; one
    * without must have been found gone or have let its lease run out, and a group whose identity cannot
    * be read retains even then. The construction grace must be over or never have applied. */
  lemma ReplacedOnEvidence(c: Claim, mtime: int, owner: Probe, t1: int, group: Probe, t2: int, t3: int)
    ensures
      !OwnerIsActive(c, mtime, owner, t1) && !ResidualGroupIsLive(c, mtime, group, t2) && !IsBootstrapping(c, t3)
      <==>
      && (match c.owner
          case Some(id) => FoundGone(owner, id)
          case None => !owner.active || !LeaseIsFresh(c, mtime, t1))
      && (c.pgid <= 1
          || (match c.leader
              case Some(id) => FoundGone(group, id)
              case None => !group.active || (group.identity.Some? && !LeaseIsFresh(c, mtime, t2))))
      && (c.status in {Started, Completed, Failed} || c.startedAt <= 0 || t3 < c.startedAt || c.startedAt + GRACE <= t3)
  {
  }

  /** An unknown identity always retains, even when the lease has run out. */
  lemma UnknownRetains(c: Claim, mtime: int, probe: Probe, now: int)
    requires probe.active && probe.identity.None?
    ensures c.owner.Some? ==> OwnerIsActive(c, mtime, probe, now)
    ensures c.pgid > 1 ==> ResidualGroupIsLive(c, mtime, probe, now)
  {
  }
}
