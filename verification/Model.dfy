/** The service's records (internal/model/model.go) and its pure rules.

    Random identifiers and secrets are drawn from one supply of numbers, so two
    draws never coincide; a digest stands for the secret it hashes. Times are
    whole seconds. */
module Model {
  import opened KvStore

  type Id = nat
  type Time = nat

  /** The keyed hash of a secret; distinct secrets have distinct digests. */
  datatype Digest = Digest(secret: Id)

  /** A guest subject, "guest:<event>:<generation>". */
  datatype Guest = Guest(eventId: Id, generation: Id)

  datatype EventState = Draft | Open | Paused | Deleting | Deleted

  datatype Progress = Progress(
    id: Id, attempts: nat, startedAt: Time, nextAttemptAt: Time, failed: bool)

  datatype Event = Event(
    id: Id, capacity: nat, state: EventState, invitation: Digest,
    deletionId: Option<Id>, cleanup: Option<Progress>)

  datatype Slot = Slot(
    eventId: Id, number: nat, generation: Id, subject: Guest, digest: Digest,
    reserved: bool, leaseExpiresAt: Time, graceExpiresAt: Time, lastSeenAt: Time,
    cleanup: Option<Progress>)

  datatype SessionIndex = SessionIndex(eventId: Id, slot: nat, deleted: bool)

  datatype Receipt = Receipt(deletionId: Id, eventId: Id, deletedAt: Time, identitiesDeleted: nat)

  datatype Config = Config(leaseTTL: nat, gracePeriod: nat, cleanupLease: nat, maxCapacity: nat)

  datatype Key =
    | EventKey(eventId: Id)
    | InvitationKey(digest: Digest)
    | SessionKey(digest: Digest)
    | SlotKey(eventId: Id, number: nat)
    | ReceiptKey(eventId: Id)

  datatype Value =
    | EventV(event: Event)
    | InvitationV(eventId: Id)
    | SessionV(index: SessionIndex)
    | SlotV(slot: Slot)
    | ReceiptV(receipt: Receipt)

  predicate ValidTransition(from: EventState, to: EventState) {
    || (from == Draft && to == Open)
    || (from == Open && to == Paused)
    || (from == Paused && to == Open)
  }

  function Pow2(n: nat): (p: nat)
    ensures p >= 1
  {
    if n == 0 then 1 else 2 * Pow2(n - 1)
  }

  /** Five seconds, doubling with each attempt up to the sixth. */
  function RetryDelay(attempt: nat): nat {
    var n := if attempt > 6 then 6 else if attempt < 1 then 1 else attempt;
    Pow2(n - 1) * 5
  }

  /** The progress a new attempt stores, or `None` while an attempt is pending.
      `drawn` names the intent when there is none yet. */
  function ClaimCleanup(progress: Option<Progress>, drawn: Id, now: Time, lease: nat): Option<Progress> {
    var p := if progress.None? then Progress(drawn, 0, now, 0, false) else progress.value;
    if now < p.nextAttemptAt then None
    else Some(p.(attempts := p.attempts + 1, nextAttemptAt := now + lease))
  }

  /** The progress stored after a failed attempt. */
  function FailCleanup(p: Progress, now: Time): Progress {
    p.(failed := true, nextAttemptAt := now + RetryDelay(p.attempts))
  }
}
