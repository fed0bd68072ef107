/** Which actions leave invitations, claims and deletions in progress alone. */
module Frames {
  import opened KvStore
  import opened Model
  import opened Protocol

  predicate SameHeld(w: World, w': World) {
    w'.offers == w.offers && w'.opening == w.opening
  }

  predicate SameWork(w: World, w': World) {
    w'.work == w.work
  }

  /** The actions that begin or carry on a cleanup claim. */
  predicate Works(a: Action) {
    a.UpdateSlot? || a.UpdateEvent? || a.BeginList? || a.ListSlot? || a.StartCall? || a.EndCall?
  }

  predicate OnSlots(a: Action) {
    a.CreateSlot? || a.Rollback? || a.DropSlot? || a.PurgeSlot? || a.DropIndex? || a.Tombstone?
  }

  predicate OnJoins(a: Action) {
    a.Tick? || a.Recheck? || a.CreateIndex? || a.Mint? || a.MintRenewed?
  }

  lemma SlotStepsLeaveWork(w: World, a: Action)
    requires Enabled(w, a) && OnSlots(a)
    ensures SameWork(w, Perform(w, a).0)
  {
  }

  lemma JoinStepsLeaveWork(w: World, a: Action)
    requires Enabled(w, a) && OnJoins(a)
    ensures SameWork(w, Perform(w, a).0)
  {
  }

  lemma EventStepsLeaveWork(w: World, a: Action)
    requires Enabled(w, a) && !Works(a) && !OnSlots(a) && !OnJoins(a)
    ensures SameWork(w, Perform(w, a).0)
  {
  }

  lemma LeavesWork(w: World, a: Action)
    requires Enabled(w, a) && !Works(a)
    ensures SameWork(w, Perform(w, a).0)
  {
    if OnSlots(a) {
      SlotStepsLeaveWork(w, a);
    } else if OnJoins(a) {
      JoinStepsLeaveWork(w, a);
    } else {
      EventStepsLeaveWork(w, a);
    }
  }

  predicate SameAcked(w: World, w': World) {
    w'.acked == w.acked
  }

  lemma SlotStepsLeaveAcked(w: World, a: Action)
    requires Enabled(w, a) && OnSlots(a)
    ensures SameAcked(w, Perform(w, a).0)
  {
  }

  lemma SlotUpdatesLeaveAcked(w: World, r: nat, c: SlotChange)
    requires IsSlot(w.store.written, r) && SlotChangeAllowed(w, r, c)
    ensures SameAcked(w, PerformUpdateSlot(w, r, c).0)
  {
  }

  lemma EventUpdatesLeaveAcked(w: World, r: nat, c: EventChange)
    requires IsEvent(w.store.written, r) && EventChangeAllowed(w, r, c)
    ensures SameAcked(w, PerformUpdateEvent(w, r, c).0)
  {
  }

  lemma OtherStepsLeaveAcked(w: World, a: Action)
    requires Enabled(w, a) && !a.UpdateSlot? && !a.UpdateEvent? && !OnSlots(a) && !a.EndCall?
    ensures SameAcked(w, Perform(w, a).0)
  {
  }

  lemma LeavesAcked(w: World, a: Action)
    requires Enabled(w, a) && !a.EndCall?
    ensures SameAcked(w, Perform(w, a).0)
  {
    if OnSlots(a) {
      SlotStepsLeaveAcked(w, a);
    } else if a.UpdateSlot? {
      SlotUpdatesLeaveAcked(w, a.revision, a.update);
    } else if a.UpdateEvent? {
      EventUpdatesLeaveAcked(w, a.revision, a.change);
    } else {
      OtherStepsLeaveAcked(w, a);
    }
  }

  predicate SameRenewals(w: World, w': World) {
    w'.renewals == w.renewals
  }

  lemma SlotStepsLeaveRenewals(w: World, a: Action)
    requires Enabled(w, a) && OnSlots(a)
    ensures SameRenewals(w, Perform(w, a).0)
  {
  }

  lemma JoinStepsLeaveRenewals(w: World, a: Action)
    requires Enabled(w, a) && OnJoins(a)
    ensures SameRenewals(w, Perform(w, a).0)
  {
  }

  lemma EventUpdatesLeaveRenewals(w: World, a: Action)
    requires Enabled(w, a) && a.UpdateEvent?
    ensures SameRenewals(w, Perform(w, a).0)
  {
  }

  lemma OtherStepsLeaveRenewals(w: World, a: Action)
    requires Enabled(w, a) && !a.UpdateSlot? && !a.UpdateEvent? && !OnSlots(a) && !OnJoins(a)
    ensures SameRenewals(w, Perform(w, a).0)
  {
  }

  lemma SlotUpdatesLeaveRenewals(w: World, r: nat, c: SlotChange)
    requires IsSlot(w.store.written, r) && SlotChangeAllowed(w, r, c) && !c.Renew?
    ensures SameRenewals(w, PerformUpdateSlot(w, r, c).0)
  {
  }

  lemma LeavesRenewals(w: World, a: Action)
    requires Enabled(w, a) && !(a.UpdateSlot? && a.update.Renew?)
    ensures SameRenewals(w, Perform(w, a).0)
  {
    if a.UpdateSlot? {
      SlotUpdatesLeaveRenewals(w, a.revision, a.update);
    } else if OnSlots(a) {
      SlotStepsLeaveRenewals(w, a);
    } else if OnJoins(a) {
      JoinStepsLeaveRenewals(w, a);
    } else if a.UpdateEvent? {
      EventUpdatesLeaveRenewals(w, a);
    } else {
      OtherStepsLeaveRenewals(w, a);
    }
  }

  predicate SameJoins(w: World, w': World) {
    w'.joins == w.joins
  }

  lemma WorkStepsLeaveJoins(w: World, a: Action)
    requires Enabled(w, a) && Works(a)
    ensures SameJoins(w, Perform(w, a).0)
  {
  }

  lemma OtherStepsLeaveJoins(w: World, a: Action)
    requires Enabled(w, a) && !Works(a) && !a.CreateSlot? && !a.Recheck? && !a.CreateIndex?
    ensures SameJoins(w, Perform(w, a).0)
  {
  }

  lemma LeavesJoins(w: World, a: Action)
    requires Enabled(w, a) && !a.CreateSlot? && !a.Recheck? && !a.CreateIndex?
    ensures SameJoins(w, Perform(w, a).0)
  {
    if Works(a) {
      WorkStepsLeaveJoins(w, a);
    } else {
      OtherStepsLeaveJoins(w, a);
    }
  }

  /** The actions that offer, settle or begin to own an invitation. */
  predicate Settles(a: Action) {
    || a.CreateEvent? || a.UpdateEvent? || a.CreateInvitation? || a.UndoCreateEvent?
    || a.OfferInvitation? || a.WithdrawInvitation?
  }

  lemma SlotStepsLeaveHeld(w: World, a: Action)
    requires Enabled(w, a) && OnSlots(a)
    ensures SameHeld(w, Perform(w, a).0)
  {
  }

  lemma UpdateSlotLeavesHeld(w: World, r: nat, c: SlotChange)
    requires IsSlot(w.store.written, r) && SlotChangeAllowed(w, r, c)
    ensures SameHeld(w, PerformUpdateSlot(w, r, c).0)
  {
  }

  lemma JoinStepsLeaveHeld(w: World, a: Action)
    requires Enabled(w, a) && OnJoins(a)
    ensures SameHeld(w, Perform(w, a).0)
  {
  }

  lemma CleanupStepsLeaveHeld(w: World, a: Action)
    requires Enabled(w, a) && !Settles(a) && !OnSlots(a) && !OnJoins(a) && !a.UpdateSlot?
    ensures SameHeld(w, Perform(w, a).0)
  {
  }

  lemma LeavesHeld(w: World, a: Action)
    requires Enabled(w, a) && !Settles(a)
    ensures SameHeld(w, Perform(w, a).0)
  {
    if a.UpdateSlot? {
      UpdateSlotLeavesHeld(w, a.revision, a.update);
    } else if OnSlots(a) {
      SlotStepsLeaveHeld(w, a);
    } else if OnJoins(a) {
      JoinStepsLeaveHeld(w, a);
    } else {
      CleanupStepsLeaveHeld(w, a);
    }
  }

  lemma UpdateEventLeavesOpening(w: World, r: nat, c: EventChange)
    requires IsEvent(w.store.written, r) && EventChangeAllowed(w, r, c)
    ensures PerformUpdateEvent(w, r, c).0.opening == w.opening
  {
  }
}
