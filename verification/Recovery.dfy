/** One recovery pass (internal/access/recovery.go:195-280), modelled as
    methods, while other processes interfere. */
module Recovery {
  import opened KvStore
  import opened Model
  import opened Protocol
  import opened Invariants
  import opened Interference
  import opened ClusterApi
  import opened Cleanup
  import opened Listing
  import opened Deletion
  import opened Scheduler
  import opened Counting

  /** A deleting event, or a slot with the event version it was listed under. */
  datatype Task =
    | EventTask(event: Event, revision: nat)
    | SlotTask(source: nat, slot: Slot, revision: nat)

  datatype Report = Report(pending: nat, attempted: nat, completed: nat, failed: nat)

  function KeyOf(t: Task): Key {
    match t
    case EventTask(ev, _) => EventKey(ev.id)
    case SlotTask(_, v, _) => SlotKey(v.eventId, v.number)
  }

  function EventDue(ev: Event): Time {
    if ev.cleanup.Some? then ev.cleanup.value.nextAttemptAt else 0
  }

  function SlotDue(v: Slot): Time {
    if v.cleanup.Some? then v.cleanup.value.nextAttemptAt else v.graceExpiresAt
  }

  /** A slot the pass takes up: claimed before, or expired under an open event. */
  predicate Pends(ev: Event, v: Slot, now: Time) {
    v.cleanup.Some? || (ev.state == Open && !v.reserved && v.graceExpiresAt <= now)
  }

  /** The intent stored at a key, by its due time: what a pass has to do. */
  function IntentAt(entries: Entries, now: Time, k: Key): Option<Time> {
    match k
    case EventKey(e) =>
      if HasEvent(entries, e) && EventNow(entries, e).state == Deleting then Some(EventDue(EventNow(entries, e)))
      else None
    case SlotKey(e, n) =>
      if && HasEvent(entries, e) && EventNow(entries, e).state != Deleting
         && HasSlot(entries, e, n) && Pends(EventNow(entries, e), SlotNow(entries, e, n), now)
      then Some(SlotDue(SlotNow(entries, e, n))) else None
    case _ => None
  }

  /** The task is the intent stored now, in the very version it was read from. */
  predicate Ready(entries: Entries, now: Time, x: Due<Task>) {
    && IntentAt(entries, now, KeyOf(x.task)) == Some(x.due)
    && IsLive(entries, KeyOf(x.task), x.task.revision)
  }

  function EventOf(t: Task): Id {
    if t.EventTask? then t.event.id else t.slot.eventId
  }

  /** A task taken from versions that were really stored. */
  predicate TaskRead(w: World, now: Time, x: Due<Task>) {
    now <= w.clock &&
    match x.task
    case EventTask(ev, r) =>
      && IsEvent(w.store.written, r) && EventAt(w.store.written, r) == ev && ev.state == Deleting
      && x.due == EventDue(ev)
    case SlotTask(source, v, r) =>
      && IsEvent(w.store.written, source) && EventAt(w.store.written, source).id == v.eventId
      && Pends(EventAt(w.store.written, source), v, now)
      && SlotRead(w, v.eventId, Versioned(v, r)) && x.due == SlotDue(v)
  }

  predicate KeysApart(tasks: seq<Due<Task>>) {
    forall i, j :: 0 <= i < j < |tasks| ==> KeyOf(tasks[i].task) != KeyOf(tasks[j].task)
  }

  lemma TaskStillRead(w: World, w': World, now: Time, x: Due<Task>)
    requires Since(w, w') && TaskRead(w, now, x)
    ensures TaskRead(w', now, x)
  {
    SinceFacts(w, w');
    match x.task
    case EventTask(_, r) => SinceEvent(w, w', r);
    case SlotTask(source, v, r) =>
      SinceEvent(w, w', source);
      SlotStillRead(w, w', v.eventId, Versioned(v, r));
  }

  ghost predicate AllRead(w: World, now: Time, tasks: seq<Due<Task>>) {
    forall x :: x in tasks ==> TaskRead(w, now, x)
  }

  lemma AllStillRead(w: World, w': World, now: Time, tasks: seq<Due<Task>>)
    requires Since(w, w') && AllRead(w, now, tasks)
    ensures AllRead(w', now, tasks)
  {
    forall x | x in tasks ensures TaskRead(w', now, x) {
      TaskStillRead(w, w', now, x);
    }
  }

  /** The tasks are exactly the stored intents of the events in question. */
  ghost predicate Exactly(entries: Entries, now: Time, tasks: seq<Due<Task>>, events: iset<Id>) {
    && (forall x :: x in tasks ==> EventOf(x.task) in events && Ready(entries, now, x))
    && (forall k: Key :: IntentAt(entries, now, k).Some? && KeyEvent(k) in events ==>
          exists x :: x in tasks && KeyOf(x.task) == k)
  }

  function KeyEvent(k: Key): Id {
    if k.EventKey? || k.SlotKey? || k.ReceiptKey? then k.eventId else 0
  }

  function SlotTaskOf(source: nat, x: Versioned<Slot>): Due<Task> {
    Due(SlotTask(source, x.value, x.revision), SlotDue(x.value))
  }

  /** The listed slots that a pass takes up, in the order listed. */
  function SlotTasks(ev: Event, source: nat, slots: seq<Versioned<Slot>>, now: Time): seq<Due<Task>> {
    if slots == [] then []
    else
      SlotTasks(ev, source, slots[..|slots| - 1], now) +
      if Pends(ev, slots[|slots| - 1].value, now) then [SlotTaskOf(source, slots[|slots| - 1])] else []
  }

  lemma {:induction false} SlotTasksFrom(ev: Event, source: nat, slots: seq<Versioned<Slot>>, now: Time, x: Due<Task>)
    ensures x in SlotTasks(ev, source, slots, now) <==>
            exists j :: 0 <= j < |slots| && Pends(ev, slots[j].value, now) && x == SlotTaskOf(source, slots[j])
  {
    if slots != [] {
      var front := slots[..|slots| - 1];
      SlotTasksFrom(ev, source, front, now, x);
      if j :| 0 <= j < |front| && Pends(ev, front[j].value, now) && x == SlotTaskOf(source, front[j]) {
        assert slots[j] == front[j];
      }
    }
  }

  /** A slot listed becomes a task, in the version listed, if and only if it is
      claimed, due when its next attempt is, or neither claimed nor reserved and
      past its grace under an open event, due since then. */
  lemma SlotTasksAre(ev: Event, source: nat, slots: seq<Versioned<Slot>>, now: Time, x: Due<Task>)
    ensures x in SlotTasks(ev, source, slots, now) <==>
            exists j :: 0 <= j < |slots| && x.task == SlotTask(source, slots[j].value, slots[j].revision)
                        && var v := slots[j].value;
                           if v.cleanup.Some? then x.due == v.cleanup.value.nextAttemptAt
                           else ev.state == Open && !v.reserved && v.graceExpiresAt <= now && x.due == v.graceExpiresAt
  {
    SlotTasksFrom(ev, source, slots, now, x);
  }

  lemma {:induction false} SlotTasksApart(ev: Event, source: nat, e: Id, slots: seq<Versioned<Slot>>, now: Time)
    requires ListedOnce(slots, {}) && forall x :: x in slots ==> x.value.eventId == e
    ensures KeysApart(SlotTasks(ev, source, slots, now))
  {
    if slots != [] {
      var front, last := slots[..|slots| - 1], slots[|slots| - 1];
      SlotTasksApart(ev, source, e, front, now);
      forall x | x in SlotTasks(ev, source, front, now) ensures KeyOf(x.task) != SlotKey(e, last.value.number) {
        SlotTasksFrom(ev, source, front, now, x);
      }
    }
  }

  lemma SlotTasksRead(w: World, ev: Event, source: nat, slots: seq<Versioned<Slot>>, now: Time)
    requires IsEvent(w.store.written, source) && EventAt(w.store.written, source) == ev && now <= w.clock
    requires forall x :: x in slots ==> SlotRead(w, ev.id, x)
    ensures AllRead(w, now, SlotTasks(ev, source, slots, now))
    ensures forall x :: x in SlotTasks(ev, source, slots, now) ==> EventOf(x.task) == ev.id
  {
    forall x | x in SlotTasks(ev, source, slots, now) ensures TaskRead(w, now, x) && EventOf(x.task) == ev.id {
      SlotTasksFrom(ev, source, slots, now, x);
      var j :| 0 <= j < |slots| && Pends(ev, slots[j].value, now) && x == SlotTaskOf(source, slots[j]);
      assert slots[j] in slots;
    }
  }

  lemma SlotTasksExact(w: World, ev: Event, source: nat, slots: seq<Versioned<Slot>>, now: Time)
    requires HasEvent(w.store.entries, ev.id) && EventNow(w.store.entries, ev.id) == ev && ev.state != Deleting
    requires ListsExactly(w, ev.id, {}, slots) && forall x :: x in slots ==> SlotRead(w, ev.id, x)
    ensures Exactly(w.store.entries, now, SlotTasks(ev, source, slots, now), iset{ev.id})
  {
    var tasks := SlotTasks(ev, source, slots, now);
    forall x | x in tasks ensures EventOf(x.task) == ev.id && Ready(w.store.entries, now, x) {
      SlotTasksFrom(ev, source, slots, now, x);
      var j :| 0 <= j < |slots| && Pends(ev, slots[j].value, now) && x == SlotTaskOf(source, slots[j]);
      assert slots[j] in slots;
    }
    forall k: Key | IntentAt(w.store.entries, now, k).Some? && KeyEvent(k) == ev.id
      ensures exists x :: x in tasks && KeyOf(x.task) == k
    {
      var j :| 0 <= j < |slots| && slots[j].value.number == k.number;
      assert slots[j] in slots;
      SlotTasksFrom(ev, source, slots, now, SlotTaskOf(source, slots[j]));
    }
  }

  method PickSlots(ev: Event, source: nat, slots: seq<Versioned<Slot>>, now: Time) returns (tasks: seq<Due<Task>>)
    ensures tasks == SlotTasks(ev, source, slots, now)
  {
    tasks := [];
    for i := 0 to |slots|
      invariant tasks == SlotTasks(ev, source, slots[..i], now)
    {
      assert slots[..i + 1][..i] == slots[..i];
      if Pends(ev, slots[i].value, now) {
        tasks := tasks + [SlotTaskOf(source, slots[i])];
      }
    }
    assert slots[..|slots|] == slots;
  }

  method EventTasks(c: Cluster, ghost rely: Rely, e: Id, now: Time) returns (tasks: seq<Due<Task>>)
    requires c.Valid() && now <= c.w.clock
    modifies c
    ensures c.Valid() && Since(old(c.w), c.w)
    ensures AllRead(c.w, now, tasks) && KeysApart(tasks) && forall x :: x in tasks ==> EventOf(x.task) == e
    ensures rely.alone ==> c.w == old(c.w) && Exactly(c.w.store.entries, now, tasks, iset{e})
  {
    ghost var w0 := c.w;
    var found := c.LoadEvent(rely, e);
    SinceFacts(w0, c.w);
    if found.None? {
      return [];
    }
    var ev, source := found.value.value, found.value.revision;
    if ev.state == Deleting {
      var x := Due(EventTask(ev, source), EventDue(ev));
      assert x in [x];
      return [x];
    }
    ghost var w1 := c.w;
    var slots := ListSlots(c, rely, e);
    SinceChain(w0, w1, c.w);
    SinceEvent(w1, c.w, source);
    SinceFacts(w1, c.w);
    tasks := PickSlots(ev, source, slots, now);
    SlotTasksRead(c.w, ev, source, slots, now);
    SlotTasksApart(ev, source, e, slots, now);
    if rely.alone {
      SlotTasksExact(c.w, ev, source, slots, now);
    }
  }

  lemma ApartConcat(a: seq<Due<Task>>, b: seq<Due<Task>>)
    requires KeysApart(a) && KeysApart(b)
    requires forall x, y :: x in a && y in b ==> EventOf(x.task) != EventOf(y.task)
    ensures KeysApart(a + b)
  {
    forall i, j | 0 <= i < j < |a + b| ensures KeyOf((a + b)[i].task) != KeyOf((a + b)[j].task) {
      if i < |a| <= j {
        assert a[i] in a && b[j - |a|] in b;
      }
    }
  }

  lemma ExactlyConcat(entries: Entries, now: Time, a: seq<Due<Task>>, b: seq<Due<Task>>, events: iset<Id>, e: Id)
    requires Exactly(entries, now, a, events) && Exactly(entries, now, b, iset{e})
    ensures Exactly(entries, now, a + b, events + iset{e})
  {
    forall k: Key | IntentAt(entries, now, k).Some? && KeyEvent(k) in events + iset{e}
      ensures exists x :: x in a + b && KeyOf(x.task) == k
    {
      if KeyEvent(k) in events {
        var x :| x in a && KeyOf(x.task) == k;
        assert x in a + b;
      } else {
        var x :| x in b && KeyOf(x.task) == k;
        assert x in a + b;
      }
    }
  }

  ghost function Besides(todo: set<Id>): iset<Id> {
    iset e: Id | e !in todo
  }

  /** Every intent: of each event listed, the event's own or those of its slots. */
  method CollectTasks(c: Cluster, ghost rely: Rely) returns (tasks: seq<Due<Task>>, now: Time)
    requires c.Valid()
    modifies c
    ensures c.Valid() && Since(old(c.w), c.w) && now <= c.w.clock
    ensures AllRead(c.w, now, tasks) && KeysApart(tasks)
    ensures rely.alone ==>
              && c.w == old(c.w) && now == c.w.clock
              && Exactly(c.w.store.entries, now, tasks, Besides({}))
  {
    ghost var w0 := c.w;
    var todo := c.EventKeys(rely);
    ghost var w1 := c.w;
    now := c.Now(rely);
    SinceChain(w0, w1, c.w);
    tasks := [];
    assert rely.alone ==> Exactly(c.w.store.entries, now, tasks, Besides(todo)) by {
      assert forall e: Id :: EventKey(e) in w1.store.entries ==> e in todo;
    }
    while todo != {}
      invariant c.Valid() && Since(w0, c.w) && now <= c.w.clock
      invariant AllRead(c.w, now, tasks) && KeysApart(tasks)
      invariant forall x :: x in tasks ==> EventOf(x.task) !in todo
      invariant rely.alone ==> c.w == w0 && now == w0.clock && Exactly(c.w.store.entries, now, tasks, Besides(todo))
      decreases todo
    {
      var e :| e in todo;
      ghost var w2 := c.w;
      var more := EventTasks(c, rely, e, now);
      SinceChain(w0, w2, c.w);
      SinceFacts(w2, c.w);
      AllStillRead(w2, c.w, now, tasks);
      ApartConcat(tasks, more);
      if rely.alone {
        ExactlyConcat(c.w.store.entries, now, tasks, more, Besides(todo), e);
        assert Besides(todo - {e}) == Besides(todo) + iset{e};
      }
      todo := todo - {e};
      tasks := tasks + more;
    }
  }

  method SortTasks(tasks: seq<Due<Task>>) returns (order: seq<Due<Task>>)
    ensures Sorted(order) && multiset(order) == multiset(tasks)
  {
    SortByDueSorts(tasks);
    order := SortByDue(tasks);
  }

  lemma SortedStaysApart(s: seq<Due<Task>>, t: seq<Due<Task>>)
    requires KeysApart(s) && multiset(s) == multiset(t)
    ensures KeysApart(t)
  {
    forall i, j | 0 <= i < j < |t| ensures KeyOf(t[i].task) != KeyOf(t[j].task) {
      if t[i] == t[j] {
        TwiceMeansTwo(t, i, j);
        TwoMeansTwice(s, t[i]);
      } else {
        assert t[i] in multiset(s) && t[j] in multiset(s);
      }
    }
  }

  lemma SameMembers(s: seq<Due<Task>>, t: seq<Due<Task>>)
    requires multiset(s) == multiset(t)
    ensures forall x :: x in s <==> x in t
  {
    forall x ensures x in s <==> x in t {
      assert x in multiset(s) <==> x in s;
      assert x in multiset(t) <==> x in t;
    }
  }

  /** The tasks by the keys of their intents. */
  function Keyed(tasks: seq<Due<Task>>): (keyed: seq<Due<Key>>)
    ensures |keyed| == |tasks|
    ensures forall i :: 0 <= i < |tasks| ==> keyed[i] == Due(KeyOf(tasks[i].task), tasks[i].due)
  {
    seq(|tasks|, i requires 0 <= i < |tasks| => Due(KeyOf(tasks[i].task), tasks[i].due))
  }

  /** The outcomes that count as failures: not a lost race, not an attempt that
      is still pending, not a failure that a rival overtook. */
  predicate Counted(problem: Problem) {
    && problem != StoreError(Conflict) && problem != StoreError(NotFound)
    && problem != CleanupPending && problem != CleanupFailed(false)
  }

  /** The attempts that came to an end without a problem. */
  function CompletedOf(outcomes: seq<Option<Problem>>): set<nat> {
    set i: nat | i < |outcomes| && outcomes[i].None?
  }

  /** The attempts that failed: not those that lost a race, not those that found
      another attempt pending. */
  function FailedOf(outcomes: seq<Option<Problem>>): set<nat> {
    set i: nat | i < |outcomes| && outcomes[i].Some? &&
      !(|| outcomes[i].value == StoreError(Conflict) || outcomes[i].value == StoreError(NotFound)
        || outcomes[i].value == CleanupPending || outcomes[i].value == CleanupFailed(false))
  }

  lemma CompletedGrow(outcomes: seq<Option<Problem>>, problem: Option<Problem>)
    ensures |CompletedOf(outcomes + [problem])| == |CompletedOf(outcomes)| + (if problem.None? then 1 else 0)
  {
    var all, m := outcomes + [problem], |outcomes|;
    var more := if problem.None? then {m} else {};
    forall i: nat ensures i in CompletedOf(all) <==> i in CompletedOf(outcomes) + more {
      if i < m {
        assert all[i] == outcomes[i];
      }
    }
    assert CompletedOf(all) == CompletedOf(outcomes) + more;
  }

  lemma FailedGrow(outcomes: seq<Option<Problem>>, problem: Option<Problem>)
    ensures |FailedOf(outcomes + [problem])| ==
            |FailedOf(outcomes)| + (if problem.Some? && Counted(problem.value) then 1 else 0)
  {
    var all, m := outcomes + [problem], |outcomes|;
    var more := if problem.Some? && Counted(problem.value) then {m} else {};
    forall i: nat ensures i in FailedOf(all) <==> i in FailedOf(outcomes) + more {
      if i < m {
        assert all[i] == outcomes[i];
      }
    }
    assert FailedOf(all) == FailedOf(outcomes) + more;
  }

  /** What a completed task has brought about. */
  predicate Settled(w: World, t: Task) {
    match t
    case EventTask(ev, _) => HasReceipt(w.store.entries, ev.id)
    case SlotTask(_, v, _) => v.subject in w.acked
  }

  lemma SettledStays(w: World, w': World, t: Task)
    requires Since(w, w') && Settled(w, t)
    ensures Settled(w', t)
  {
    SinceFacts(w, w');
    if t.EventTask? {
      SinceReceipt(w, w', t.event.id);
    }
  }

  /** How often the cleanup of what is stored at `k` was attempted. */
  function Attempts(entries: Entries, k: Key): nat {
    match k
    case EventKey(e) =>
      if HasEvent(entries, e) && EventNow(entries, e).cleanup.Some? then EventNow(entries, e).cleanup.value.attempts
      else 0
    case SlotKey(e, n) =>
      if HasSlot(entries, e, n) && SlotNow(entries, e, n).cleanup.Some? then
        SlotNow(entries, e, n).cleanup.value.attempts
      else 0
    case _ => 0
  }

  /** What was stored at `k` is gone, or was attempted once more. */
  predicate Tried(w: World, w': World, k: Key) {
    k in w'.store.entries ==>
      k in w.store.entries && Attempts(w'.store.entries, k) == Attempts(w.store.entries, k) + 1
  }

  /** What was stored at `k` is gone, or as it was. */
  predicate Untried(w: World, w': World, k: Key) {
    k in w'.store.entries ==> SameAt(w.store, w'.store, k)
  }

  /** An attempt that nobody disturbed: the intent at `k` is gone or due after
      `now`, whenever one looks, and every other intent is as it was. */
  ghost predicate Deferred(w: World, w': World, now: Time, k: Key) {
    && w'.clock == w.clock && Tried(w, w', k)
    && (forall j: Key :: j != k && (j.EventKey? || j.SlotKey?) ==> Untried(w, w', j))
    && (forall t :: IntentAt(w'.store.entries, t, k).Some? ==> IntentAt(w'.store.entries, t, k).value > now)
    && (forall j: Key, t :: j != k ==> IntentAt(w'.store.entries, t, j) == IntentAt(w.store.entries, t, j))
    && (forall j: Key :: j != k && IntentAt(w.store.entries, now, j).Some? ==> SameAt(w.store, w'.store, j))
  }

  /** Undisturbed, an attempt either removes its entry or fails at the cleaner,
      and leaves an intent behind. */
  predicate Outcome(entries: Entries, now: Time, k: Key, problem: Option<Problem>) {
    match problem
    case None => k !in entries
    case Some(p) => p == CleanupFailed(true) && k in entries && IntentAt(entries, now, k).Some?
  }

  lemma SlotDeferred(w: World, w': World, v: Slot, r: nat, answer: Option<Answer>,
                     problem: Option<Problem>)
    requires var k := SlotKey(v.eventId, v.number);
             && IsLive(w.store.entries, k, r) && w.store.entries[k].value == SlotV(v)
             && SlotDue(v) <= w.clock && CleanedAlone(w, w', v, r, answer, problem)
             && (problem.None? ==> k !in w'.store.entries)
    requires IntentAt(w.store.entries, w.clock, SlotKey(v.eventId, v.number)).Some?
    ensures Deferred(w, w', w.clock, SlotKey(v.eventId, v.number))
    ensures Outcome(w'.store.entries, w.clock, SlotKey(v.eventId, v.number), problem)
  {
    var k := SlotKey(v.eventId, v.number);
    forall j: Key | j != k && !j.SessionKey? ensures SameAt(w.store, w'.store, j) {
      assert j !in {k, SessionKey(v.digest)};
    }
    assert SameAt(w.store, w'.store, EventKey(v.eventId));
    forall j: Key, t | j != k ensures IntentAt(w'.store.entries, t, j) == IntentAt(w.store.entries, t, j) {
      assert !j.SessionKey? ==> SameAt(w.store, w'.store, j);
      assert j.SlotKey? ==> SameAt(w.store, w'.store, EventKey(j.eventId));
    }
  }

  lemma EventDeferred(w: World, w': World, ev: Event, answer: Option<Answer>, receipt: Option<Receipt>,
                      problem: Option<Problem>)
    requires var k := EventKey(ev.id);
             && HasEvent(w.store.entries, ev.id) && EventNow(w.store.entries, ev.id) == ev && ev.state == Deleting
             && ev.deletionId.Some? && EventDue(ev) <= w.clock && EventCleanedAlone(w, w', ev, answer, receipt, problem)
    ensures Deferred(w, w', w.clock, EventKey(ev.id))
    ensures Outcome(w'.store.entries, w.clock, EventKey(ev.id), problem)
  {
  }

  method Attempt(c: Cluster, ghost rely: Rely, ghost due: Due<Task>, t: Task, now: Time)
    returns (problem: Option<Problem>, ghost ending: Ending)
    requires c.Valid() && TaskRead(c.w, now, due) && due.task == t
    modifies c
    ensures c.Valid() && Since(old(c.w), c.w) && Since(old(c.w), ending.at)
    ensures CameOut(KeyOf(t), t.revision, if t.EventTask? then t.event.cleanup else t.slot.cleanup, problem, ending)
    ensures problem.None? ==> Settled(c.w, t)
    ensures rely.alone && now == old(c.w).clock && due.due <= now && Ready(old(c.w).store.entries, now, due) ==>
              Deferred(old(c.w), c.w, now, KeyOf(t)) && Outcome(c.w.store.entries, now, KeyOf(t), problem)
  {
    ghost var w0 := c.w;
    if KeyOf(t) in w0.store.entries {
      LiveVersion(w0, KeyOf(t));
    }
    match t
    case EventTask(ev, r) =>
      var receipt, trouble;
      ghost var answer;
      receipt, trouble, answer, ending := CleanEvent(c, rely, ev, r);
      if rely.alone && now == w0.clock && due.due <= now && Ready(w0.store.entries, now, due) {
        EventDeferred(w0, c.w, ev, answer, receipt, trouble);
      }
      return trouble, ending;
    case SlotTask(source, v, r) =>
      ghost var answer;
      problem, answer, ending := CleanSlot(c, rely, v, r, if v.cleanup.Some? then Retry else Expired(source, now));
      if rely.alone && now == w0.clock && due.due <= now && Ready(w0.store.entries, now, due) {
        SlotDeferred(w0, c.w, v, r, answer, problem);
      }
  }

  /** `outcomes` is what the attempts so far came to, in order. */
  ghost predicate Accounted(w: World, order: seq<Due<Task>>, outcomes: seq<Option<Problem>>, report: Report) {
    && |outcomes| == report.attempted <= |order|
    && report.completed == |CompletedOf(outcomes)| && report.failed == |FailedOf(outcomes)|
    && report.completed <= |outcomes|
    && report.pending == |order| - report.completed
    && (forall i :: 0 <= i < |outcomes| && outcomes[i].None? ==> Settled(w, order[i].task))
  }

  lemma AccountedNext(w: World, w': World, order: seq<Due<Task>>,
                      outcomes: seq<Option<Problem>>, report: Report, problem: Option<Problem>)
    requires Since(w, w') && Accounted(w, order, outcomes, report) && |outcomes| < |order|
    requires problem.None? ==> Settled(w', order[|outcomes|].task)
    ensures Accounted(w', order, outcomes + [problem], NextReport(report, problem))
  {
    CompletedGrow(outcomes, problem);
    FailedGrow(outcomes, problem);
    forall i | 0 <= i < |outcomes| && outcomes[i].None? ensures Settled(w', order[i].task) {
      SettledStays(w, w', order[i].task);
    }
  }

  function NextReport(report: Report, problem: Option<Problem>): Report
    requires report.pending > 0 || problem.Some?
  {
    if problem.None? then
      report.(attempted := report.attempted + 1, completed := report.completed + 1, pending := report.pending - 1)
    else if Counted(problem.value) then
      report.(attempted := report.attempted + 1, failed := report.failed + 1)
    else report.(attempted := report.attempted + 1)
  }

  lemma {:induction false} KeyedDueCount(tasks: seq<Due<Task>>, now: Time)
    ensures DueCount(Keyed(tasks), now) == DueCount(tasks, now)
  {
    if tasks != [] {
      KeyedDueCount(tasks[..|tasks| - 1], now);
      assert Keyed(tasks)[..|tasks| - 1] == Keyed(tasks[..|tasks| - 1]);
    }
  }

  /** A pass over `order` that attempted its first `n` intents. */
  ghost function PassOver(order: seq<Due<Task>>, n: nat, now: Time): Pass<Key>
    requires KeysApart(order) && n <= |order|
  {
    Pass(now, DueTimes(Keyed(order)), Intents(Keyed(order)[..n]), map[])
  }

  lemma PassIsEarliest(order: seq<Due<Task>>, now: Time, batch: nat)
    requires Sorted(order) && KeysApart(order)
    ensures DueCount(order, now) <= |order|
    ensures AttemptsEarliest(PassOver(order, Min(batch, DueCount(order, now)), now), batch)
  {
    KeyedDueCount(order, now);
    FrontIsEarliest(Keyed(order), now, batch, map[]);
  }

  /** The intents with their due times are exactly those stored. */
  ghost predicate ListsAllIntents(entries: Entries, now: Time, order: seq<Due<Task>>)
    requires KeysApart(order)
  {
    forall k: Key :: IntentAt(entries, now, k) ==
      if k in DueTimes(Keyed(order)) then Some(DueTimes(Keyed(order))[k]) else None
  }

  lemma KeyedHas(order: seq<Due<Task>>, x: Due<Task>)
    requires KeysApart(order) && x in order
    ensures KeyOf(x.task) in DueTimes(Keyed(order)) && DueTimes(Keyed(order))[KeyOf(x.task)] == x.due
  {
    var i :| 0 <= i < |order| && order[i] == x;
    assert Keyed(order)[i] == Due(KeyOf(x.task), x.due);
  }

  lemma KeyedFrom(order: seq<Due<Task>>, k: Key) returns (x: Due<Task>)
    requires KeysApart(order) && k in DueTimes(Keyed(order))
    ensures x in order && KeyOf(x.task) == k && DueTimes(Keyed(order))[k] == x.due
  {
    var i :| 0 <= i < |order| && Keyed(order)[i].task == k;
    x := order[i];
    KeyedHas(order, x);
  }

  lemma ExactlySorted(entries: Entries, now: Time, tasks: seq<Due<Task>>, order: seq<Due<Task>>, events: iset<Id>)
    requires Exactly(entries, now, tasks, events) && multiset(order) == multiset(tasks)
    ensures Exactly(entries, now, order, events)
  {
    SameMembers(order, tasks);
    forall k: Key | IntentAt(entries, now, k).Some? && KeyEvent(k) in events
      ensures exists x :: x in order && KeyOf(x.task) == k
    {
      var x :| x in tasks && KeyOf(x.task) == k;
      assert x in order;
    }
  }

  lemma NothingMissed(entries: Entries, now: Time, order: seq<Due<Task>>, k: Key)
    requires Exactly(entries, now, order, Besides({})) && KeysApart(order) && IntentAt(entries, now, k).Some?
    ensures k in DueTimes(Keyed(order))
  {
    assert KeyEvent(k) in Besides({});
    var x :| x in order && KeyOf(x.task) == k;
    KeyedHas(order, x);
  }

  lemma NothingElse(entries: Entries, now: Time, order: seq<Due<Task>>, k: Key)
    requires Exactly(entries, now, order, Besides({})) && KeysApart(order) && k in DueTimes(Keyed(order))
    ensures IntentAt(entries, now, k) == Some(DueTimes(Keyed(order))[k])
  {
    var x := KeyedFrom(order, k);
  }

  lemma ExactlyAll(entries: Entries, now: Time, order: seq<Due<Task>>)
    requires Exactly(entries, now, order, Besides({})) && KeysApart(order)
    ensures ListsAllIntents(entries, now, order)
  {
    var dues := DueTimes(Keyed(order));
    forall k: Key ensures IntentAt(entries, now, k) == if k in dues then Some(dues[k]) else None {
      if IntentAt(entries, now, k).Some? {
        NothingMissed(entries, now, order, k);
      }
      if k in dues {
        NothingElse(entries, now, order, k);
      }
    }
  }

  /** The slot version is a task, due when its next attempt is or, if there was
      none, when its grace ended. */
  predicate ListsSlot(order: seq<Due<Task>>, v: Slot, r: nat) {
    exists x :: x in order && x.task.SlotTask? && x.task.slot == v && x.task.revision == r
                && x.due == if v.cleanup.Some? then v.cleanup.value.nextAttemptAt else v.graceExpiresAt
  }

  predicate ListsEvent(order: seq<Due<Task>>, ev: Event, r: nat) {
    exists x :: x in order && x.task.EventTask? && x.task.event == ev && x.task.revision == r
                && x.due == if ev.cleanup.Some? then ev.cleanup.value.nextAttemptAt else 0
  }

  /** What a pass has to do, in the terms of the records: of each event not being
      deleted the slots that are claimed, and, while it is open, those neither
      claimed nor reserved whose grace is over; each event being deleted; and
      nothing else. Every task is the live version. */
  ghost predicate ListsRecords(entries: Entries, now: Time, order: seq<Due<Task>>) {
    && (forall e, n :: HasEvent(entries, e) && EventNow(entries, e).state != Deleting && HasSlot(entries, e, n) ==>
          var v := SlotNow(entries, e, n);
          ListsSlot(order, v, entries[SlotKey(e, n)].revision) <==>
          v.cleanup.Some? || (EventNow(entries, e).state == Open && !v.reserved && v.graceExpiresAt <= now))
    && (forall e :: HasEvent(entries, e) && EventNow(entries, e).state == Deleting ==>
          ListsEvent(order, EventNow(entries, e), entries[EventKey(e)].revision))
    && (forall x :: x in order ==> IsLiveTask(entries, x.task))
  }

  predicate IsLiveTask(entries: Entries, t: Task) {
    match t
    case EventTask(ev, r) =>
      && HasEvent(entries, ev.id) && EventNow(entries, ev.id) == ev && ev.state == Deleting
      && entries[EventKey(ev.id)].revision == r
    case SlotTask(_, v, r) =>
      && HasEvent(entries, v.eventId) && EventNow(entries, v.eventId).state != Deleting
      && HasSlot(entries, v.eventId, v.number) && SlotNow(entries, v.eventId, v.number) == v
      && entries[SlotKey(v.eventId, v.number)].revision == r
  }

  lemma TaskIsLive(w: World, now: Time, x: Due<Task>)
    requires Inv(w) && TaskRead(w, now, x) && Ready(w.store.entries, now, x)
    ensures IsLiveTask(w.store.entries, x.task)
  {
    LiveVersion(w, KeyOf(x.task));
  }

  lemma SlotIsListed(w: World, now: Time, order: seq<Due<Task>>, e: Id, n: nat)
    requires Inv(w) && AllRead(w, now, order) && Exactly(w.store.entries, now, order, Besides({}))
    requires HasEvent(w.store.entries, e) && EventNow(w.store.entries, e).state != Deleting &&
             HasSlot(w.store.entries, e, n)
    ensures var v := SlotNow(w.store.entries, e, n);
            ListsSlot(order, v, w.store.entries[SlotKey(e, n)].revision) <==>
            v.cleanup.Some? || (EventNow(w.store.entries, e).state == Open && !v.reserved && v.graceExpiresAt <= now)
  {
    var k, v := SlotKey(e, n), SlotNow(w.store.entries, e, n);
    LiveVersion(w, k);
    if v.cleanup.Some? || (EventNow(w.store.entries, e).state == Open && !v.reserved && v.graceExpiresAt <= now) {
      assert IntentAt(w.store.entries, now, k).Some? && KeyEvent(k) in Besides({});
      var x :| x in order && KeyOf(x.task) == k;
      TaskIsLive(w, now, x);
    }
  }

  lemma EventIsListed(w: World, now: Time, order: seq<Due<Task>>, e: Id)
    requires Inv(w) && AllRead(w, now, order) && Exactly(w.store.entries, now, order, Besides({}))
    requires HasEvent(w.store.entries, e) && EventNow(w.store.entries, e).state == Deleting
    ensures ListsEvent(order, EventNow(w.store.entries, e), w.store.entries[EventKey(e)].revision)
  {
    var k := EventKey(e);
    LiveVersion(w, k);
    assert IntentAt(w.store.entries, now, k).Some? && KeyEvent(k) in Besides({});
    var x :| x in order && KeyOf(x.task) == k;
    TaskIsLive(w, now, x);
  }

  lemma RecordsAreListed(w: World, now: Time, order: seq<Due<Task>>)
    requires Inv(w) && AllRead(w, now, order) && Exactly(w.store.entries, now, order, Besides({}))
    ensures ListsRecords(w.store.entries, now, order)
  {
    var entries := w.store.entries;
    forall e, n | HasEvent(entries, e) && EventNow(entries, e).state != Deleting && HasSlot(entries, e, n)
      ensures var v := SlotNow(entries, e, n);
              ListsSlot(order, v, entries[SlotKey(e, n)].revision) <==>
              v.cleanup.Some? || (EventNow(entries, e).state == Open && !v.reserved && v.graceExpiresAt <= now)
    {
      SlotIsListed(w, now, order, e, n);
    }
    forall e | HasEvent(entries, e) && EventNow(entries, e).state == Deleting
      ensures ListsEvent(order, EventNow(entries, e), entries[EventKey(e)].revision)
    {
      EventIsListed(w, now, order, e);
    }
    forall x | x in order ensures IsLiveTask(entries, x.task) {
      TaskIsLive(w, now, x);
    }
  }

  lemma AllSorted(w: World, now: Time, tasks: seq<Due<Task>>, order: seq<Due<Task>>)
    requires AllRead(w, now, tasks) && multiset(tasks) == multiset(order)
    ensures AllRead(w, now, order)
  {
    SameMembers(tasks, order);
  }

  predicate AmongTasks(order: seq<Due<Task>>, n: nat, k: Key)
    requires n <= |order|
  {
    exists i :: 0 <= i < n && KeyOf(order[i].task) == k
  }

  /** The first `n` intents are gone or due after `now`, whenever one looks;
      every other intent is as it was, and the tasks not attempted are still in
      the version they were read from. */
  ghost predicate Swept(w: World, w': World, now: Time, order: seq<Due<Task>>, n: nat)
    requires n <= |order|
  {
    && w'.clock == w.clock
    && (forall k: Key :: k.EventKey? || k.SlotKey? ==>
          if AmongTasks(order, n, k) then Tried(w, w', k) else Untried(w, w', k))
    && (forall k, t :: AmongTasks(order, n, k) && IntentAt(w'.store.entries, t, k).Some? ==>
          IntentAt(w'.store.entries, t, k).value > now)
    && (forall k, t :: !AmongTasks(order, n, k) ==>
          IntentAt(w'.store.entries, t, k) == IntentAt(w.store.entries, t, k))
    && (forall i :: n <= i < |order| ==> Ready(w'.store.entries, now, order[i]))
  }

  lemma AmongNext(order: seq<Due<Task>>, n: nat, k: Key)
    requires n < |order|
    ensures AmongTasks(order, n + 1, k) <==> AmongTasks(order, n, k) || k == KeyOf(order[n].task)
  {
    if i :| 0 <= i < n && KeyOf(order[i].task) == k {
      assert 0 <= i < n + 1;
    }
  }

  lemma SweptNext(w: World, u: World, w': World, now: Time, order: seq<Due<Task>>, n: nat)
    requires n < |order| && KeysApart(order) && Swept(w, u, now, order, n)
    requires Deferred(u, w', now, KeyOf(order[n].task))
    ensures Swept(w, w', now, order, n + 1)
  {
    forall k ensures AmongTasks(order, n + 1, k) <==> AmongTasks(order, n, k) || k == KeyOf(order[n].task) {
      AmongNext(order, n, k);
    }
    forall i | n + 1 <= i < |order| ensures Ready(w'.store.entries, now, order[i]) {
      var k := KeyOf(order[i].task);
      assert k != KeyOf(order[n].task) && IntentAt(u.store.entries, now, k).Some?;
      assert SameAt(u.store, w'.store, k);
    }
  }

  /** One recovery pass. It lists every intent, and attempts, in order of due
      time, exactly the batch of earliest-due ones, all of them if no more are
      due; the report accounts for every attempt, and a completed attempt has
      really erased its guest or finished its deletion. */
  method Reconcile(c: Cluster, ghost rely: Rely, batch: int)
    returns (report: Report, ghost order: seq<Due<Task>>, ghost outcomes: seq<Option<Problem>>, ghost now: Time)
    requires c.Valid()
    modifies c
    ensures c.Valid() && Since(old(c.w), c.w)
    ensures batch < 1 ==> report == Report(0, 0, 0, 0) && c.w == old(c.w)
    ensures Sorted(order) && KeysApart(order) && Accounted(c.w, order, outcomes, report)
    ensures batch >= 1 ==>
              && report.attempted == Min(batch, DueCount(order, now))
              && AttemptsEarliest(PassOver(order, report.attempted, now), batch)
    ensures batch >= 1 && rely.alone ==>
              && now == old(c.w).clock && ListsAllIntents(old(c.w).store.entries, now, order)
              && ListsRecords(old(c.w).store.entries, now, order)
              && Swept(old(c.w), c.w, now, order, report.attempted) && Outcomes(c.w.store.entries, now, order, outcomes)
              && report.completed + report.failed == report.attempted
  {
    ghost var w0 := c.w;
    report, order, outcomes, now := Report(0, 0, 0, 0), [], [], 0;
    SinceSelf(w0);
    if batch < 1 {
      return;
    }
    var tasks, at := CollectTasks(c, rely);
    var sorted := SortTasks(tasks);
    now, order := at, sorted;
    SortedStaysApart(tasks, sorted);
    if rely.alone {
      ExactlySorted(w0.store.entries, now, tasks, sorted, Besides({}));
      ExactlyAll(w0.store.entries, now, sorted);
    }
    PassIsEarliest(sorted, at, batch);
    ghost var w1 := c.w;
    AllSorted(w1, at, tasks, sorted);
    if rely.alone {
      RecordsAreListed(w0, at, sorted);
    }
    report, outcomes := AttemptBatch(c, rely, sorted, at, batch);
    SinceChain(w0, w1, c.w);
  }

  /** What each attempt of an undisturbed pass came to. */
  predicate Outcomes(entries: Entries, now: Time, order: seq<Due<Task>>, outcomes: seq<Option<Problem>>) {
    |outcomes| <= |order| &&
    forall i :: 0 <= i < |outcomes| ==> Outcome(entries, now, KeyOf(order[i].task), outcomes[i])
  }

  lemma OutcomesNext(w: World, w': World, now: Time, order: seq<Due<Task>>, outcomes: seq<Option<Problem>>,
                     problem: Option<Problem>)
    requires KeysApart(order) && |outcomes| < |order| && Outcomes(w.store.entries, now, order, outcomes)
    requires Deferred(w, w', now, KeyOf(order[|outcomes|].task))
    requires Outcome(w'.store.entries, now, KeyOf(order[|outcomes|].task), problem)
    ensures Outcomes(w'.store.entries, now, order, outcomes + [problem])
  {
    forall i | 0 <= i < |outcomes| ensures Outcome(w'.store.entries, now, KeyOf(order[i].task), outcomes[i]) {
      var k := KeyOf(order[i].task);
      assert k != KeyOf(order[|outcomes|].task);
      if outcomes[i].None? {
        assert Untried(w, w', k);
      } else {
        assert SameAt(w.store, w'.store, k);
      }
    }
  }

  /** Undisturbed, every attempt that does not complete is a failure. */
  lemma {:induction false} AllCounted(entries: Entries, now: Time, order: seq<Due<Task>>,
                                      outcomes: seq<Option<Problem>>)
    requires Outcomes(entries, now, order, outcomes)
    ensures |FailedOf(outcomes)| + |CompletedOf(outcomes)| == |outcomes|
  {
    if outcomes == [] {
      assert FailedOf(outcomes) == {} && CompletedOf(outcomes) == {};
    } else {
      var front, last := outcomes[..|outcomes| - 1], outcomes[|outcomes| - 1];
      AllCounted(entries, now, order, front);
      assert front + [last] == outcomes && Outcome(entries, now, KeyOf(order[|front|].task), last);
      FailedGrow(front, last);
      CompletedGrow(front, last);
    }
  }

  /** How far the attempts have come when `i` tasks have been looked at. */
  ghost predicate Going(w: World, w': World, order: seq<Due<Task>>, now: Time, batch: nat, i: nat,
                        outcomes: seq<Option<Problem>>, report: Report, alone: bool)
  {
    && i <= |order| && AllRead(w', now, order) && Accounted(w', order, outcomes, report)
    && report.attempted == Min(Min(i, batch), DueCount(order, now))
    && (alone ==> Swept(w, w', now, order, report.attempted) && Outcomes(w'.store.entries, now, order, outcomes))
  }

  lemma GoesOn(w: World, u: World, w': World, order: seq<Due<Task>>, now: Time, batch: nat, i: nat,
               outcomes: seq<Option<Problem>>, report: Report, alone: bool, problem: Option<Problem>)
    requires Sorted(order) && KeysApart(order) && i < |order| && order[i].due <= now && report.attempted < batch
    requires Going(w, u, order, now, batch, i, outcomes, report, alone) && Since(u, w')
    requires problem.None? ==> Settled(w', order[i].task)
    requires alone ==> Deferred(u, w', now, KeyOf(order[i].task)) &&
                       Outcome(w'.store.entries, now, KeyOf(order[i].task), problem)
    ensures Going(w, w', order, now, batch, i + 1, outcomes + [problem], NextReport(report, problem), alone)
  {
    DueIsPrefix(order, now);
    assert report.attempted == i;
    AllStillRead(u, w', now, order);
    AccountedNext(u, w', order, outcomes, report, problem);
    if alone {
      SweptNext(w, u, w', now, order, i);
      OutcomesNext(u, w', now, order, outcomes, problem);
    }
  }

  method AttemptBatch(c: Cluster, ghost rely: Rely, order: seq<Due<Task>>, now: Time, batch: nat)
    returns (report: Report, ghost outcomes: seq<Option<Problem>>)
    requires c.Valid() && AllRead(c.w, now, order) && Sorted(order) && KeysApart(order)
    requires rely.alone ==> now == c.w.clock && forall x :: x in order ==> Ready(c.w.store.entries, now, x)
    modifies c
    ensures c.Valid() && Since(old(c.w), c.w)
    ensures DueCount(order, now) <= |order| && report.attempted == Min(batch, DueCount(order, now))
    ensures Accounted(c.w, order, outcomes, report)
    ensures rely.alone ==>
              && Swept(old(c.w), c.w, now, order, report.attempted) && Outcomes(c.w.store.entries, now, order, outcomes)
              && report.completed + report.failed == report.attempted
  {
    ghost var w0 := c.w;
    SinceSelf(w0);
    DueIsPrefix(order, now);
    report, outcomes := Report(|order|, 0, 0, 0), [];
    for i := 0 to |order|
      invariant c.Valid() && Since(w0, c.w) && Going(w0, c.w, order, now, batch, i, outcomes, report, rely.alone)
    {
      if order[i].due <= now && report.attempted < batch {
        ghost var w1 := c.w;
        assert order[i] in order;
        var problem, ending := Attempt(c, rely, order[i], order[i].task, now);
        SinceChain(w0, w1, c.w);
        GoesOn(w0, w1, c.w, order, now, batch, i, outcomes, report, rely.alone, problem);
        report := NextReport(report, problem);
        outcomes := outcomes + [problem];
      }
    }
    if rely.alone {
      AllCounted(c.w.store.entries, now, order, outcomes);
    }
  }
}
