/** The render thread's idle park and the resume handoff, one atomic access at a time.

    Any number of threads call suspend(), resume() and shutdown() while the render thread runs
    its loop. A step is one access to shared memory, or one critical section whose only shared
    access is a single store. `suspend_mutex_` is the point: the render thread holds it from
    setting `parked_` until it either sleeps or clears `parked_` again. */
module AlsaHandoff {
  /** Where the render thread stands in its loop. */
  datatype Render =
    | Top                        // about to test running_
    | TestSuspended              // about to read suspended_
    | Drained                    // about to take suspend_mutex_
    | Testing                    // holds the mutex, about to evaluate the wait predicate
    | Committed                  // holds the mutex, predicate was false, about to sleep
    | Sleeping(notified: bool)   // asleep, mutex released
    | Unparking                  // holds the mutex, predicate was true
    | Awake                      // about to test running_ and prepare the device
    | Ready                      // about to read the voices
    | Rendered                   // about to finish the write
    | Written                    // about to load resume_seq_
    | Acking(loaded: nat)        // about to compare and store resume_acked_
    | Exited

  datatype Outcome = NotSuspended | HandedOff | ThreadStopped | TimedOut

  datatype Caller =
    | Away
    | Cleared                    // resume(): took suspended_ from true to false
    | Bumped(ticket: nat)           // resume(): about to notify
    | Notified(ticket: nat)         // resume(): about to test running_
    | Waiting(ticket: nat)          // resume(): in the timed wait
    | Returned(outcome: Outcome, ticket: nat)
    | Stopping                   // shutdown(): running_ is false, about to take the mutex
    | Stopped                    // shutdown(): suspended_ is false, about to notify

  /** Where the render thread was, and how many passes it had started and written. */
  datatype Phase = Outside | BeforeWrite | AfterWrite
  datatype Mark = Mark(phase: Phase, started: nat, written: nat)

  /** Requests issued and acknowledged, passes started and written. `bumps[i]` and `acks[i]`
      describe the moments number i + 1 was issued and acknowledged; no step reads them. */
  datatype History = History(
    issued: nat, acked: nat, started: nat, written: nat, bumps: seq<Mark>, acks: seq<Mark>)

  datatype Shared = Shared(
    keepAlive: bool, running: bool, suspended: bool, parked: bool, render: Render,
    callers: map<nat, Caller>, h: History)

  datatype Action =
    | Suspend(t: nat) | Resume(t: nat) | Bump(t: nat) | Notify(t: nat) | CheckThread(t: nat)
    | Poll(t: nat) | TimeOut(t: nat)
    | Stop(t: nat) | StopUnderLock(t: nat) | StopNotify(t: nat)
    | RenderStep | SpuriousWake

  function Pc(s: Shared, t: nat): Caller { if t in s.callers then s.callers[t] else Away }

  function Move(s: Shared, t: nat, c: Caller): Shared { s.(callers := s.callers[t := c]) }

  function PhaseOf(r: Render): Phase {
    match r
    case Rendered => BeforeWrite
    case Written => AfterWrite
    case _ => Outside
  }

  predicate HoldsMutex(r: Render) { r == Testing || r == Committed || r == Unparking }

  predicate MayCall(c: Caller) { c == Away || c.Returned? }

  function Wake(s: Shared): Shared {
    if s.render.Sleeping? then s.(render := Sleeping(true)) else s
  }

  function Issue(h: History, r: Render): History {
    h.(issued := h.issued + 1, bumps := h.bumps + [Mark(PhaseOf(r), h.started, h.written)])
  }

  function Acknowledge(h: History, n: nat): History {
    if h.acked == n then h
    else h.(acked := n, acks := h.acks + seq(if n > |h.acks| then n - |h.acks| else 0,
                                             _ => Mark(Outside, h.started, h.written)))
  }

  function RenderNext(s: Shared): Shared {
    match s.render
    case Top => s.(render := if s.running then TestSuspended else Exited)
    case TestSuspended => s.(render := if s.suspended then Drained else Ready)
    case Drained => s.(render := Testing, parked := true)
    case Testing => s.(render := if s.suspended && s.running then Committed else Unparking)
    case Committed => s.(render := Sleeping(false))
    case Sleeping(notified) => if notified then s.(render := Testing) else s
    case Unparking => s.(render := Awake, parked := false)
    case Awake => s.(render := if s.running then Ready else Exited)
    case Ready => s.(render := Rendered, h := s.h.(started := s.h.started + 1))
    case Rendered => s.(render := Written, h := s.h.(written := s.h.written + 1))
    case Written => s.(render := Acking(s.h.issued))
    case Acking(n) => s.(render := Top, h := Acknowledge(s.h, n))
    case Exited => s
  }

  /** An action that is not enabled leaves the state alone. */
  function Next(s: Shared, a: Action): Shared {
    match a
    case Suspend(t) => if MayCall(Pc(s, t)) && !s.keepAlive then s.(suspended := true) else s
    case Resume(t) =>
      if !MayCall(Pc(s, t)) || HoldsMutex(s.render) then s
      else if s.suspended then Move(s.(suspended := false), t, Cleared)
      else Move(s, t, Returned(NotSuspended, 0))
    case Bump(t) =>
      if Pc(s, t) != Cleared then s
      else Move(s.(h := Issue(s.h, s.render)), t, Bumped(s.h.issued + 1))
    case Notify(t) => if Pc(s, t).Bumped? then Move(Wake(s), t, Notified(Pc(s, t).ticket)) else s
    case CheckThread(t) =>
      if !Pc(s, t).Notified? then s
      else Move(s, t, if s.running then Waiting(Pc(s, t).ticket)
                      else Returned(ThreadStopped, Pc(s, t).ticket))
    case Poll(t) =>
      if !Pc(s, t).Waiting? then s
      else if s.h.acked >= Pc(s, t).ticket then Move(s, t, Returned(HandedOff, Pc(s, t).ticket))
      else if !s.running then Move(s, t, Returned(ThreadStopped, Pc(s, t).ticket))
      else s
    case TimeOut(t) => if Pc(s, t).Waiting? then Move(s, t, Returned(TimedOut, Pc(s, t).ticket)) else s
    case Stop(t) => if MayCall(Pc(s, t)) then Move(s.(running := false), t, Stopping) else s
    case StopUnderLock(t) =>
      if Pc(s, t) != Stopping || HoldsMutex(s.render) then s
      else Move(s.(suspended := false), t, Stopped)
    case StopNotify(t) => if Pc(s, t) == Stopped then Move(Wake(s), t, Away) else s
    case RenderStep => RenderNext(s)
    case SpuriousWake => Wake(s)
  }

  function Run(s: Shared, acts: seq<Action>): Shared
    decreases |acts|
  {
    if acts == [] then s else Run(Next(s, acts[0]), acts[1..])
  }

  function Boot(keepAlive: bool): Shared {
    Shared(keepAlive, true, false, false, Top, map[], History(0, 0, 0, 0, [], []))
  }

  // ---------------------------------------------------------------- the handoff

  /** What lies between issuing a sequence number and acknowledging it. */
  predicate Handoff(bump: Mark, ack: Mark) {
    match bump.phase
    case Outside => ack.started == bump.started + 1 && ack.written == bump.written + 1
    case BeforeWrite => ack.started == bump.started && ack.written == bump.written + 1
    case AfterWrite => ack.started == bump.started && ack.written == bump.written
  }

  /** For a number issued and not yet loaded, what the pass now under way will make of it. */
  predicate Outstanding(h: History, r: Render, bump: Mark) {
    match PhaseOf(r)
    case BeforeWrite =>
      || (bump.phase == Outside && h.started == bump.started + 1 && h.written == bump.written)
      || (bump.phase == BeforeWrite && h.started == bump.started && h.written == bump.written)
    case AfterWrite => Handoff(bump, Mark(Outside, h.started, h.written))
    case Outside => bump.phase == Outside && h.started == bump.started && h.written == bump.written
  }

  function Loaded(h: History, r: Render): nat { if r.Acking? then r.loaded else h.acked }

  predicate HistoryInv(h: History, r: Render) {
    && |h.bumps| == h.issued && |h.acks| == h.acked
    && h.acked <= Loaded(h, r) <= h.issued
    && (forall i :: 0 <= i < h.acked ==> Handoff(h.bumps[i], h.acks[i]))
    && (forall i :: h.acked <= i < Loaded(h, r) ==>
          Handoff(h.bumps[i], Mark(Outside, h.started, h.written)))
    && (forall i :: Loaded(h, r) <= i < h.issued ==> Outstanding(h, r, h.bumps[i]))
  }

  predicate HasTicket(c: Caller) { c.Bumped? || c.Notified? || c.Waiting? }

  predicate TicketOk(h: History, c: Caller) {
    && (HasTicket(c) ==> 1 <= c.ticket <= h.issued)
    && (c.Returned? && c.outcome == HandedOff ==> 1 <= c.ticket <= h.acked)
  }

  predicate TicketsOk(s: Shared) { forall t :: t in s.callers ==> TicketOk(s.h, s.callers[t]) }

  predicate HandoffInv(s: Shared) { HistoryInv(s.h, s.render) && TicketsOk(s) }

  lemma AcknowledgeKeepsHistory(s: Shared)
    requires HistoryInv(s.h, s.render) && s.render.Acking?
    ensures HistoryInv(RenderNext(s).h, RenderNext(s).render)
  {
  }

  lemma StartKeepsHistory(s: Shared)
    requires HistoryInv(s.h, s.render) && s.render == Ready
    ensures HistoryInv(RenderNext(s).h, RenderNext(s).render)
  {
  }

  lemma WriteKeepsHistory(s: Shared)
    requires HistoryInv(s.h, s.render) && s.render == Rendered
    ensures HistoryInv(RenderNext(s).h, RenderNext(s).render)
  {
  }

  lemma LoadKeepsHistory(s: Shared)
    requires HistoryInv(s.h, s.render) && s.render == Written
    ensures HistoryInv(RenderNext(s).h, RenderNext(s).render)
  {
  }

  /** Outside a pass the history does not depend on where the thread stands. */
  lemma OutsideKeepsHistory(h: History, r: Render, q: Render)
    requires HistoryInv(h, r)
    requires !r.Acking? && !q.Acking? && PhaseOf(r) == PhaseOf(q) == Outside
    ensures HistoryInv(h, q)
  {
  }

  /** Every step but the four that render or acknowledge leaves the history alone. */
  lemma IdleStepKeepsHistory(s: Shared)
    requires HistoryInv(s.h, s.render)
    requires !s.render.Acking? && s.render != Ready && s.render != Rendered && s.render != Written
    ensures HistoryInv(RenderNext(s).h, RenderNext(s).render)
  {
    var n := RenderNext(s);
    assert n.h == s.h && PhaseOf(n.render) == Outside && !n.render.Acking?;
    OutsideKeepsHistory(s.h, s.render, n.render);
  }

  lemma RenderKeepsHistory(s: Shared)
    requires HistoryInv(s.h, s.render)
    ensures HistoryInv(RenderNext(s).h, RenderNext(s).render)
  {
    match s.render
    case Acking(_) => AcknowledgeKeepsHistory(s);
    case Ready => StartKeepsHistory(s);
    case Rendered => WriteKeepsHistory(s);
    case Written => LoadKeepsHistory(s);
    case _ => IdleStepKeepsHistory(s);
  }

  lemma TicketsStand(s: Shared, n: Shared)
    requires TicketsOk(s) && n.callers == s.callers && n.h.issued >= s.h.issued && n.h.acked >= s.h.acked
    ensures TicketsOk(n)
  {
    forall t | t in n.callers ensures TicketOk(n.h, n.callers[t]) { assert TicketOk(s.h, s.callers[t]); }
  }

  lemma RenderOnlyAcknowledges(s: Shared)
    requires HistoryInv(s.h, s.render)
    ensures var n := RenderNext(s);
            n.h.issued == s.h.issued && n.h.acked >= s.h.acked && n.callers == s.callers
  {
    if s.render.Acking? { assert Loaded(s.h, s.render) == s.render.loaded; }
  }

  lemma RenderKeepsHandoff(s: Shared)
    requires HandoffInv(s)
    ensures HandoffInv(RenderNext(s))
  {
    RenderKeepsHistory(s);
    RenderOnlyAcknowledges(s);
    TicketsStand(s, RenderNext(s));
  }

  lemma MoveKeepsHandoff(s: Shared, t: nat, c: Caller)
    requires HandoffInv(s) && TicketOk(s.h, c)
    ensures HandoffInv(Move(s, t, c))
  {
  }

  lemma WakeKeepsHandoff(s: Shared)
    requires HandoffInv(s)
    ensures HandoffInv(Wake(s))
  {
  }

  lemma IssueKeepsHistory(h: History, r: Render)
    requires HistoryInv(h, r)
    ensures HistoryInv(Issue(h, r), r)
  {
    var n := Issue(h, r);
    assert Outstanding(n, r, n.bumps[h.issued]);
    forall i | Loaded(h, r) <= i < h.issued ensures Outstanding(n, r, n.bumps[i]) {
      assert Outstanding(h, r, h.bumps[i]);
    }
  }

  lemma BumpKeepsHandoff(s: Shared, t: nat)
    requires HandoffInv(s)
    ensures HandoffInv(Next(s, Bump(t)))
  {
    if Pc(s, t) == Cleared {
      var issued := s.(h := Issue(s.h, s.render));
      IssueKeepsHistory(s.h, s.render);
      TicketsStand(s, issued);
      MoveKeepsHandoff(issued, t, Bumped(s.h.issued + 1));
    }
  }

  /** Steps of a caller that touch neither the history nor the render thread. */
  lemma CallerKeepsHandoff(s: Shared, a: Action)
    requires HandoffInv(s)
    requires a.Resume? || a.CheckThread? || a.Poll? || a.TimeOut? || a.Stop? || a.StopUnderLock?
    ensures HandoffInv(Next(s, a))
  {
    var n := Next(s, a);
    assert n.h == s.h && n.render == s.render;
    assert n.callers == s.callers || n.callers == s.callers[a.t := n.callers[a.t]];
    if a.t in n.callers {
      assert TicketOk(s.h, Pc(s, a.t));
      assert TicketOk(n.h, n.callers[a.t]);
    }
  }

  lemma StepKeepsHandoff(s: Shared, a: Action)
    requires HandoffInv(s)
    ensures HandoffInv(Next(s, a))
  {
    match a
    case RenderStep => RenderKeepsHandoff(s);
    case SpuriousWake => WakeKeepsHandoff(s);
    case Bump(t) => BumpKeepsHandoff(s, t);
    case Notify(t) =>
      WakeKeepsHandoff(s);
      if Pc(s, t).Bumped? { MoveKeepsHandoff(Wake(s), t, Notified(Pc(s, t).ticket)); }
    case StopNotify(t) => WakeKeepsHandoff(s); MoveKeepsHandoff(Wake(s), t, Away);
    case Suspend(t) =>
    case _ => CallerKeepsHandoff(s, a);
  }

  lemma {:induction false} RunKeepsHandoff(s: Shared, acts: seq<Action>)
    requires HandoffInv(s)
    ensures HandoffInv(Run(s, acts))
    decreases |acts|
  {
    if acts != [] {
      StepKeepsHandoff(s, acts[0]);
      RunKeepsHandoff(Next(s, acts[0]), acts[1..]);
    }
  }

  /** Acknowledgements never run ahead of requests, and a resume() that returns handed off had
      its number acknowledged. Between the two lies exactly one whole pass when the number was
      issued outside a pass; the rest of the pass under way when it was issued before the write;
      and no rendering at all when it landed between the write and the load of `resume_seq_`. */
  lemma HandoffExactly(keepAlive: bool, acts: seq<Action>, t: nat)
    ensures var s := Run(Boot(keepAlive), acts);
            && s.h.acked <= s.h.issued == |s.h.bumps| && |s.h.acks| == s.h.acked
            && (forall i :: 0 <= i < s.h.acked ==> Handoff(s.h.bumps[i], s.h.acks[i]))
            && (Pc(s, t).Returned? && Pc(s, t).outcome == HandedOff ==> 1 <= Pc(s, t).ticket <= s.h.acked)
  {
    RunKeepsHandoff(Boot(keepAlive), acts);
  }

  /** A resume() that lands between the write and the load of `resume_seq_`. */
  const LATE_RESUME: seq<Action> := [
    RenderStep, RenderStep, RenderStep, RenderStep,
    Suspend(1), Resume(0), Bump(0), Notify(0), CheckThread(0),
    RenderStep, RenderStep, Poll(0)]

  function Playing(render: Render, h: History): Shared { Shared(false, true, false, false, render, map[], h) }

  const BEFORE := History(0, 0, 1, 1, [], [])
  const ISSUED := History(1, 0, 1, 1, [Mark(AfterWrite, 1, 1)], [])
  const ACKED := History(1, 1, 1, 1, [Mark(AfterWrite, 1, 1)], [Mark(Outside, 1, 1)])

  const LATE_STATES: seq<Shared> := [
    Boot(false), Playing(TestSuspended, History(0, 0, 0, 0, [], [])), Playing(Ready, History(0, 0, 0, 0, [], [])),
    Playing(Rendered, History(0, 0, 1, 0, [], [])), Playing(Written, BEFORE),
    Playing(Written, BEFORE).(suspended := true), Playing(Written, BEFORE).(callers := map[0 := Cleared]),
    Playing(Written, ISSUED).(callers := map[0 := Bumped(1)]),
    Playing(Written, ISSUED).(callers := map[0 := Notified(1)]),
    Playing(Written, ISSUED).(callers := map[0 := Waiting(1)]),
    Playing(Acking(1), ISSUED).(callers := map[0 := Waiting(1)]),
    Playing(Top, ACKED).(callers := map[0 := Waiting(1)]),
    Playing(Top, ACKED).(callers := map[0 := Returned(HandedOff, 1)])]

  predicate Follows(states: seq<Shared>, acts: seq<Action>) {
    |states| == |acts| + 1 && forall k :: 0 <= k < |acts| ==> states[k + 1] == Next(states[k], acts[k])
  }

  lemma {:induction false} FollowedIsRun(states: seq<Shared>, acts: seq<Action>)
    requires Follows(states, acts)
    ensures Run(states[0], acts) == states[|acts|]
    decreases |acts|
  {
    if acts != [] {
      forall k | 0 <= k < |acts[1..]| ensures states[1..][k + 1] == Next(states[1..][k], acts[1..][k]) {
        assert states[k + 2] == Next(states[k + 1], acts[k + 1]);
      }
      FollowedIsRun(states[1..], acts[1..]);
    }
  }

  predicate Leads(k: nat)
    requires k < 12
  {
    LATE_STATES[k + 1] == Next(LATE_STATES[k], LATE_RESUME[k])
  }

  lemma FirstPassLeads()
    ensures Leads(0) && Leads(1) && Leads(2)
  {
  }

  lemma SuspendLeads()
    ensures Leads(3) && Leads(4)
  {
  }

  lemma ResumeLeads()
    ensures Leads(5)
  {
  }

  lemma BumpLeads()
    ensures Leads(6)
  {
  }

  lemma WaitLeads()
    ensures Leads(7) && Leads(8)
  {
  }

  lemma AcknowledgementLeads()
    ensures Leads(9) && Leads(10) && Leads(11)
  {
  }

  /** It is told handed off although not one pass was started or written after its number was
      issued: the whole pass that the documentation promises it is not there. */
  lemma HandedOffWithoutAPass()
    ensures var s := Run(Boot(false), LATE_RESUME);
            Pc(s, 0) == Returned(HandedOff, 1) && s.h.started == s.h.written == 1
            && s.h.bumps == [Mark(AfterWrite, 1, 1)] && s.h.acks == [Mark(Outside, 1, 1)]
  {
    FirstPassLeads();
    SuspendLeads();
    ResumeLeads();
    BumpLeads();
    WaitLeads();
    AcknowledgementLeads();
    forall k | 0 <= k < 12 ensures Leads(k) { }
    assert Follows(LATE_STATES, LATE_RESUME);
    FollowedIsRun(LATE_STATES, LATE_RESUME);
  }

  // ---------------------------------------------------------------- no lost wake-up

  /** The caller has made the wait predicate true and has yet to notify. */
  predicate WillNotify(c: Caller) { c == Cleared || c.Bumped? || c == Stopping || c == Stopped }

  ghost predicate NotifyPending(s: Shared) { exists t :: t in s.callers && WillNotify(s.callers[t]) }

  ghost predicate WakeInv(s: Shared) {
    && (s.render == Sleeping(false) ==> (s.suspended && s.running) || NotifyPending(s))
    && (s.render == Committed ==> s.suspended && (s.running || StopPending(s)))
    && (s.parked <==> HoldsMutex(s.render) || s.render.Sleeping?)
    && (s.render == Exited ==> !s.running)
    && (s.keepAlive ==> !s.suspended && !s.parked && s.render != Drained)
  }

  /** shutdown() has stopped the loop and not yet taken the mutex. */
  ghost predicate StopPending(s: Shared) { exists t :: t in s.callers && s.callers[t] == Stopping }

  lemma PendingSurvives(s: Shared, t: nat, c: Caller, u: nat)
    requires u in s.callers && WillNotify(s.callers[u])
    requires u != t || WillNotify(c)
    ensures NotifyPending(Move(s, t, c))
  {
    var n := Move(s, t, c);
    assert u in n.callers && WillNotify(n.callers[u]);
  }

  lemma StopSurvives(s: Shared, t: nat, c: Caller, u: nat)
    requires u in s.callers && s.callers[u] == Stopping
    requires u != t || c == Stopping
    ensures StopPending(Move(s, t, c))
  {
    var n := Move(s, t, c);
    assert u in n.callers && n.callers[u] == Stopping;
  }

  lemma RenderKeepsWake(s: Shared)
    requires WakeInv(s)
    ensures WakeInv(RenderNext(s))
  {
  }

  /** Moving a caller that owes no notification, or that still owes one, keeps the invariant. */
  lemma MoveKeepsWake(s: Shared, t: nat, c: Caller)
    requires WakeInv(s)
    requires WillNotify(Pc(s, t)) ==> WillNotify(c) || s.render != Sleeping(false)
    requires Pc(s, t) == Stopping ==> c == Stopping || s.render != Committed
    ensures WakeInv(Move(s, t, c))
  {
    if s.render == Sleeping(false) && NotifyPending(s) {
      var u :| u in s.callers && WillNotify(s.callers[u]);
      PendingSurvives(s, t, c, u);
    }
    if s.render == Committed && StopPending(s) {
      var u :| u in s.callers && s.callers[u] == Stopping;
      StopSurvives(s, t, c, u);
    }
  }

  /** The caller that makes the predicate true owes a notification from that very step on. */
  lemma ReleaseKeepsWake(s: Shared, t: nat, n: Shared, c: Caller)
    requires WakeInv(s) && WillNotify(c) && (Pc(s, t) == Stopping ==> c == Stopped)
    requires n == Move(s.(running := n.running, suspended := n.suspended), t, c)
    requires (n.suspended ==> s.suspended) && (n.running ==> s.running)
    requires s.suspended != n.suspended || c == Stopped ==> !HoldsMutex(s.render)
    requires s.running != n.running ==> c == Stopping
    ensures WakeInv(n)
  {
    assert t in n.callers && WillNotify(n.callers[t]);
    if s.render == Committed {
      if StopPending(s) {
        var u :| u in s.callers && s.callers[u] == Stopping;
        assert u in n.callers && (n.callers[u] == Stopping || u == t);
      }
    }
  }

  lemma StepKeepsWake(s: Shared, a: Action)
    requires WakeInv(s)
    ensures WakeInv(Next(s, a))
  {
    match a
    case Suspend(t) =>
      var n := Next(s, a);
      assert n.callers == s.callers;
      if NotifyPending(s) { assert NotifyPending(n); }
      if StopPending(s) { assert StopPending(n); }
    case Resume(t) =>
      if MayCall(Pc(s, t)) && !HoldsMutex(s.render) {
        if s.suspended { ReleaseKeepsWake(s, t, Next(s, a), Cleared); }
        else { MoveKeepsWake(s, t, Returned(NotSuspended, 0)); }
      }
    case Bump(t) =>
      if Pc(s, t) == Cleared {
        var n := s.(h := Issue(s.h, s.render));
        assert WakeInv(n) by {
          assert n.callers == s.callers;
          if NotifyPending(s) { assert NotifyPending(n); }
          if StopPending(s) { assert StopPending(n); }
        }
        MoveKeepsWake(n, t, Bumped(s.h.issued + 1));
      }
    case Notify(t) => if Pc(s, t).Bumped? { WakeKeepsWake(s); MoveKeepsWake(Wake(s), t, Notified(Pc(s, t).ticket)); }
    case CheckThread(t) =>
      if Pc(s, t).Notified? {
        MoveKeepsWake(s, t, Waiting(Pc(s, t).ticket));
        MoveKeepsWake(s, t, Returned(ThreadStopped, Pc(s, t).ticket));
      }
    case Poll(t) =>
      if Pc(s, t).Waiting? {
        MoveKeepsWake(s, t, Returned(HandedOff, Pc(s, t).ticket));
        MoveKeepsWake(s, t, Returned(ThreadStopped, Pc(s, t).ticket));
      }
    case TimeOut(t) => if Pc(s, t).Waiting? { MoveKeepsWake(s, t, Returned(TimedOut, Pc(s, t).ticket)); }
    case Stop(t) => if MayCall(Pc(s, t)) { ReleaseKeepsWake(s, t, Next(s, a), Stopping); }
    case StopUnderLock(t) =>
      if Pc(s, t) == Stopping && !HoldsMutex(s.render) { ReleaseKeepsWake(s, t, Next(s, a), Stopped); }
    case StopNotify(t) => if Pc(s, t) == Stopped { WakeKeepsWake(s); MoveKeepsWake(Wake(s), t, Away); }
    case RenderStep => RenderKeepsWake(s);
    case SpuriousWake => WakeKeepsWake(s);
  }

  lemma WakeKeepsWake(s: Shared)
    requires WakeInv(s)
    ensures WakeInv(Wake(s)) && Wake(s).render != Sleeping(false)
  {
  }

  lemma {:induction false} RunKeepsWake(s: Shared, acts: seq<Action>)
    requires WakeInv(s)
    ensures WakeInv(Run(s, acts))
    decreases |acts|
  {
    if acts != [] {
      StepKeepsWake(s, acts[0]);
      RunKeepsWake(Next(s, acts[0]), acts[1..]);
    }
  }

  /** The render thread is never left asleep by a resume or a shutdown: if it sleeps and nobody
      still owes it a notification, it was asked to, and the loop is still running. */
  lemma NoLostWakeUp(keepAlive: bool, acts: seq<Action>)
    ensures var s := Run(Boot(keepAlive), acts);
            s.render == Sleeping(false) ==> (s.suspended && s.running) || NotifyPending(s)
  {
    RunKeepsWake(Boot(keepAlive), acts);
  }

  /** A sink that must keep its clock running is never parked, and no resume waits for it. */
  lemma KeepAliveNeverParks(acts: seq<Action>, t: nat)
    ensures var s := Run(Boot(true), acts);
            !s.parked && !s.suspended && Next(s, Resume(t)).h == s.h
            && (MayCall(Pc(s, t)) && !HoldsMutex(s.render) ==>
                  Pc(Next(s, Resume(t)), t) == Returned(NotSuspended, 0))
  {
    RunKeepsWake(Boot(true), acts);
    RunKeepsSetting(Boot(true), acts);
  }

  lemma StepKeepsSetting(s: Shared, a: Action)
    ensures Next(s, a).keepAlive == s.keepAlive
  {
  }

  lemma {:induction false} RunKeepsSetting(s: Shared, acts: seq<Action>)
    ensures Run(s, acts).keepAlive == s.keepAlive
    decreases |acts|
  {
    if acts != [] {
      StepKeepsSetting(s, acts[0]);
      RunKeepsSetting(Next(s, acts[0]), acts[1..]);
    }
  }

  function RenderFor(s: Shared, n: nat): Shared
    decreases n
  {
    if n == 0 then s else RenderFor(RenderNext(s), n - 1)
  }

  /** Own steps of the render thread left before it acknowledges what is issued now. */
  function StepsToAck(r: Render, issued: nat): nat {
    match r
    case Written => 2
    case Rendered => 3
    case Ready => 4
    case TestSuspended => 5
    case Awake => 5
    case Top => 6
    case Unparking => 6
    case Testing => 7
    case Drained => 8
    case Sleeping(_) => 8
    case Acking(n) => if n == issued then 1 else 7
    case _ => 0
  }

  /** The render thread is on its own way to the acknowledgement. */
  ghost predicate Alone(s: Shared) {
    WakeInv(s) && HandoffInv(s) && s.running && !s.suspended && s.render != Sleeping(false)
  }

  lemma StepsGoDown(s: Shared)
    requires Alone(s)
    ensures Alone(RenderNext(s)) && RenderNext(s).h.issued == s.h.issued
    ensures var n := StepsToAck(s.render, s.h.issued);
            && (n == 0 ==> s.h.acked == s.h.issued)
            && (n == 1 ==> RenderNext(s).h.acked == s.h.issued)
            && (n > 1 ==> StepsToAck(RenderNext(s).render, s.h.issued) == n - 1)
  {
    RenderKeepsWake(s);
    RenderKeepsHandoff(s);
  }

  lemma {:induction false} RenderAlone(s: Shared, n: nat)
    requires Alone(s) && n == StepsToAck(s.render, s.h.issued)
    ensures RenderFor(s, n).h.acked == s.h.issued
    decreases n
  {
    StepsGoDown(s);
    if n > 1 { RenderAlone(RenderNext(s), n - 1); }
  }

  /** Once nobody owes a notification and no suspend is standing, at most eight steps of the
      render thread on its own acknowledge every resume issued so far. */
  lemma ResumeIsAnswered(keepAlive: bool, acts: seq<Action>)
    ensures var s := Run(Boot(keepAlive), acts);
            s.running && !s.suspended && !NotifyPending(s) ==>
              exists n :: 0 <= n <= 8 && RenderFor(s, n).h.acked == s.h.issued
  {
    RunKeepsWake(Boot(keepAlive), acts);
    RunKeepsHandoff(Boot(keepAlive), acts);
    var s := Run(Boot(keepAlive), acts);
    if s.running && !s.suspended && !NotifyPending(s) {
      RenderAlone(s, StepsToAck(s.render, s.h.issued));
    }
  }

  // ---------------------------------------------------------------- the idle park

  /** Own steps of the render thread left before it sleeps, while a suspend stands. */
  function StepsToSleep(r: Render): nat {
    match r
    case Sleeping(notified) => if notified then 3 else 0
    case Committed => 1
    case Testing => 2
    case Drained => 3
    case TestSuspended => 4
    case Top => 5
    case Acking(_) => 6
    case Written => 7
    case Rendered => 8
    case Ready => 9
    case Awake => 10
    case Unparking => 11
    case Exited => 0
  }

  predicate Suspended(s: Shared) { s.suspended && s.running }

  /** The thread has passed its test of `suspended_` and not begun the pass it leads to. */
  predicate LetThrough(r: Render) { r == Unparking || r == Awake || r == Ready }

  lemma SuspendedStep(s: Shared)
    requires Suspended(s) && WakeInv(s) && s.render != Sleeping(false)
    ensures var n := RenderNext(s);
            && Suspended(n) && WakeInv(n) && StepsToSleep(n.render) == StepsToSleep(s.render) - 1
  {
    RenderKeepsWake(s);
  }

  lemma {:induction false} SuspendedThreadSleeps(s: Shared, n: nat)
    requires Suspended(s) && WakeInv(s) && n == StepsToSleep(s.render)
    ensures var p := RenderFor(s, n); p.render == Sleeping(false) && p.parked
    decreases n
  {
    if n > 0 {
      SuspendedStep(s);
      SuspendedThreadSleeps(RenderNext(s), n - 1);
    }
  }

  /** Once a suspend stands, at most eleven steps of the render thread on its own park it. */
  lemma SuspendIsAnswered(keepAlive: bool, acts: seq<Action>)
    ensures var s := Run(Boot(keepAlive), acts);
            Suspended(s) ==>
              exists n :: 0 <= n <= 11 && RenderFor(s, n).render == Sleeping(false) && RenderFor(s, n).parked
  {
    RunKeepsWake(Boot(keepAlive), acts);
    var s := Run(Boot(keepAlive), acts);
    if Suspended(s) { SuspendedThreadSleeps(s, StepsToSleep(s.render)); }
  }

  /** The suspend stands now and after every action. */
  predicate StaysSuspended(s: Shared, acts: seq<Action>)
    decreases |acts|
  {
    Suspended(s) && (acts == [] || StaysSuspended(Next(s, acts[0]), acts[1..]))
  }

  /** A pass that was let through before the suspend, not begun yet. */
  function Owed(r: Render): nat { if LetThrough(r) then 1 else 0 }

  lemma SuspendedStepStartsOnlyOwed(s: Shared, a: Action)
    requires Suspended(s) && Suspended(Next(s, a))
    ensures s.h.started <= Next(s, a).h.started
    ensures Next(s, a).h.started + Owed(Next(s, a).render) <= s.h.started + Owed(s.render)
  {
  }

  lemma {:induction false} SuspendedStartsOnlyOwed(s: Shared, acts: seq<Action>)
    requires StaysSuspended(s, acts)
    ensures var n := Run(s, acts);
            s.h.started <= n.h.started && n.h.started + Owed(n.render) <= s.h.started + Owed(s.render)
    decreases |acts|
  {
    if acts != [] {
      SuspendedStepStartsOnlyOwed(s, acts[0]);
      SuspendedStartsOnlyOwed(Next(s, acts[0]), acts[1..]);
    }
  }

  /** While a suspend stands no pass is begun, whatever the callers and spurious wake-ups do, but
      for the one the thread had passed its test for; and none at all once it has parked. */
  lemma SuspendStopsRendering(keepAlive: bool, before: seq<Action>, acts: seq<Action>)
    requires StaysSuspended(Run(Boot(keepAlive), before), acts)
    ensures var s := Run(Boot(keepAlive), before);
            && Run(s, acts).h.started <= s.h.started + Owed(s.render)
            && (s.parked && s.render != Unparking ==> Run(s, acts).h.started == s.h.started)
  {
    var s := Run(Boot(keepAlive), before);
    RunKeepsWake(Boot(keepAlive), before);
    SuspendedStartsOnlyOwed(s, acts);
  }

  // ---------------------------------------------------------------- the shutdown

  /** Own steps of the render thread left before it leaves its loop, once that is to stop. */
  function StepsToExit(r: Render): nat {
    match r
    case Exited => 0
    case Top => 1
    case Awake => 1
    case Acking(_) => 2
    case Unparking => 2
    case Written => 3
    case Testing => 3
    case Rendered => 4
    case Sleeping(_) => 4
    case Drained => 4
    case Committed => 5
    case Ready => 5
    case TestSuspended => 6
  }

  lemma StoppedStep(s: Shared)
    requires !s.running && s.render != Exited && s.render != Sleeping(false) && s.render != Committed
    ensures !RenderNext(s).running && RenderNext(s).render != Sleeping(false) && RenderNext(s).render != Committed
    ensures StepsToExit(RenderNext(s).render) < StepsToExit(s.render)
  {
  }

  lemma {:induction false} StoppedThreadExits(s: Shared, n: nat)
    requires !s.running && s.render != Sleeping(false) && s.render != Committed && n >= StepsToExit(s.render)
    ensures RenderFor(s, n).render == Exited
    decreases n
  {
    if n > 0 {
      if s.render != Exited { StoppedStep(s); }
      StoppedThreadExits(RenderNext(s), n - 1);
    }
  }

  /** Once the loop is to stop and nobody owes a notification, at most six steps of the render thread
      on its own leave the loop; and no action starts it again. */
  lemma ShutdownIsAnswered(keepAlive: bool, acts: seq<Action>)
    ensures var s := Run(Boot(keepAlive), acts);
            !s.running && !NotifyPending(s) ==> RenderFor(s, 6).render == Exited
  {
    RunKeepsWake(Boot(keepAlive), acts);
    var s := Run(Boot(keepAlive), acts);
    if !s.running && !NotifyPending(s) { StoppedThreadExits(s, 6); }
  }

  lemma {:induction false} StoppedStaysStopped(s: Shared, acts: seq<Action>)
    requires !s.running
    ensures !Run(s, acts).running && (s.render == Exited ==> Run(s, acts).render == Exited)
    decreases |acts|
  {
    if acts != [] {
      StopIsFinal(s, acts[0]);
      StoppedStaysStopped(Next(s, acts[0]), acts[1..]);
    }
  }

  lemma StopIsFinal(s: Shared, a: Action)
    requires !s.running
    ensures !Next(s, a).running && (s.render == Exited ==> Next(s, a).render == Exited)
  {
  }

  /** A sleeping thread is woken by a notification, or by no reason at all, and by nothing else. */
  lemma OnlyNotificationsWake(s: Shared, a: Action)
    requires s.render == Sleeping(false)
    ensures Next(s, a).render == Sleeping(false) || Next(s, a).render == Sleeping(true)
    ensures Next(s, a).render == Sleeping(true) <==>
            a == SpuriousWake || (a.Notify? && Pc(s, a.t).Bumped?) || (a.StopNotify? && Pc(s, a.t) == Stopped)
  {
  }

  // ---------------------------------------------------------------- the callers

  /** A whole resume() with the mutex free, up to its wait: the suspend is lifted, a new number issued,
      the sleeping thread woken; and it does not wait on a thread that is to stop. A second one finds
      nothing suspended. */
  lemma ResumeCall(s: Shared, t: nat)
    requires MayCall(Pc(s, t)) && s.suspended && !HoldsMutex(s.render)
    ensures var a := Next(s, Resume(t)); var b := Next(a, Bump(t)); var c := Next(b, Notify(t));
            var d := Next(c, CheckThread(t));
            && !d.suspended && d.h.issued == s.h.issued + 1 && d.running == s.running && d.parked == s.parked
            && d.render == (if s.render.Sleeping? then Sleeping(true) else s.render)
            && Pc(d, t) == (if s.running then Waiting(s.h.issued + 1) else Returned(ThreadStopped, s.h.issued + 1))
            && Pc(Next(Move(d, t, Away), Resume(t)), t) ==
                 (if HoldsMutex(d.render) then Away else Returned(NotSuspended, 0))
  {
  }

  /** A waiting resume() is told of its acknowledgement first, else of a thread that stopped; its timer
      always ends the wait; and whoever has returned may call again. */
  lemma WaitsEnd(s: Shared, t: nat)
    requires Pc(s, t).Waiting?
    ensures var k := Pc(s, t).ticket;
            Pc(Next(s, Poll(t)), t) ==
              if s.h.acked >= k then Returned(HandedOff, k)
              else if !s.running then Returned(ThreadStopped, k)
              else Waiting(k)
    ensures var r := Next(s, TimeOut(t));
            Pc(r, t) == Returned(TimedOut, Pc(s, t).ticket) && r.h == s.h
            && (!r.keepAlive ==> Next(r, Suspend(t)).suspended)
  {
  }

  /** A whole shutdown() with the mutex free: the loop is to stop, no suspend stands, and the sleeping
      thread is woken. */
  lemma ShutdownCall(s: Shared, t: nat)
    requires MayCall(Pc(s, t)) && !HoldsMutex(s.render)
    ensures var d := Next(Next(Next(s, Stop(t)), StopUnderLock(t)), StopNotify(t));
            && !d.running && !d.suspended && Pc(d, t) == Away && d.h == s.h
            && d.render == (if s.render.Sleeping? then Sleeping(true) else s.render)
  {
  }
}
