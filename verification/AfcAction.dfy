/** The action AFC publishes: its state string, the stuck-action latch, the toolchange hold and
    optimistic dispatches, interleaved over frames, polls, acks and user commands.

    Every event carries the clock it ran under. A raw state is the firmware's token with the
    action it maps to. Detail texts are not part of this model; nothing decides on them. */
module AfcAction {
  import opened Wrappers

  datatype Action =
    | Idle | Loading | Unloading | Selecting | Resetting | FormingTip
    | Heating | Checking | Paused | Error | Cutting | Purging

  datatype Raw = Raw(token: string, action: Action)

  /** Whether a CHANGE_TOOL is in progress, and what that was told from. */
  datatype Change = Change(inProgress: bool, nextLane: string, toolheadLane: string, error: bool)

  datatype Afc = Afc(
    action: Action, since: int, lastRaw: Raw, latch: Option<Raw>, hold: Option<Action>, holdSince: int,
    change: Change, pending: Option<Action>, generation: nat)

  /** The keys of the AFC object that decide the action. */
  datatype Delta = Delta(load: Clearable<string>, state: Option<Raw>, next: Clearable<string>, error: Option<bool>)

  datatype Operation = LoadLane | UnloadLane | SwapTool

  /** `Poll` is a frame without the AFC object, or a read by the user interface. */
  datatype Event =
    | Frame(now: int, delta: Delta)
    | Poll(now: int)
    | Begin(now: int, op: Operation)
    | Ack(now: int, generation: nat)
    | Abandon(now: int, generation: nat)
    | ClearFault(now: int)
    | KlipperRestart
    | SendFailed

  /** An operation that can time out or be held. */
  predicate Working(a: Action) { a != Idle && a != Error && a != Paused }

  predicate Busy(a: Action) { a in {Heating, Loading, Unloading, Cutting, FormingTip, Purging, Selecting} }

  const HEATING_TIMEOUT := 300

  function Budget(a: Action): int {
    match a
    case Selecting => 300
    case Heating => HEATING_TIMEOUT
    case Purging => 240
    case Loading => 180
    case Unloading => 180
    case _ => 120
  }

  function ActionOf(op: Operation): Action {
    match op case LoadLane => Loading case UnloadLane => Unloading case SwapTool => Selecting
  }

  // ---------------------------------------------------------------- one frame

  function ApplyState(s: Afc, state: Option<Raw>): Afc {
    if state.None? then s
    else s.(action := state.value.action, lastRaw := state.value,
            pending := if state.value.action != Idle then None else s.pending)
  }

  function ApplyNext(c: Change, next: Clearable<string>): Change {
    match next
    case Omitted => c
    case Cleared => c.(inProgress := false, nextLane := "")
    case Set(lane) =>
      c.(nextLane := lane,
         inProgress := if lane == "" then false
                       else if lane != c.nextLane then lane != c.toolheadLane
                       else c.inProgress)
  }

  /** An error ends the change: AFC's CHANGE_TOOL returns on one. */
  function ApplyChange(c: Change, d: Delta): Change {
    var l := match d.load case Omitted => c case Cleared => c.(toolheadLane := "") case Set(x) => c.(toolheadLane := x);
    var n := ApplyNext(l, d.next);
    var e := if d.error.Some? then n.(error := d.error.value) else n;
    if e.error then e.(inProgress := false) else e
  }

  function ApplyFields(s: Afc, d: Delta): Afc { ApplyState(s, d.state).(change := ApplyChange(s.change, d)) }

  function ReleaseHold(s: Afc): Afc { s.(hold := None, action := Idle) }

  function ApplyHold(s: Afc, before: Action, now: int): Afc {
    if s.lastRaw.action != Idle then s.(hold := None)
    else if !s.change.inProgress then (if s.hold.Some? then ReleaseHold(s) else s)
    else if s.hold.None? then
      (if Working(before) then s.(hold := Some(before), holdSince := now, action := before) else s)
    else s.(action := s.hold.value)
  }

  function ApplyLatch(s: Afc): Afc {
    if s.latch.None? then s
    else if s.latch.value != s.lastRaw then s.(latch := None)
    else s.(action := Error)
  }

  /** Holding keeps its own bound; an action of AFC's is latched, one of ours is not. */
  function CheckTimeout(s: Afc, now: int): Afc {
    if s.latch.Some? then s
    else if s.hold.Some? then
      if now - s.holdSince >= HEATING_TIMEOUT then ReleaseHold(s).(change := s.change.(inProgress := false)) else s
    else if !Working(s.action) || now - s.since < Budget(s.action) then s
    else if s.pending == Some(s.action) then s.(action := Error, pending := None)
    else s.(action := Error, latch := Some(s.lastRaw))
  }

  function ApplyAfc(s: Afc, d: Delta, now: int): Afc {
    var n := ApplyLatch(ApplyHold(ApplyFields(s, d), s.action, now));
    if n.action != s.action then n.(since := now) else n
  }

  function Next(s: Afc, e: Event): Afc {
    match e
    case Frame(now, d) => CheckTimeout(ApplyAfc(s, d, now), now)
    case Poll(now) => CheckTimeout(s, now)
    case Begin(now, op) =>
      s.(generation := s.generation + 1, pending := Some(ActionOf(op)), latch := None,
         action := ActionOf(op), since := now)
    case Ack(now, g) =>
      if g != s.generation || s.pending != Some(s.action) then s
      else s.(pending := None, action := Idle, since := now)
    case Abandon(now, g) =>
      if g != s.generation || s.pending.None? then s
      else s.(pending := None, action := Idle, since := now)
    case ClearFault(now) => s.(latch := None, since := now)
    case KlipperRestart =>
      s.(pending := None, generation := s.generation + 1, action := if Busy(s.action) then Idle else s.action)
    case SendFailed => s.(action := Idle)
  }

  function Run(s: Afc, es: seq<Event>): Afc
    decreases |es|
  {
    if es == [] then s else Run(Next(s, es[0]), es[1..])
  }

  function Boot(now: int): Afc {
    Afc(Idle, now, Raw("", Idle), None, None, 0, Change(false, "", "", false), None, 0)
  }

  // ---------------------------------------------------------------- what every event keeps

  predicate HoldInv(s: Afc) { s.hold.Some? ==> Working(s.hold.value) && s.lastRaw.action == Idle }

  predicate LatchInv(s: Afc) {
    s.latch.Some? ==> Working(s.lastRaw.action) && s.latch.value == s.lastRaw && s.pending.None?
  }

  /** A working action that is not held is either our own pending one or AFC's own state. */
  predicate DriverInv(s: Afc) {
    && (s.pending.Some? ==> Busy(s.pending.value))
    && (s.hold.None? && Working(s.action) ==>
          s.pending == Some(s.action) || (s.pending.None? && s.action == s.lastRaw.action))
  }

  predicate Inv(s: Afc) { HoldInv(s) && LatchInv(s) && DriverInv(s) }

  lemma FieldsKeep(s: Afc, d: Delta)
    requires Inv(s)
    ensures var f := ApplyFields(s, d);
            && f.hold == s.hold && f.latch == s.latch && f.holdSince == s.holdSince
            && f.lastRaw == (if d.state.Some? then d.state.value else s.lastRaw)
            && f.action == (if d.state.Some? then d.state.value.action else s.action)
            && f.pending == (if d.state.Some? && d.state.value.action != Idle then None else s.pending)
  {
  }

  /** Between the fields and the hold, the invariants of the frame that is being applied. */
  lemma HoldKeeps(s: Afc, d: Delta, now: int)
    requires Inv(s)
    ensures var h := ApplyHold(ApplyFields(s, d), s.action, now);
            && HoldInv(h) && DriverInv(h) && h.latch == s.latch
            && h.lastRaw == ApplyFields(s, d).lastRaw
            && h.pending == ApplyFields(s, d).pending
  {
  }

  lemma FrameKeeps(s: Afc, d: Delta, now: int)
    requires Inv(s)
    ensures Inv(ApplyAfc(s, d, now))
  {
    FieldsKeep(s, d);
    HoldKeeps(s, d, now);
  }

  lemma StepKeeps(s: Afc, e: Event)
    requires Inv(s)
    ensures Inv(Next(s, e))
  {
    if e.Frame? { FrameKeeps(s, e.delta, e.now); }
  }

  lemma {:induction false} RunKeeps(s: Afc, es: seq<Event>)
    requires Inv(s)
    ensures Inv(Run(s, es))
    decreases |es|
  {
    if es != [] {
      StepKeeps(s, es[0]);
      RunKeeps(Next(s, es[0]), es[1..]);
    }
  }

  // ---------------------------------------------------------------- the latch

  /** What lets go of a latch: another token, a fault clear, a new dispatch. */
  predicate Unlatches(s: Afc, e: Event) {
    || e.Begin? || e.ClearFault?
    || (e.Frame? && e.delta.state.Some? && e.delta.state.value != s.lastRaw)
  }

  lemma LatchEndsExactly(s: Afc, e: Event)
    requires Inv(s) && s.latch.Some?
    ensures Next(s, e).latch == s.latch <==> !Unlatches(s, e)
    ensures !Unlatches(s, e) && e.Frame? ==> Next(s, e).action == Error
    ensures !Unlatches(s, e) ==> Next(s, e).lastRaw == s.lastRaw
  {
  }

  predicate NeverUnlatched(raw: Raw, es: seq<Event>) {
    forall i :: 0 <= i < |es| ==>
      !es[i].Begin? && !es[i].ClearFault?
      && (es[i].Frame? && es[i].delta.state.Some? ==> es[i].delta.state.value == raw)
  }

  lemma {:induction false} LatchedRun(s: Afc, es: seq<Event>)
    requires Inv(s) && s.latch.Some? && NeverUnlatched(s.lastRaw, es)
    ensures Run(s, es).latch == s.latch && Run(s, es).lastRaw == s.lastRaw && Inv(Run(s, es))
    decreases |es|
  {
    if es != [] {
      LatchEndsExactly(s, es[0]);
      StepKeeps(s, es[0]);
      LatchedRun(Next(s, es[0]), es[1..]);
    }
  }

  /** Once a state is latched, every frame that repeats it, or says nothing of it, publishes
      ERROR, whatever else comes between. */
  lemma RepeatsPublishError(now: int, before: seq<Event>, es: seq<Event>, f: Event)
    requires f.Frame?
    requires Run(Boot(now), before).latch.Some?
    requires NeverUnlatched(Run(Boot(now), before).lastRaw, es + [f])
    ensures Next(Run(Run(Boot(now), before), es), f).action == Error
  {
    RunKeeps(Boot(now), before);
    var s := Run(Boot(now), before);
    assert es + [f] == es + [(es + [f])[|es|]];
    forall i | 0 <= i < |es| ensures es[i] == (es + [f])[i] {}
    LatchedRun(s, es);
    LatchEndsExactly(Run(s, es), f);
  }

  /** Idle is never latched, nor an error or a pause: only a state of AFC's own that was busy. */
  lemma OnlyABusyStateIsLatched(now: int, es: seq<Event>)
    ensures var s := Run(Boot(now), es); s.latch.Some? ==> s.latch.value == s.lastRaw && Working(s.lastRaw.action)
  {
    RunKeeps(Boot(now), es);
  }

  // ---------------------------------------------------------------- a stuck state is surfaced

  /** AFC keeps driving `s.lastRaw`, and nothing of ours is pending. */
  predicate Driven(s: Afc) {
    s.pending.None? && s.hold.None? && s.latch.None? && s.action == s.lastRaw.action && Working(s.action)
  }

  predicate Repeats(raw: Raw, e: Event) {
    || (e.Frame? && (e.delta.state.None? || e.delta.state.value == raw))
    || e.Poll? || e.Ack? || e.Abandon?
  }

  lemma RepeatKeepsClock(s: Afc, e: Event)
    requires Inv(s) && Driven(s) && Repeats(s.lastRaw, e)
    ensures var n := Next(s, e);
            && n.lastRaw == s.lastRaw
            && ((Driven(n) && n.since == s.since) || (n.latch == Some(s.lastRaw) && n.action == Error))
            && ((e.Frame? || e.Poll?) && e.now - s.since >= Budget(s.action) ==> n.latch == Some(s.lastRaw))
  {
  }

  lemma {:induction false} RepeatsKeepClock(s: Afc, es: seq<Event>)
    requires Inv(s) && forall i :: 0 <= i < |es| ==> Repeats(s.lastRaw, es[i])
    requires Driven(s) || s.latch == Some(s.lastRaw)
    ensures var n := Run(s, es);
            && n.lastRaw == s.lastRaw && Inv(n)
            && (n.latch == Some(s.lastRaw) || (Driven(s) && Driven(n) && n.since == s.since))
    decreases |es|
  {
    if es != [] {
      assert Repeats(s.lastRaw, es[0]);
      StepKeeps(s, es[0]);
      if s.latch.Some? { LatchEndsExactly(s, es[0]); } else { RepeatKeepsClock(s, es[0]); }
      RepeatsKeepClock(Next(s, es[0]), es[1..]);
    }
  }

  /** A busy state that AFC goes on reporting past its budget ends up latched, however many
      frames, polls and late acks come between: none of them restarts the clock. */
  lemma AStuckStateIsLatched(s: Afc, es: seq<Event>, last: Event)
    requires Inv(s) && Driven(s)
    requires forall i :: 0 <= i < |es| ==> Repeats(s.lastRaw, es[i])
    requires (last.Frame? || last.Poll?) && Repeats(s.lastRaw, last)
    requires last.now - s.since >= Budget(s.lastRaw.action)
    ensures Next(Run(s, es), last).latch == Some(s.lastRaw)
  {
    RepeatsKeepClock(s, es);
    var n := Run(s, es);
    if n.latch.Some? { LatchEndsExactly(n, last); } else { RepeatKeepsClock(n, last); }
  }

  /** An action AFC drives is latched at a read exactly once it has stood for its budget, in
      seconds. */
  lemma StuckExactly(s: Afc, now: int)
    requires Driven(s)
    ensures Next(s, Poll(now)).latch.Some? <==>
            now - s.since >= (if s.action in {Selecting, Heating} then 300
                              else if s.action == Purging then 240
                              else if s.action in {Loading, Unloading} then 180
                              else 120)
    ensures Next(s, Poll(now)).latch.None? ==> Next(s, Poll(now)) == s
  {
  }

  /** A dispatch AFC never took up shows its error once its budget is spent, latches nothing, and its
      late ack or failure changes nothing any more. */
  lemma ADispatchTimesOut(s: Afc, now: int, later: int)
    requires s.latch.None? && s.hold.None? && Working(s.action) && s.pending == Some(s.action)
    ensures var n := Next(s, Poll(now));
            && (n.action == Error <==> now - s.since >= Budget(s.action)) && n.latch.None?
            && (if n.action == Error
                then Next(n, Ack(later, s.generation)) == n && Next(n, Abandon(later, s.generation)) == n
                else n == s)
  {
  }

  /** A fault clear lets go of the latch and starts the clock anew. */
  lemma ClearingRestartsTheClock(s: Afc, cleared: int, now: int)
    requires Inv(s) && Working(s.action) && s.hold.None? && now - cleared < Budget(s.action)
    ensures var n := Next(Next(s, ClearFault(cleared)), Poll(now)); n.latch.None? && n.action == s.action
  {
  }

  // ---------------------------------------------------------------- one dispatch

  /** Generations are counted: one for each dispatch and each restart of Klipper. */
  function Generations(es: seq<Event>): nat
    decreases |es|
  {
    if es == [] then 0
    else (if es[0].Begin? || es[0] == KlipperRestart then 1 else 0) + Generations(es[1..])
  }

  lemma {:induction false} GenerationsCount(s: Afc, es: seq<Event>)
    ensures Run(s, es).generation == s.generation + Generations(es)
    decreases |es|
  {
    if es != [] {
      GenerationGrows(s, es[0]);
      GenerationsCount(Next(s, es[0]), es[1..]);
    }
  }

  /** A dispatch shows its action at once under a new generation. Its own ack or failure, a restart
      of Klipper or a failed send make it Idle; an ack or failure of another generation does
      nothing. */
  lemma DispatchIsAnswered(s: Afc, now: int, op: Operation, then_: int, g: nat)
    ensures var b := Next(s, Begin(now, op)); var a, f := Next(b, Ack(then_, g)), Next(b, Abandon(then_, g));
            && b.action == (match op case LoadLane => Loading case UnloadLane => Unloading case SwapTool => Selecting)
            && b.pending == Some(b.action) && b.generation == s.generation + 1 && b.latch.None? && b.since == now
            && (if g == b.generation
                then a.action == f.action == Idle && a.pending.None? && f.pending.None? && a.since == f.since == then_
                else a == b && f == b)
            && Next(b, SendFailed).action == Idle
            && Next(b, KlipperRestart).action == Idle && Next(b, KlipperRestart).pending.None?
            && Next(b, KlipperRestart).generation == b.generation + 1
  {
  }

  /** A failure is of a dispatch even where its action no longer shows; an ack is not. */
  lemma FailureOfAHiddenDispatch(s: Afc, now: int)
    requires s.pending.Some? && s.pending.value != s.action
    ensures Next(s, Ack(now, s.generation)) == s
    ensures Next(s, Abandon(now, s.generation)) == s.(pending := None, action := Idle, since := now)
  {
  }

  /** A restart of Klipper ends what is busy and leaves the rest; and no dispatch survives it. */
  lemma RestartEndsTheBusy(s: Afc)
    ensures var n := Next(s, KlipperRestart);
            n.pending.None? && n.generation == s.generation + 1
            && n.action == if s.action in {Heating, Loading, Unloading, Cutting, FormingTip, Purging, Selecting}
                           then Idle else s.action
  {
  }

  // ---------------------------------------------------------------- superseded acks

  predicate Late(e: Event, g: nat) { (e.Ack? || e.Abandon?) && e.generation <= g }

  function Without(es: seq<Event>, g: nat): seq<Event>
    decreases |es|
  {
    if es == [] then [] else (if Late(es[0], g) then [] else [es[0]]) + Without(es[1..], g)
  }

  /** Acks and send failures of dispatches that a newer one superseded can be deleted from any
      run without changing where it ends. */
  lemma {:induction false} SupersededAcksChangeNothing(s: Afc, es: seq<Event>, g: nat)
    requires g < s.generation
    ensures Run(s, es) == Run(s, Without(es, g))
    decreases |es|
  {
    if es != [] {
      var n := Next(s, es[0]);
      assert n.generation >= s.generation by { GenerationGrows(s, es[0]); }
      SupersededAcksChangeNothing(n, es[1..], g);
      if Late(es[0], g) {
        assert n == s && Without(es, g) == Without(es[1..], g);
      } else {
        assert Without(es, g)[0] == es[0] && Without(es, g)[1..] == Without(es[1..], g);
      }
    }
  }

  lemma GenerationGrows(s: Afc, e: Event)
    ensures s.generation <= Next(s, e).generation
    ensures !e.Begin? && e != KlipperRestart ==> Next(s, e).generation == s.generation
  {
  }

  /** An ack resolves its dispatch only if AFC never took the operation over: a busy state
      reported since, and the ack of that dispatch finds nothing to do. */
  lemma {:induction false} TakenOverAcksChangeNothing(s: Afc, es: seq<Event>, now: int, g: nat)
    requires forall i :: 0 <= i < |es| ==> !es[i].Begin?
    requires g <= s.generation
    requires s.pending.None? || TakesOver(es)
    ensures Next(Run(s, es), Ack(now, g)) == Run(s, es)
    decreases |es|
  {
    if es != [] {
      GenerationGrows(s, es[0]);
      var n := Next(s, es[0]);
      if s.pending.None? || TakesOverNow(es[0]) {
        PendingStaysResolved(s, es[0]);
      } else {
        var i :| 0 <= i < |es| && TakesOverNow(es[i]);
        assert es[1..][i - 1] == es[i];
      }
      TakenOverAcksChangeNothing(n, es[1..], now, g);
    }
  }

  predicate TakesOverNow(e: Event) { e.Frame? && e.delta.state.Some? && e.delta.state.value.action != Idle }

  predicate TakesOver(es: seq<Event>) { exists i :: 0 <= i < |es| && TakesOverNow(es[i]) }

  lemma PendingStaysResolved(s: Afc, e: Event)
    requires !e.Begin? && (s.pending.None? || TakesOverNow(e))
    ensures Next(s, e).pending.None?
  {
  }

  // ---------------------------------------------------------------- when a change is in progress

  /** What the keys of the frames have said: the lane at the toolhead, the lane named next, and
      whether an error stands. */
  datatype Keys = Keys(tool: string, next: string, error: bool)

  const NO_KEYS := Keys("", "", false)

  function Told(old_: string, key: Clearable<string>): string {
    match key case Omitted => old_ case Cleared => "" case Set(lane) => lane
  }

  function KeysAfter(k: Keys, e: Event): Keys {
    if !e.Frame? then k
    else Keys(Told(k.tool, e.delta.load), Told(k.next, e.delta.next), Keep(k.error, e.delta.error))
  }

  predicate NewlyNames(k: Keys, e: Event) {
    e.Frame? && e.delta.next.Set? && e.delta.next.value != "" && e.delta.next.value != k.next
  }

  /** The frame newly names a lane that is not the one now at the toolhead, with no error standing. */
  predicate Begins(k: Keys, e: Event) {
    NewlyNames(k, e) && e.delta.next.value != KeysAfter(k, e).tool && !KeysAfter(k, e).error
  }

  /** The frame clears or empties the next lane, newly names the one at the toolhead, or carries an
      error. */
  predicate Ends(k: Keys, e: Event) {
    e.Frame?
    && (e.delta.next.Cleared? || e.delta.next == Set("") || e.delta.error == Some(true)
        || (NewlyNames(k, e) && e.delta.next.value == KeysAfter(k, e).tool))
  }

  predicate HoldSpent(s: Afc, now: int) { s.hold.Some? && now - s.holdSince >= HEATING_TIMEOUT }

  /** The event finds the hold still standing, and run out. */
  predicate RunsOut(s: Afc, e: Event) {
    || (e.Poll? && HoldSpent(s, e.now))
    || (e.Frame? && HoldSpent(s, e.now) && (e.delta.state.None? || e.delta.state.value.action == Idle))
  }

  function KeyTrail(k: Keys, es: seq<Event>): (ks: seq<Keys>)
    ensures |ks| == |es| + 1 && ks[0] == k
    decreases |es|
  {
    [k] + if es == [] then [] else KeyTrail(KeysAfter(k, es[0]), es[1..])
  }

  function Trail(s: Afc, es: seq<Event>): (t: seq<Afc>)
    ensures |t| == |es| + 1 && t[0] == s
    decreases |es|
  {
    [s] + if es == [] then [] else Trail(Next(s, es[0]), es[1..])
  }

  /** From event `i` on nothing ends a change, and no hold runs out. */
  predicate Lasts(ks: seq<Keys>, t: seq<Afc>, es: seq<Event>, i: int)
    requires |ks| == |t| == |es| + 1 && 0 <= i
  {
    forall j :: i <= j < |es| ==> !Ends(ks[j], es[j]) && !RunsOut(t[j], es[j])
  }

  /** Some frame began a change, its hold did not run out there, and it lasts. */
  predicate Began(ks: seq<Keys>, t: seq<Afc>, es: seq<Event>)
    requires |ks| == |t| == |es| + 1
  {
    exists i :: 0 <= i < |es| && Begins(ks[i], es[i]) && !RunsOut(t[i], es[i]) && Lasts(ks, t, es, i + 1)
  }

  predicate Matches(c: Change, k: Keys) {
    c.toolheadLane == k.tool && c.nextLane == k.next && c.error == k.error && (c.inProgress ==> !k.error)
  }

  lemma FieldsChange(c: Change, k: Keys, now: int, d: Delta)
    requires Matches(c, k)
    ensures var n, e := ApplyChange(c, d), Frame(now, d);
            Matches(n, KeysAfter(k, e)) && (n.inProgress <==> Begins(k, e) || (c.inProgress && !Ends(k, e)))
  {
  }

  /** Only a hold that runs out touches the change beyond the frame's own fields. */
  lemma FrameChange(s: Afc, now: int, d: Delta)
    requires Inv(s)
    ensures var c := ApplyChange(s.change, d);
            Next(s, Frame(now, d)).change == c.(inProgress := c.inProgress && !RunsOut(s, Frame(now, d)))
  {
  }

  lemma ChangeSteps(s: Afc, k: Keys, e: Event)
    requires Inv(s) && Matches(s.change, k)
    ensures Matches(Next(s, e).change, KeysAfter(k, e))
    ensures Next(s, e).change.inProgress <==>
            (Begins(k, e) || (s.change.inProgress && !Ends(k, e))) && !RunsOut(s, e)
  {
    match e
    case Frame(now, d) =>
      FieldsChange(s.change, k, now, d);
      FrameChange(s, now, d);
    case _ =>
  }

  lemma BeganTail(ks: seq<Keys>, t: seq<Afc>, es: seq<Event>)
    requires |ks| == |t| == |es| + 1 && es != []
    ensures Lasts(ks, t, es, 0) <==>
            !Ends(ks[0], es[0]) && !RunsOut(t[0], es[0]) && Lasts(ks[1..], t[1..], es[1..], 0)
    ensures Began(ks, t, es) <==>
            (Begins(ks[0], es[0]) && !RunsOut(t[0], es[0]) && Lasts(ks[1..], t[1..], es[1..], 0))
            || Began(ks[1..], t[1..], es[1..])
  {
    LastsTail(ks, t, es, 0);
    if i :| 0 <= i < |es| && Begins(ks[i], es[i]) && !RunsOut(t[i], es[i]) && Lasts(ks, t, es, i + 1) {
      LastsTail(ks, t, es, i);
      if i > 0 { assert Begins(ks[1..][i - 1], es[1..][i - 1]); }
    }
    if i :| 0 <= i < |es[1..]| && Begins(ks[1..][i], es[1..][i]) && !RunsOut(t[1..][i], es[1..][i])
            && Lasts(ks[1..], t[1..], es[1..], i + 1) {
      LastsTail(ks, t, es, i + 1);
      assert Begins(ks[i + 1], es[i + 1]);
    }
  }

  lemma LastsTail(ks: seq<Keys>, t: seq<Afc>, es: seq<Event>, i: nat)
    requires |ks| == |t| == |es| + 1 && es != []
    ensures Lasts(ks, t, es, i + 1) <==> Lasts(ks[1..], t[1..], es[1..], i)
  {
    if Lasts(ks[1..], t[1..], es[1..], i) {
      forall j | i + 1 <= j < |es| ensures !Ends(ks[j], es[j]) && !RunsOut(t[j], es[j]) {
        assert !Ends(ks[1..][j - 1], es[1..][j - 1]) && !RunsOut(t[1..][j - 1], es[1..][j - 1]);
      }
    }
  }

  /** Event `i` begins, keeps or ends the change. */
  predicate Tracks(ks: seq<Keys>, t: seq<Afc>, es: seq<Event>, i: int)
    requires |ks| == |t| == |es| + 1 && 0 <= i < |es|
  {
    t[i + 1].change.inProgress <==>
      (Begins(ks[i], es[i]) || (t[i].change.inProgress && !Ends(ks[i], es[i]))) && !RunsOut(t[i], es[i])
  }

  lemma {:induction false} TrackedTo(ks: seq<Keys>, t: seq<Afc>, es: seq<Event>)
    requires |ks| == |t| == |es| + 1 && forall i :: 0 <= i < |es| ==> Tracks(ks, t, es, i)
    ensures t[|es|].change.inProgress <==> Began(ks, t, es) || (t[0].change.inProgress && Lasts(ks, t, es, 0))
    decreases |es|
  {
    if es != [] {
      var k, u, rest := ks[1..], t[1..], es[1..];
      forall i | 0 <= i < |rest| ensures Tracks(k, u, rest, i) { assert Tracks(ks, t, es, i + 1); }
      TrackedTo(k, u, rest);
      assert Tracks(ks, t, es, 0) && u[|rest|] == t[|es|];
      BeganTail(ks, t, es);
    }
  }

  lemma {:induction false} TrailTracks(s: Afc, k: Keys, es: seq<Event>)
    requires Inv(s) && Matches(s.change, k)
    ensures forall i :: 0 <= i < |es| ==> Tracks(KeyTrail(k, es), Trail(s, es), es, i)
    ensures Trail(s, es)[|es|] == Run(s, es) && Matches(Run(s, es).change, KeyTrail(k, es)[|es|])
    decreases |es|
  {
    if es != [] {
      var n, kn, rest := Next(s, es[0]), KeysAfter(k, es[0]), es[1..];
      ChangeSteps(s, k, es[0]);
      StepKeeps(s, es[0]);
      TrailTracks(n, kn, rest);
      forall i | 0 <= i < |es| ensures Tracks(KeyTrail(k, es), Trail(s, es), es, i) {
        if i > 0 { assert Tracks(KeyTrail(kn, rest), Trail(n, rest), rest, i - 1); }
      }
    }
  }

  lemma ChangeRuns(s: Afc, k: Keys, es: seq<Event>)
    requires Inv(s) && Matches(s.change, k)
    ensures var ks, t := KeyTrail(k, es), Trail(s, es);
            Run(s, es).change.inProgress <==> Began(ks, t, es) || (s.change.inProgress && Lasts(ks, t, es, 0))
    ensures Matches(Run(s, es).change, KeyTrail(k, es)[|es|])
  {
    TrailTracks(s, k, es);
    TrackedTo(KeyTrail(k, es), Trail(s, es), es);
  }

  /** From the keys of the frames: a change is under way. */
  predicate UnderWay(now: int, es: seq<Event>) { Began(KeyTrail(NO_KEYS, es), Trail(Boot(now), es), es) }

  /** After any run a change is in progress exactly if some frame newly named a lane other than the
      one then at the toolhead with no error standing, and since then no frame cleared or emptied
      the next lane, newly named the lane at the toolhead or carried an error, and no hold ran out. */
  lemma ChangeInProgressExactly(now: int, es: seq<Event>)
    ensures Run(Boot(now), es).change.inProgress <==> UnderWay(now, es)
  {
    ChangeRuns(Boot(now), NO_KEYS, es);
  }

  // ---------------------------------------------------------------- the toolchange hold

  lemma {:induction false} RunEnds(s: Afc, es: seq<Event>, e: Event)
    ensures Run(s, es + [e]) == Next(Run(s, es), e)
    decreases |es|
  {
    if es == [] {
      assert [e][1..] == [];
    } else {
      assert (es + [e])[1..] == es[1..] + [e];
      RunEnds(Next(s, es[0]), es[1..], e);
    }
  }

  lemma IdleIsHeldExactly(s: Afc, d: Delta, now: int)
    requires Inv(s) && Working(s.action) && d.state.Some? && d.state.value.action == Idle
    ensures var n := Next(s, Frame(now, d));
            && (n.action == Idle <==> !n.change.inProgress)
            && (n.action != Idle ==> n.action == if s.hold.Some? then s.hold.value else s.action)
  {
  }

  /** A hold stands only in a change, and it is the action that was published when it was taken. */
  predicate HoldInChange(s: Afc) { s.hold.Some? ==> s.change.inProgress }

  lemma StepHoldsInChange(s: Afc, e: Event)
    requires Inv(s) && HoldInChange(s)
    ensures HoldInChange(Next(s, e))
  {
  }

  lemma {:induction false} HoldsOnlyInChange(s: Afc, es: seq<Event>)
    requires Inv(s) && HoldInChange(s)
    ensures HoldInChange(Run(s, es))
    decreases |es|
  {
    if es != [] {
      StepKeeps(s, es[0]);
      StepHoldsInChange(s, es[0]);
      HoldsOnlyInChange(Next(s, es[0]), es[1..]);
    }
  }

  /** A frame takes a hold exactly when AFC is Idle inside a change over a working action; a hold that
      ends without a busy state publishes Idle; and one that stands is published. */
  lemma HoldsExactly(s: Afc, d: Delta, now: int)
    requires Inv(s) && HoldInChange(s) && s.latch.None?
    ensures var n := Next(s, Frame(now, d));
            var idle := (if d.state.Some? then d.state.value.action else s.lastRaw.action) == Idle;
            && (s.hold.None? ==> (n.hold.Some? <==> idle && n.change.inProgress && Working(s.action)))
            && (s.hold.None? && n.hold.Some? ==> n.hold.value == s.action && n.holdSince == now)
            && (s.hold.Some? ==> (n.hold.Some? <==> idle && n.change.inProgress))
            && (s.hold.Some? && n.hold.Some? ==> n.hold == s.hold && n.holdSince == s.holdSince)
            && (n.hold.Some? ==> n.action == n.hold.value)
            && (s.hold.Some? && n.hold.None? && idle ==> n.action == Idle)
  {
  }

  /** A frame that says nothing of the state, outside a change, leaves the action within its budget
      alone. */
  lemma SilentFrameKeeps(s: Afc, d: Delta, now: int)
    requires Inv(s) && s.latch.None? && s.hold.None? && d.state.None? && now - s.since < Budget(s.action)
    ensures Next(s, Frame(now, d)).action == s.action && Next(s, Frame(now, d)).since == s.since
  {
  }

  /** Over any run: a frame that reports Idle over a working action publishes Idle exactly when no
      change is under way after it; otherwise an action of the change stands. */
  lemma IdleIsPublishedExactly(start: int, es: seq<Event>, d: Delta, now: int)
    requires Working(Run(Boot(start), es).action) && d.state.Some? && d.state.value.action == Idle
    ensures var s, n := Run(Boot(start), es), Run(Boot(start), es + [Frame(now, d)]);
            && (n.action == Idle <==> !UnderWay(start, es + [Frame(now, d)]))
            && (n.action != Idle ==> n.action == if s.hold.Some? then s.hold.value else s.action)
  {
    RunKeeps(Boot(start), es);
    RunEnds(Boot(start), es, Frame(now, d));
    IdleIsHeldExactly(Run(Boot(start), es), d, now);
    ChangeInProgressExactly(start, es + [Frame(now, d)]);
  }

  /** What makes a frame inside a change publish ERROR or PAUSED: a latched state it does not
      leave, a raw state that is one of the two, or a busy state of AFC's past its budget. */
  predicate Fails(s: Afc, d: Delta, now: int) {
    || (s.latch.Some? && (d.state.None? || d.state.value == s.lastRaw))
    || (d.state.Some? && d.state.value.action in {Error, Paused})
    || (now - s.since >= Budget(s.action)
        && if d.state.Some? then d.state.value.action == s.action else s.lastRaw.action != Idle)
  }

  lemma FrameFailsExactly(s: Afc, d: Delta, now: int)
    requires Inv(s) && Working(s.action) && Next(s, Frame(now, d)).change.inProgress
    ensures Next(s, Frame(now, d)).action in {Error, Paused} <==> Fails(s, d, now)
  {
  }

  /** A read outside a frame fails only on an action that neither the hold nor the latch covers. */
  predicate Spent(s: Afc, now: int) { s.latch.None? && s.hold.None? && now - s.since >= Budget(s.action) }

  /** An event inside one change, by the keys: a frame begins a change or ends none, no hold runs
      out, nothing fails and no budget is spent; our own dispatches may begin, and an ack or a given
      up one answers nothing that is still pending. */
  predicate Within(s: Afc, k: Keys, e: Event) {
    match e
    case Frame(now, d) =>
      !RunsOut(s, e) && (Begins(k, e) || (s.change.inProgress && !Ends(k, e))) && !Fails(s, d, now)
    case Poll(now) => !RunsOut(s, e) && !Spent(s, now)
    case Begin(_, _) => true
    case Ack(_, g) => g != s.generation || s.pending != Some(s.action)
    case Abandon(_, g) => g != s.generation || s.pending.None?
    case ClearFault(_) => true
    case KlipperRestart => !Busy(s.action)
    case SendFailed => false
  }

  predicate AllWithin(s: Afc, k: Keys, es: seq<Event>)
    decreases |es|
  {
    es == [] || (Within(s, k, es[0]) && AllWithin(Next(s, es[0]), KeysAfter(k, es[0]), es[1..]))
  }

  lemma WithinStep(s: Afc, k: Keys, e: Event)
    requires Inv(s) && Matches(s.change, k) && Working(s.action) && Within(s, k, e)
    ensures Working(Next(s, e).action) && Inv(Next(s, e)) && Matches(Next(s, e).change, KeysAfter(k, e))
  {
    StepKeeps(s, e);
    ChangeSteps(s, k, e);
    if e.Frame? {
      FrameFailsExactly(s, e.delta, e.now);
      if e.delta.state.Some? && e.delta.state.value.action == Idle {
        IdleIsHeldExactly(s, e.delta, e.now);
      } else {
        FieldsKeep(s, e.delta);
        HoldKeeps(s, e.delta, e.now);
      }
    }
  }

  lemma {:induction false} WithinRun(s: Afc, k: Keys, es: seq<Event>)
    requires Inv(s) && Matches(s.change, k) && Working(s.action) && AllWithin(s, k, es)
    ensures forall n :: 0 <= n <= |es| ==> Run(s, es[..n]).action != Idle
    decreases |es|
  {
    if es != [] {
      WithinStep(s, k, es[0]);
      WithinRun(Next(s, es[0]), KeysAfter(k, es[0]), es[1..]);
      forall n | 0 <= n <= |es| ensures Run(s, es[..n]).action != Idle {
        if n > 0 { assert es[..n][1..] == es[1..][..n - 1]; }
      }
    }
  }

  /** After any run: between the legs of one change an Idle is never published, over any number of
      legs. */
  lemma NoIdleMidChange(start: int, before: seq<Event>, es: seq<Event>)
    requires Working(Run(Boot(start), before).action)
    requires AllWithin(Run(Boot(start), before), KeyTrail(NO_KEYS, before)[|before|], es)
    ensures forall n :: 0 <= n <= |es| ==> Run(Run(Boot(start), before), es[..n]).action != Idle
  {
    RunKeeps(Boot(start), before);
    ChangeRuns(Boot(start), NO_KEYS, before);
    WithinRun(Run(Boot(start), before), KeyTrail(NO_KEYS, before)[|before|], es);
  }

  // ---------------------------------------------------------------- the backend

  class Backend {
    var action: Action
    var actionStart: int
    var lastRaw: Raw
    var timedOut: Option<Raw>
    var hold: Option<Action>
    var holdSince: int
    var change: Change
    var pending: Option<Action>
    var generation: nat

    ghost function View(): Afc
      reads this
    { Afc(action, actionStart, lastRaw, timedOut, hold, holdSince, change, pending, generation) }

    constructor (now: int)
      ensures View() == Boot(now)
    {
      action, actionStart, lastRaw := Idle, now, Raw("", Idle);
      timedOut, hold, holdSince, pending, generation := None, None, 0, None, 0;
      change := Change(false, "", "", false);
    }

    method ApplyStateString(raw: Raw)
      modifies `action, `lastRaw, `pending
      ensures View() == ApplyState(old(View()), Some(raw))
    {
      action := raw.action;
      lastRaw := raw;
      if pending.Some? && action != Idle { pending := None; }
    }

    method ReleaseToolchangeHold()
      modifies `hold, `action
      ensures View() == ReleaseHold(old(View()))
    {
      hold := None;
      action := Idle;
    }

    method ApplyToolchangeHold(before: Action, now: int)
      modifies `hold, `holdSince, `action
      ensures View() == ApplyHold(old(View()), before, now)
    {
      if lastRaw.action != Idle {
        hold := None;
        return;
      }
      if !change.inProgress {
        if hold.Some? { ReleaseToolchangeHold(); }
        return;
      }
      if hold.None? {
        if before == Idle || before == Error || before == Paused { return; }
        hold := Some(before);
        holdSince := now;
      }
      action := hold.value;
    }

    method ApplyTimeoutLatch()
      modifies `timedOut, `action
      ensures View() == ApplyLatch(old(View()))
    {
      if timedOut.None? { return; }
      if timedOut.value != lastRaw {
        timedOut := None;
        return;
      }
      action := Error;
    }

    method CheckActionTimeout(now: int)
      modifies this
      ensures View() == CheckTimeout(old(View()), now)
    {
      if timedOut.Some? { return; }
      if hold.Some? {
        if now - holdSince >= HEATING_TIMEOUT {
          ReleaseToolchangeHold();
          change := change.(inProgress := false);
        }
        return;
      }
      if action == Idle || action == Error || action == Paused { return; }
      if now - actionStart < Budget(action) { return; }
      var stuck := action;
      action := Error;
      if pending == Some(stuck) {
        pending := None;
        return;
      }
      timedOut := Some(lastRaw);
    }

    method ApplyAfcState(d: Delta, now: int)
      modifies this
      ensures View() == ApplyAfc(old(View()), d, now)
    {
      var before := action;
      if d.state.Some? { ApplyStateString(d.state.value); }
      change := ApplyChange(change, d);
      ApplyToolchangeHold(before, now);
      ApplyTimeoutLatch();
      if action != before { actionStart := now; }
    }

    method BeginDispatch(op: Operation, now: int) returns (ticket: nat)
      modifies this
      ensures View() == Next(old(View()), Begin(now, op))
      ensures ticket == generation > old(generation)
    {
      generation := generation + 1;
      pending := Some(ActionOf(op));
      timedOut := None;
      action := ActionOf(op);
      actionStart := now;
      return generation;
    }

    method FinalizeDispatch(ticket: nat, now: int) returns (changed: bool)
      modifies this
      ensures View() == Next(old(View()), Ack(now, ticket))
      ensures changed <==> View() != old(View())
    {
      if ticket != generation || pending != Some(action) { return false; }
      pending := None;
      action := Idle;
      actionStart := now;
      return true;
    }
  }
}
