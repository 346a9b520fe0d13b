/** Progressive print cancellation: interrupt, probe, cancel, M112, restart, reconnect.

    The specification is a step function over the manager's fields, the timers armed in the
    event loop, and a generation number that stamps every request. The guard that owns a timer
    may let go of it without disarming it; the model keeps armed timers and guards apart so
    that this shows. `Manager` is the class whose methods are proved against the steps. */
module AbortManager {
  datatype State =
    | Idle | TryHeaterInterrupt | ProbeQueue | SentCancel
    | SentEstop | SentRestart | WaitingReconnect | Complete

  datatype Support = Unresolved | Supported | Unsupported
  datatype Entry = Probe | Cancel | EmergencyStop
  datatype TimerKind = HeaterTimer | ProbeTimer | CancelTimer | RestartTimer | ReconnectTimer
  datatype Timer = Timer(kind: TimerKind, generation: nat)
  datatype Klippy = Ready | Shutdown | Startup | Failed
  datatype Command = HeaterInterrupt | M115 | CancelRpc | M112 | FirmwareRestart
  datatype Reply =
    | HeaterOk | HeaterErr | ProbeOk | ProbeErr | CancelOk | CancelErr
    | EstopAnswered | RecoveryVerified | RecoveryIssued

  /** What the manager reads from its surroundings while it handles one event. */
  datatype World = World(escalates: bool, interruptible: bool, printEnded: bool, klippy: Klippy)

  datatype Event =
    | Start(entry: Entry)
    | EstopButton
    | Answer(reply: Reply, generation: nat)
    | TimerFires(id: nat)
    | KlippyNotify
    | PrintNotify

  /** The timers armed in the event loop, and the one each guard holds. */
  datatype Timers = Timers(armed: map<nat, Timer>, held: map<TimerKind, nat>, next: nat)

  datatype Machine = Machine(
    state: State, support: Support, escalation: nat, shutdown: bool, seenShutdown: bool,
    generation: nat, timers: Timers, sent: seq<Command>)

  predicate Aborting(s: State) { s != Idle && s != Complete }

  predicate HandlingShutdown(m: Machine) {
    m.shutdown || m.state == SentEstop || m.state == SentRestart || m.state == WaitingReconnect
  }

  // ---------------------------------------------------------------- timers

  /** A guard holds the armed timer `id`; guards hold timers of their own kind. */
  predicate Guarded(t: Timers, id: nat)
    requires id in t.armed
  {
    t.armed[id].kind in t.held && t.held[t.armed[id].kind] == id
  }

  /** The guard disarms its timer, then forgets it. */
  function Reset(t: Timers, k: TimerKind): Timers {
    if k in t.held then t.(armed := t.armed - {t.held[k]}, held := t.held - {k}) else t
  }

  /** The guard forgets its timer and leaves it armed. */
  function Release(t: Timers, k: TimerKind): Timers { t.(held := t.held - {k}) }

  function CancelAll(t: Timers): Timers {
    t.(armed := map id | id in t.armed && !Guarded(t, id) :: t.armed[id], held := map[])
  }

  function Add(r: Timers, k: TimerKind, g: nat): Timers {
    Timers(r.armed[r.next := Timer(k, g)], r.held[k := r.next], r.next + 1)
  }

  function Arm(t: Timers, k: TimerKind, g: nat): Timers {
    Add(Reset(t, k), k, g)
  }

  /** A one-shot timer leaves the event loop as it fires, and its callback makes the guard of
      its kind let go of whatever timer that guard holds. */
  function Fire(t: Timers, id: nat): Timers
    requires id in t.armed
  {
    Release(t.(armed := t.armed - {id}), t.armed[id].kind)
  }

  // ---------------------------------------------------------------- transitions

  function Finish(m: Machine): Machine {
    m.(timers := CancelAll(m.timers), shutdown := false, state := Complete)
  }

  function Escalate(m: Machine): Machine {
    m.(timers := CancelAll(m.timers), escalation := m.escalation + 1, shutdown := true,
       state := SentEstop, sent := m.sent + [M112])
  }

  /** Enter state `s`, send `c`, and arm the timer that bounds the wait. */
  function Enter(m: Machine, s: State, c: Command, k: TimerKind): Machine {
    m.(state := s, sent := m.sent + [c], timers := Arm(m.timers, k, m.generation))
  }

  function TryHeater(m: Machine): Machine {
    Enter(m, TryHeaterInterrupt, HeaterInterrupt, HeaterTimer)
  }

  function StartProbe(m: Machine): Machine { Enter(m, ProbeQueue, M115, ProbeTimer) }

  /** Registering the print observer delivers the current print state at once. */
  function SendCancel(m: Machine, w: World): Machine {
    var observed := if w.printEnded then Finish(m) else m.(state := SentCancel);
    Enter(observed, observed.state, CancelRpc, CancelTimer)
  }

  function SendRestart(m: Machine): Machine { Enter(m, SentRestart, FirmwareRestart, RestartTimer) }

  /** Registering the klippy observer delivers the current klippy state at once. */
  function WaitForReconnect(m: Machine, w: World): Machine {
    OnKlippy(m.(seenShutdown := false, state := WaitingReconnect,
                timers := Arm(m.timers, ReconnectTimer, m.generation)), w.klippy)
  }

  function OnKlippy(m: Machine, k: Klippy): Machine {
    if m.state != WaitingReconnect then m
    else if k == Shutdown then m.(seenShutdown := true)
    else if k == Ready && m.seenShutdown then Finish(Drop(m, ReconnectTimer))
    else m
  }

  function Drop(m: Machine, k: TimerKind): Machine { m.(timers := Reset(m.timers, k)) }

  function LetGo(m: Machine, k: TimerKind): Machine { m.(timers := Release(m.timers, k)) }

  function OnHeater(m: Machine, support: Support): Machine {
    if m.state != TryHeaterInterrupt then m
    else StartProbe(Drop(m, HeaterTimer).(support := support))
  }

  function OnProbeBlocked(m: Machine, w: World): Machine {
    if m.state != ProbeQueue then m
    else if w.escalates then Escalate(LetGo(m, ProbeTimer))
    else SendCancel(LetGo(m, ProbeTimer), w)
  }

  function OnCancelBlocked(m: Machine, w: World): Machine {
    if m.state != SentCancel then m
    else if w.escalates then Escalate(LetGo(m, CancelTimer))
    else LetGo(m, CancelTimer)
  }

  function Begun(m: Machine): Machine { m.(generation := m.generation + 1, escalation := 0) }

  function OnStart(m: Machine, w: World, entry: Entry): Machine {
    if Aborting(m.state) then m
    else
      var n := Begun(m);
      match entry
      case Cancel => SendCancel(n, w)
      case EmergencyStop => Escalate(n)
      case Probe =>
        var support := if n.support != Unresolved then n.support
                       else if w.interruptible then Supported else Unsupported;
        if support == Supported then TryHeater(n.(support := support))
        else StartProbe(n.(support := support))
  }

  function OnAnswer(m: Machine, w: World, reply: Reply): Machine {
    match reply
    case HeaterOk => OnHeater(m, Supported)
    case HeaterErr => OnHeater(m, Unsupported)
    case ProbeOk =>
      if m.state == ProbeQueue then SendCancel(Drop(m, ProbeTimer), w) else m
    case ProbeErr => OnProbeBlocked(m, w)
    case CancelOk =>
      if m.state == SentCancel then Finish(Drop(m, CancelTimer)) else m
    case CancelErr =>
      if m.state != SentCancel then m
      else if w.escalates then OnCancelBlocked(m, w) else Finish(m)
    case EstopAnswered => if m.state == SentEstop then SendRestart(m) else m
    case RecoveryVerified =>
      if m.state == SentRestart then Finish(Drop(m, RestartTimer)) else m
    case RecoveryIssued =>
      if m.state == SentRestart then WaitForReconnect(Drop(m, RestartTimer), w) else m
  }

  function OnTimer(m: Machine, w: World, id: nat): Machine {
    if id !in m.timers.armed then m
    else
      var n := m.(timers := Fire(m.timers, id));
      match m.timers.armed[id].kind
      case HeaterTimer =>
        if n.state == TryHeaterInterrupt then StartProbe(n.(support := Unsupported)) else n
      case ProbeTimer => OnProbeBlocked(n, w)
      case CancelTimer => OnCancelBlocked(n, w)
      case RestartTimer => Finish(n)
      case ReconnectTimer => Finish(n)
  }

  /** The button is on the progress modal, which is shown only while aborting. */
  function Step(m: Machine, w: World, e: Event): Machine {
    match e
    case Start(entry) => OnStart(m, w, entry)
    case EstopButton => if Aborting(m.state) then Escalate(m) else m
    case Answer(reply, g) => if g == m.generation then OnAnswer(m, w, reply) else m
    case TimerFires(id) => OnTimer(m, w, id)
    case KlippyNotify => OnKlippy(m, w.klippy)
    case PrintNotify => if m.state == SentCancel && w.printEnded then Finish(m) else m
  }

  type Trace = seq<(World, Event)>

  function Run(m: Machine, es: Trace): Machine
    decreases |es|
  {
    if es == [] then m else Run(Step(m, es[0].0, es[0].1), es[1..])
  }

  const BOOT := Machine(Idle, Unresolved, 0, false, false, 0, Timers(map[], map[], 0), [])

  // ---------------------------------------------------------------- reachable states

  /** Timers are numbered as armed, a guard holds a timer of its own kind, and a timer no guard
      holds is a probe or cancel timer. */
  predicate TimersOk(t: Timers, g: nat) {
    && (forall id :: id in t.armed ==> id < t.next && t.armed[id].generation <= g)
    && (forall k :: k in t.held ==> t.held[k] in t.armed && t.armed[t.held[k]].kind == k)
    && (forall id :: id in t.armed && !Guarded(t, id) ==>
          t.armed[id].kind == ProbeTimer || t.armed[id].kind == CancelTimer)
  }

  /** Only a cancel timer can outlive the run that armed it while a guard still holds it. */
  predicate HoldsCurrent(m: Machine) {
    var t := m.timers;
    forall k :: k in t.held && (k != CancelTimer || m.state == SentCancel) ==>
      t.held[k] in t.armed && t.armed[t.held[k]].generation == m.generation
  }

  predicate StateOk(m: Machine) {
    var held := m.timers.held;
    && (HeaterTimer in held <==> m.state == TryHeaterInterrupt)
    && (ProbeTimer in held <==> m.state == ProbeQueue)
    && (RestartTimer in held <==> m.state == SentRestart)
    && (ReconnectTimer in held <==> m.state == WaitingReconnect)
    && HoldsCurrent(m)
    && (m.shutdown <==> m.state == SentEstop || m.state == SentRestart || m.state == WaitingReconnect)
  }

  predicate Inv(m: Machine) { TimersOk(m.timers, m.generation) && StateOk(m) }

  lemma ResetOk(t: Timers, k: TimerKind, g: nat)
    requires TimersOk(t, g)
    ensures var n := Reset(t, k);
            && TimersOk(n, g) && n.held == t.held - {k}
            && (forall id :: id in t.armed && t.armed[id].kind != k ==>
                  id in n.armed && n.armed[id] == t.armed[id])
  {
  }

  lemma ReleaseOk(t: Timers, k: TimerKind, g: nat)
    requires TimersOk(t, g)
    requires k == ProbeTimer || k == CancelTimer || k !in t.held
    ensures TimersOk(Release(t, k), g)
  {
  }

  lemma ArmOk(t: Timers, k: TimerKind, g: nat)
    requires TimersOk(t, g)
    ensures var n := Arm(t, k, g);
            && TimersOk(n, g) && n.armed[n.held[k]] == Timer(k, g)
            && n.held.Keys == t.held.Keys + {k}
            && (forall j :: j in t.held && j != k ==>
                  n.held[j] == t.held[j] && n.armed[n.held[j]] == t.armed[t.held[j]])
  {
    ResetOk(t, k, g);
    AddOk(Reset(t, k), k, g);
  }

  lemma AddOk(r: Timers, k: TimerKind, g: nat)
    requires TimersOk(r, g) && k !in r.held
    ensures var n := Add(r, k, g); TimersOk(n, g)
  {
    var n := Add(r, k, g);
    forall id | id in r.armed && !Guarded(n, id) ensures !Guarded(r, id) {}
  }

  lemma FireOk(t: Timers, id: nat, g: nat)
    requires TimersOk(t, g) && id in t.armed
    ensures TimersOk(Fire(t, id), g)
  {
  }

  lemma EscalateOk(m: Machine)
    requires TimersOk(m.timers, m.generation)
    ensures Inv(Escalate(m))
  {
  }

  lemma FinishOk(m: Machine)
    requires TimersOk(m.timers, m.generation)
    ensures Inv(Finish(m))
  {
  }

  /** Nothing is left guarded but, at most, a cancel timer. */
  predicate Quiet(m: Machine) {
    TimersOk(m.timers, m.generation) && m.timers.held.Keys <= {CancelTimer}
  }

  lemma StartProbeOk(m: Machine)
    requires Quiet(m) && !m.shutdown
    ensures Inv(StartProbe(m))
  {
    ArmOk(m.timers, ProbeTimer, m.generation);
  }

  lemma TryHeaterOk(m: Machine)
    requires Quiet(m) && !m.shutdown
    ensures Inv(TryHeater(m))
  {
    ArmOk(m.timers, HeaterTimer, m.generation);
  }

  lemma SendCancelOk(m: Machine, w: World)
    requires Quiet(m) && !m.shutdown
    ensures Inv(SendCancel(m, w))
  {
    if w.printEnded { FinishOk(m); }
    var observed := if w.printEnded then Finish(m) else m.(state := SentCancel);
    ArmOk(observed.timers, CancelTimer, m.generation);
  }

  lemma SendRestartOk(m: Machine)
    requires Quiet(m) && m.shutdown
    ensures Inv(SendRestart(m))
  {
    ArmOk(m.timers, RestartTimer, m.generation);
  }

  lemma OnKlippyOk(m: Machine, k: Klippy)
    requires Inv(m)
    ensures Inv(OnKlippy(m, k))
  {
  }

  lemma WaitForReconnectOk(m: Machine, w: World)
    requires Quiet(m) && m.shutdown
    ensures Inv(WaitForReconnect(m, w))
  {
    ArmOk(m.timers, ReconnectTimer, m.generation);
    OnKlippyOk(m.(seenShutdown := false, state := WaitingReconnect,
                  timers := Arm(m.timers, ReconnectTimer, m.generation)), w.klippy);
  }

  lemma BegunOk(m: Machine)
    requires Inv(m) && !Aborting(m.state)
    ensures Quiet(Begun(m)) && !Begun(m).shutdown
  {
  }

  lemma StartOk(m: Machine, w: World, entry: Entry)
    requires Inv(m)
    ensures Inv(OnStart(m, w, entry))
  {
    if !Aborting(m.state) {
      BegunOk(m);
      match entry
      case Cancel => SendCancelOk(Begun(m), w);
      case EmergencyStop => EscalateOk(Begun(m));
      case Probe =>
        TryHeaterOk(Begun(m).(support := Supported));
        StartProbeOk(Begun(m).(support := Unsupported));
    }
  }

  lemma ProbeBlockedOk(m: Machine, w: World)
    requires TimersOk(m.timers, m.generation) && m.timers.held.Keys <= {CancelTimer, ProbeTimer}
    requires m.state == ProbeQueue && !m.shutdown
    ensures Inv(OnProbeBlocked(m, w))
  {
    ReleaseOk(m.timers, ProbeTimer, m.generation);
    EscalateOk(LetGo(m, ProbeTimer));
    SendCancelOk(LetGo(m, ProbeTimer), w);
  }

  lemma CancelBlockedOk(m: Machine, w: World)
    requires Quiet(m) && !m.shutdown && m.state == SentCancel
    ensures Inv(OnCancelBlocked(m, w))
  {
  }

  lemma DropOk(m: Machine, k: TimerKind)
    requires Inv(m) && (m.state == SentCancel || k in m.timers.held)
    requires k == CancelTimer <==> m.state == SentCancel
    ensures Quiet(Drop(m, k))
  {
    ResetOk(m.timers, k, m.generation);
  }

  lemma HeaterAnswerOk(m: Machine, w: World, reply: Reply)
    requires Inv(m) && m.state == TryHeaterInterrupt
    ensures Inv(OnAnswer(m, w, reply))
  {
    DropOk(m, HeaterTimer);
    StartProbeOk(Drop(m, HeaterTimer).(support := Supported));
    StartProbeOk(Drop(m, HeaterTimer).(support := Unsupported));
  }

  lemma ProbeAnswerOk(m: Machine, w: World, reply: Reply)
    requires Inv(m) && m.state == ProbeQueue
    ensures Inv(OnAnswer(m, w, reply))
  {
    ProbeBlockedOk(m, w);
    DropOk(m, ProbeTimer);
    SendCancelOk(Drop(m, ProbeTimer), w);
  }

  lemma CancelAnswerOk(m: Machine, w: World, reply: Reply)
    requires Inv(m) && m.state == SentCancel
    ensures Inv(OnAnswer(m, w, reply))
  {
    CancelBlockedOk(m, w);
    DropOk(m, CancelTimer);
    FinishOk(m);
    FinishOk(Drop(m, CancelTimer));
  }

  lemma RestartAnswerOk(m: Machine, w: World, reply: Reply)
    requires Inv(m) && m.state == SentRestart
    ensures Inv(OnAnswer(m, w, reply))
  {
    DropOk(m, RestartTimer);
    FinishOk(Drop(m, RestartTimer));
    WaitForReconnectOk(Drop(m, RestartTimer), w);
  }

  lemma AnswerOk(m: Machine, w: World, reply: Reply)
    requires Inv(m)
    ensures Inv(OnAnswer(m, w, reply))
  {
    match m.state
    case TryHeaterInterrupt => HeaterAnswerOk(m, w, reply);
    case ProbeQueue => ProbeAnswerOk(m, w, reply);
    case SentCancel => CancelAnswerOk(m, w, reply);
    case SentEstop => SendRestartOk(m);
    case SentRestart => RestartAnswerOk(m, w, reply);
    case _ =>
  }

  lemma TimerOk(m: Machine, w: World, id: nat)
    requires Inv(m) && id in m.timers.armed
    ensures Inv(OnTimer(m, w, id))
  {
    FireOk(m.timers, id, m.generation);
    var n := m.(timers := Fire(m.timers, id));
    match m.timers.armed[id].kind
    case HeaterTimer => StartProbeOk(n.(support := Unsupported));
    case ProbeTimer => if m.state == ProbeQueue { ProbeBlockedOk(n, w); }
    case CancelTimer =>
      if m.state == SentCancel { CancelBlockedOk(n, w); }
    case _ => FinishOk(n);
  }

  lemma StepInv(m: Machine, w: World, e: Event)
    requires Inv(m)
    ensures Inv(Step(m, w, e))
  {
    match e
    case Start(entry) => StartOk(m, w, entry);
    case EstopButton => EscalateOk(m);
    case Answer(reply, _) => AnswerOk(m, w, reply);
    case TimerFires(id) => if id in m.timers.armed { TimerOk(m, w, id); }
    case KlippyNotify => OnKlippyOk(m, w.klippy);
    case PrintNotify => FinishOk(m);
  }

  lemma {:induction false} RunInv(m: Machine, es: Trace)
    requires Inv(m)
    ensures Inv(Run(m, es))
    decreases |es|
  {
    if es != [] {
      StepInv(m, es[0].0, es[0].1);
      RunInv(Step(m, es[0].0, es[0].1), es[1..]);
    }
  }

  // ---------------------------------------------------------------- escalation order

  function Rank(s: State): nat {
    match s
    case Idle => 0
    case TryHeaterInterrupt => 1
    case ProbeQueue => 2
    case SentCancel => 3
    case SentEstop => 4
    case SentRestart => 5
    case WaitingReconnect => 6
    case Complete => 7
  }

  /** A run only moves forward, save that the emergency button goes back to M112. */
  lemma MovesForward(m: Machine, w: World, e: Event)
    requires Inv(m) && Aborting(m.state)
    ensures Rank(Step(m, w, e).state) < Rank(m.state) <==>
              e == EstopButton && (m.state == SentRestart || m.state == WaitingReconnect)
  {
    match e
    case TimerFires(id) => if id in m.timers.armed { TimerMatchesState(m, id); }
    case Answer(reply, g) => if g == m.generation { AnswersMoveForward(m, w, reply); }
    case _ =>
  }

  lemma AnswersMoveForward(m: Machine, w: World, reply: Reply)
    requires Aborting(m.state)
    ensures Rank(OnAnswer(m, w, reply).state) >= Rank(m.state)
  {
  }

  /** Outside SENT_RESTART and WAITING_RECONNECT no timer that completes an abort is armed. */
  lemma TimerMatchesState(m: Machine, id: nat)
    requires Inv(m) && id in m.timers.armed
    ensures m.timers.armed[id].kind == HeaterTimer ==> m.state == TryHeaterInterrupt
    ensures m.timers.armed[id].kind == RestartTimer ==> m.state == SentRestart
    ensures m.timers.armed[id].kind == ReconnectTimer ==> m.state == WaitingReconnect
  {
  }

  predicate Handles(s: State) { s == SentEstop || s == SentRestart || s == WaitingReconnect }

  /** Whatever happened, the shutdown dialog is suppressed in exactly the three states from M112
      to the reconnect: the flag does not outlive the run. */
  lemma HandlingEndsWithTheRun(es: Trace)
    ensures HandlingShutdown(Run(BOOT, es)) <==> Handles(Run(BOOT, es).state)
  {
    RunInv(BOOT, es);
  }

  // ---------------------------------------------------------------- M112

  function Estops(sent: seq<Command>): nat {
    if sent == [] then 0
    else Estops(sent[..|sent| - 1]) + (if sent[|sent| - 1] == M112 then 1 else 0)
  }

  lemma EstopsSnoc(sent: seq<Command>, c: Command)
    ensures Estops(sent + [c]) == Estops(sent) + if c == M112 then 1 else 0
  {
  }

  predicate ProbeFailed(m: Machine, e: Event) {
    m.state == ProbeQueue &&
    (e == Answer(ProbeErr, m.generation) ||
     (e.TimerFires? && e.id in m.timers.armed && m.timers.armed[e.id].kind == ProbeTimer))
  }

  predicate CancelFailed(m: Machine, e: Event) {
    m.state == SentCancel &&
    (e == Answer(CancelErr, m.generation) ||
     (e.TimerFires? && e.id in m.timers.armed && m.timers.armed[e.id].kind == CancelTimer))
  }

  predicate CausesEstop(m: Machine, w: World, e: Event) {
    || (w.escalates && (ProbeFailed(m, e) || CancelFailed(m, e)))
    || (e == Start(EmergencyStop) && !Aborting(m.state))
    || (e == EstopButton && Aborting(m.state))
  }

  /** M112 goes out exactly on a blocked probe or a failed cancel with escalation enabled, on the
      emergency entry, and on the button, and never twice in one step. */
  lemma EstopCause(m: Machine, w: World, e: Event)
    requires Inv(m)
    ensures Estops(Step(m, w, e).sent) ==
              Estops(m.sent) + if CausesEstop(m, w, e) then 1 else 0
  {
    EstopsSnoc(m.sent, M112);
    EstopsSnoc(m.sent, M115);
    EstopsSnoc(m.sent, CancelRpc);
    EstopsSnoc(m.sent, HeaterInterrupt);
    EstopsSnoc(m.sent, FirmwareRestart);
    SendsOne(m, w, e);
  }

  /** `now` is what was sent before, with nothing, M112 or one other command after it. */
  predicate SentOne(before: seq<Command>, now: seq<Command>, estop: bool) {
    if estop then now == before + [M112]
    else now == before || now == before + [M115] || now == before + [CancelRpc]
         || now == before + [HeaterInterrupt] || now == before + [FirmwareRestart]
  }

  lemma AnswerSendsOne(m: Machine, w: World, reply: Reply)
    ensures SentOne(m.sent, OnAnswer(m, w, reply).sent, CausesEstop(m, w, Answer(reply, m.generation)))
  {
  }

  lemma TimerSendsOne(m: Machine, w: World, id: nat)
    requires Inv(m)
    ensures SentOne(m.sent, OnTimer(m, w, id).sent, CausesEstop(m, w, TimerFires(id)))
  {
  }

  /** A step sends nothing, M112, or one other command. */
  lemma SendsOne(m: Machine, w: World, e: Event)
    requires Inv(m)
    ensures SentOne(m.sent, Step(m, w, e).sent, CausesEstop(m, w, e))
  {
    match e
    case TimerFires(id) => TimerSendsOne(m, w, id);
    case Answer(reply, g) => if g == m.generation { AnswerSendsOne(m, w, reply); }
    case _ =>
  }

  function Presses(es: Trace): nat
    decreases |es|
  {
    if es == [] then 0 else Presses(es[1..]) + if es[0].1 == EstopButton then 1 else 0
  }

  predicate NoStart(es: Trace) { forall i :: 0 <= i < |es| ==> !es[i].1.Start? }

  /** Within one run the button aside, M112 is sent at most once, and never again once sent. */
  lemma {:induction false} OneEstopPerRun(m: Machine, es: Trace)
    requires Inv(m) && NoStart(es)
    ensures Estops(Run(m, es).sent) <=
              Estops(m.sent) + Presses(es) + if Rank(m.state) < Rank(SentEstop) then 1 else 0
    decreases |es|
  {
    if es != [] {
      var (w, e) := es[0];
      var n := Step(m, w, e);
      StepInv(m, w, e);
      EstopCause(m, w, e);
      if Aborting(m.state) { MovesForward(m, w, e); } else { RestsUntilStart(m, w, e); }
      OneEstopPerRun(n, es[1..]);
    }
  }

  lemma RestsUntilStart(m: Machine, w: World, e: Event)
    requires Inv(m) && !Aborting(m.state) && !e.Start?
    ensures Step(m, w, e).state == m.state && Step(m, w, e).sent == m.sent
  {
  }

  // ---------------------------------------------------------------- the whole path

  predicate Says(m: Machine, e: Event, reply: Reply) { e == Answer(reply, m.generation) }

  predicate Fires(m: Machine, e: Event, k: TimerKind) {
    e.TimerFires? && e.id in m.timers.armed && m.timers.armed[e.id].kind == k
  }

  predicate Begins(m: Machine, e: Event, entry: Entry) { e == Start(entry) && !Aborting(m.state) }

  /** The heater interrupt answered, either way, or took too long. */
  predicate HeaterDone(m: Machine, e: Event) {
    m.state == TryHeaterInterrupt && (Says(m, e, HeaterOk) || Says(m, e, HeaterErr) || Fires(m, e, HeaterTimer))
  }

  predicate ProbeFails(m: Machine, e: Event) {
    m.state == ProbeQueue && (Says(m, e, ProbeErr) || Fires(m, e, ProbeTimer))
  }

  /** The cancel goes out: at the start, on a queue that answers, or on a blocked one that may not be
      escalated. */
  predicate Cancels(m: Machine, w: World, e: Event) {
    || Begins(m, e, Cancel)
    || (m.state == ProbeQueue && Says(m, e, ProbeOk))
    || (ProbeFails(m, e) && !w.escalates)
  }

  /** The heater interrupt is tried where it is known to be supported, or not known and offered. */
  predicate Interrupts(m: Machine, w: World) {
    m.support == Supported || (m.support == Unresolved && w.interruptible)
  }

  /** What completes an abort that has sent its cancel, its restart, or waits. */
  predicate Concludes(m: Machine, w: World, e: Event) {
    || (m.state == SentCancel
        && (Says(m, e, CancelOk) || (Says(m, e, CancelErr) && !w.escalates) || (e == PrintNotify && w.printEnded)))
    || (m.state == SentRestart && (Says(m, e, RecoveryVerified) || Fires(m, e, RestartTimer)))
    || (m.state == WaitingReconnect
        && (Fires(m, e, ReconnectTimer) || (e == KlippyNotify && w.klippy == Ready && m.seenShutdown)))
  }

  /** Where an event takes an abort. */
  function PathOf(m: Machine, w: World, e: Event): State {
    if CausesEstop(m, w, e) then SentEstop
    else if Cancels(m, w, e) then (if w.printEnded then Complete else SentCancel)
    else if HeaterDone(m, e) then ProbeQueue
    else if Begins(m, e, Probe) then (if Interrupts(m, w) then TryHeaterInterrupt else ProbeQueue)
    else if Concludes(m, w, e) then Complete
    else if m.state == SentEstop && Says(m, e, EstopAnswered) then SentRestart
    else if m.state == SentRestart && Says(m, e, RecoveryIssued) then WaitingReconnect
    else m.state
  }

  /** What goes out on the way: each state's command as it is entered. */
  function CommandsOf(m: Machine, w: World, e: Event): seq<Command> {
    if CausesEstop(m, w, e) then [M112]
    else if Cancels(m, w, e) then [CancelRpc]
    else if PathOf(m, w, e) == m.state then []
    else match PathOf(m, w, e)
      case TryHeaterInterrupt => [HeaterInterrupt]
      case ProbeQueue => [M115]
      case SentRestart => [FirmwareRestart]
      case _ => []
  }

  lemma StartPath(m: Machine, w: World, entry: Entry)
    ensures Step(m, w, Start(entry)).state == PathOf(m, w, Start(entry))
    ensures Step(m, w, Start(entry)).sent == m.sent + CommandsOf(m, w, Start(entry))
  {
  }

  lemma HeaterAnswerPath(m: Machine, w: World, reply: Reply)
    requires m.state == TryHeaterInterrupt
    ensures OnAnswer(m, w, reply).state == PathOf(m, w, Answer(reply, m.generation))
    ensures OnAnswer(m, w, reply).sent == m.sent + CommandsOf(m, w, Answer(reply, m.generation))
  {
  }

  lemma ProbeAnswerPath(m: Machine, w: World, reply: Reply)
    requires m.state == ProbeQueue
    ensures OnAnswer(m, w, reply).state == PathOf(m, w, Answer(reply, m.generation))
    ensures OnAnswer(m, w, reply).sent == m.sent + CommandsOf(m, w, Answer(reply, m.generation))
  {
  }

  lemma AnswerPath(m: Machine, w: World, reply: Reply)
    ensures OnAnswer(m, w, reply).state == PathOf(m, w, Answer(reply, m.generation))
    ensures OnAnswer(m, w, reply).sent == m.sent + CommandsOf(m, w, Answer(reply, m.generation))
  {
    if m.state == TryHeaterInterrupt {
      HeaterAnswerPath(m, w, reply);
    } else if m.state == ProbeQueue {
      ProbeAnswerPath(m, w, reply);
    }
  }

  lemma BlockedPath(m: Machine, w: World, id: nat)
    requires id in m.timers.armed && m.timers.armed[id].kind in {ProbeTimer, CancelTimer}
    ensures OnTimer(m, w, id).state == PathOf(m, w, TimerFires(id))
    ensures OnTimer(m, w, id).sent == m.sent + CommandsOf(m, w, TimerFires(id))
  {
  }

  lemma TimerPath(m: Machine, w: World, id: nat)
    requires Inv(m) && id in m.timers.armed
    ensures OnTimer(m, w, id).state == PathOf(m, w, TimerFires(id))
    ensures OnTimer(m, w, id).sent == m.sent + CommandsOf(m, w, TimerFires(id))
  {
    if m.timers.armed[id].kind in {ProbeTimer, CancelTimer} {
      BlockedPath(m, w, id);
    } else {
      TimerMatchesState(m, id);
    }
  }

  lemma NoticePath(m: Machine, w: World, e: Event)
    requires !e.Start? && !e.TimerFires? && (e.Answer? ==> e.generation != m.generation)
    ensures Step(m, w, e).state == PathOf(m, w, e) && Step(m, w, e).sent == m.sent + CommandsOf(m, w, e)
  {
  }

  /** Over every event: the abort goes where its path says, sends what that says, and nothing else. */
  lemma PathExactly(m: Machine, w: World, e: Event)
    requires Inv(m)
    ensures Step(m, w, e).state == PathOf(m, w, e) && Step(m, w, e).sent == m.sent + CommandsOf(m, w, e)
  {
    match e
    case Start(entry) => StartPath(m, w, entry);
    case Answer(reply, g) => if g == m.generation { AnswerPath(m, w, reply); } else { NoticePath(m, w, e); }
    case TimerFires(id) => if id in m.timers.armed { TimerPath(m, w, id); }
    case _ => NoticePath(m, w, e);
  }

  /** Whether the firmware takes an interrupt is resolved by the first probing start, and corrected by
      what the interrupt does. Starts are numbered, and each counts its own escalations from
      nothing. */
  ghost predicate CountsExactly(m: Machine, w: World, e: Event, n: Machine) {
    var begun := e.Start? && !Aborting(m.state);
    && n.generation == (if begun then m.generation + 1 else m.generation)
    && n.escalation == (if begun then 0 else m.escalation) + (if CausesEstop(m, w, e) then 1 else 0)
    && n.support == (if Begins(m, e, Probe) then (if Interrupts(m, w) then Supported else Unsupported)
                     else if HeaterDone(m, e) then (if e.Answer? && e.reply == HeaterOk then Supported else Unsupported)
                     else m.support)
  }

  lemma AnswerCounts(m: Machine, w: World, reply: Reply)
    ensures CountsExactly(m, w, Answer(reply, m.generation), OnAnswer(m, w, reply))
  {
  }

  lemma TimerCounts(m: Machine, w: World, id: nat)
    requires Inv(m) && id in m.timers.armed
    ensures CountsExactly(m, w, TimerFires(id), OnTimer(m, w, id))
  {
    TimerMatchesState(m, id);
  }

  /** Over every event. */
  lemma SupportAndCounts(m: Machine, w: World, e: Event)
    requires Inv(m)
    ensures CountsExactly(m, w, e, Step(m, w, e))
  {
    match e
    case Start(entry) =>
    case Answer(reply, g) => if g == m.generation { AnswerCounts(m, w, reply); }
    case TimerFires(id) => if id in m.timers.armed { TimerCounts(m, w, id); }
    case _ =>
  }

  // ---------------------------------------------------------------- earlier replies

  /** Drop every reply that was issued before the newest start. */
  function WithoutStale(m: Machine, es: Trace): Trace
    decreases |es|
  {
    if es == [] then []
    else
      var rest := WithoutStale(Step(m, es[0].0, es[0].1), es[1..]);
      if es[0].1.Answer? && es[0].1.generation < m.generation then rest else [es[0]] + rest
  }

  /** Each machine the run passes through, stutters left out. */
  function Trajectory(m: Machine, es: Trace): seq<Machine>
    decreases |es|
  {
    if es == [] then []
    else
      var n := Step(m, es[0].0, es[0].1);
      (if n == m then [] else [n]) + Trajectory(n, es[1..])
  }

  lemma {:induction false} StaleRepliesChangeNothing(m: Machine, es: Trace)
    ensures Trajectory(m, WithoutStale(m, es)) == Trajectory(m, es)
    ensures Run(m, WithoutStale(m, es)) == Run(m, es)
    decreases |es|
  {
    if es != [] {
      StaleRepliesChangeNothing(Step(m, es[0].0, es[0].1), es[1..]);
      var kept := WithoutStale(m, es);
      if !(es[0].1.Answer? && es[0].1.generation < m.generation) {
        assert kept[1..] == WithoutStale(Step(m, es[0].0, es[0].1), es[1..]);
      }
    }
  }

  // ---------------------------------------------------------------- reconnect

  /** The run neither sees SHUTDOWN nor gives up waiting. */
  predicate NoShutdownSeen(m: Machine, es: Trace)
    decreases |es|
  {
    es != [] ==>
      && es[0].1 != EstopButton
      && (es[0].1 == KlippyNotify ==> es[0].0.klippy != Shutdown)
      && (es[0].1.TimerFires? && es[0].1.id in m.timers.armed ==>
            m.timers.armed[es[0].1.id].kind != ReconnectTimer)
      && NoShutdownSeen(Step(m, es[0].0, es[0].1), es[1..])
  }

  /** Any number of READY reports leaves the run waiting until a SHUTDOWN has been seen. */
  lemma {:induction false} ReadyAloneNeverCompletes(m: Machine, es: Trace)
    requires Inv(m) && m.state == WaitingReconnect && !m.seenShutdown && NoShutdownSeen(m, es)
    ensures Run(m, es).state == WaitingReconnect && !Run(m, es).seenShutdown
    decreases |es|
  {
    if es != [] {
      var (w, e) := es[0];
      StepInv(m, w, e);
      if e.TimerFires? && e.id in m.timers.armed { TimerMatchesState(m, e.id); }
      ReadyAloneNeverCompletes(Step(m, w, e), es[1..]);
    }
  }

  /** The states the run passes through, the one it starts in first. */
  function States(m: Machine, es: Trace): (st: seq<State>)
    ensures |st| == |es| + 1
    decreases |es|
  {
    [m.state] + if es == [] then [] else States(Step(m, es[0].0, es[0].1), es[1..])
  }

  /** Event `i` put the abort into the wait, or came while it was waiting, and it has waited on
      ever since. */
  predicate WaitedSince(st: seq<State>, i: nat) { forall j :: i < j < |st| ==> st[j] == WaitingReconnect }

  /** The klippy state is delivered by a notification, and at once when the observer registers,
      which is when the wait begins. */
  predicate DeliversShutdown(st: seq<State>, es: Trace, i: nat)
    requires i < |es| && |st| == |es| + 1
  {
    es[i].0.klippy == Shutdown && (es[i].1 == KlippyNotify || st[i] != WaitingReconnect)
  }

  /** A shutdown was delivered since the wait began, or as it began. */
  predicate Saw(st: seq<State>, es: Trace)
    requires |st| == |es| + 1
  {
    exists i: nat :: i < |es| && WaitedSince(st, i) && DeliversShutdown(st, es, i)
  }

  predicate SawShutdown(es: Trace) { Saw(States(BOOT, es), es) }

  lemma WaitStep(m: Machine, w: World, e: Event)
    requires Inv(m) && Step(m, w, e).state == WaitingReconnect
    ensures m.state == WaitingReconnect ==>
              (Step(m, w, e).seenShutdown <==> m.seenShutdown || (e == KlippyNotify && w.klippy == Shutdown))
    ensures m.state != WaitingReconnect ==>
              e == Answer(RecoveryIssued, m.generation) && (Step(m, w, e).seenShutdown <==> w.klippy == Shutdown)
  {
    if e.TimerFires? && e.id in m.timers.armed { TimerMatchesState(m, e.id); }
  }

  lemma SawLater(st: seq<State>, es: Trace, s: (World, Event))
    requires |st| == |es| + 1
    ensures var t, n := st + [WaitingReconnect], es + [s];
            Saw(t, n) <==> Saw(st, es) || DeliversShutdown(t, n, |es|)
  {
    var t, n := st + [WaitingReconnect], es + [s];
    forall i: nat | i < |es|
      ensures WaitedSince(t, i) <==> WaitedSince(st, i)
      ensures DeliversShutdown(t, n, i) <==> DeliversShutdown(st, es, i)
    {
      assert forall j :: i < j < |st| ==> t[j] == st[j];
    }
    assert WaitedSince(t, |es|);
  }

  lemma {:induction false} StatesEnd(m: Machine, es: Trace, s: (World, Event))
    ensures States(m, es + [s]) == States(m, es) + [Run(m, es + [s]).state]
    ensures States(m, es)[|es|] == Run(m, es).state
    decreases |es|
  {
    if es != [] {
      assert (es + [s])[1..] == es[1..] + [s];
      StatesEnd(Step(m, es[0].0, es[0].1), es[1..], s);
    }
  }

  /** What the manager remembers of the wait is what was delivered in it. */
  lemma {:induction false} SeenIsSaw(es: Trace)
    requires Run(BOOT, es).state == WaitingReconnect
    ensures Run(BOOT, es).seenShutdown <==> SawShutdown(es)
    decreases |es|
  {
    var before := es[..|es| - 1];
    var (w, e) := es[|es| - 1];
    assert es == before + [(w, e)];
    RunSnoc(BOOT, before, w, e);
    StatesEnd(BOOT, before, (w, e));
    RunInv(BOOT, before);
    WaitStep(Run(BOOT, before), w, e);
    SawLater(States(BOOT, before), before, (w, e));
    if Run(BOOT, before).state == WaitingReconnect { SeenIsSaw(before); }
  }

  /** Over every run: a klippy notification completes the abort exactly if it waits for the
      reconnect, the notification says READY, and a SHUTDOWN was delivered since the wait began;
      otherwise it changes no state. */
  lemma ReconnectCompletesExactly(es: Trace, w: World)
    ensures var m := Run(BOOT, es); var n := Step(m, w, KlippyNotify);
            && (n.state != m.state ==> m.state == WaitingReconnect && n.state == Complete)
            && (n.state != m.state <==> m.state == WaitingReconnect && w.klippy == Ready && SawShutdown(es))
  {
    if Run(BOOT, es).state == WaitingReconnect { SeenIsSaw(es); }
  }

  // ---------------------------------------------------------------- termination

  predicate Unattended(es: Trace, w: World) {
    forall i :: 0 <= i < |es| ==>
      es[i].0 == w &&
      (es[i].1.TimerFires? || es[i].1 == KlippyNotify || (es[i].1.Answer? && es[i].1.reply == EstopAnswered))
  }

  /** What happens next with nobody there: M112 is answered, or the guarded timer fires. */
  function NextForced(m: Machine): Event {
    match m.state
    case TryHeaterInterrupt => Due(m, HeaterTimer)
    case ProbeQueue => Due(m, ProbeTimer)
    case SentCancel => Due(m, CancelTimer)
    case SentRestart => Due(m, RestartTimer)
    case WaitingReconnect => Due(m, ReconnectTimer)
    case _ => Answer(EstopAnswered, m.generation)
  }

  function Due(m: Machine, k: TimerKind): Event {
    if k in m.timers.held then TimerFires(m.timers.held[k]) else KlippyNotify
  }

  function Drive(m: Machine, w: World, n: nat): Trace
    decreases n
  {
    if n == 0 then []
    else [(w, NextForced(m))] + Drive(Step(m, w, NextForced(m)), w, n - 1)
  }

  /** Only a cancel that may not escalate, or whose timer is gone, can stall. */
  predicate Moving(m: Machine, w: World) {
    && (Rank(m.state) < Rank(SentEstop) ==> w.escalates)
    && (m.state == SentCancel ==> CancelTimer in m.timers.held)
  }

  lemma ForcedAdvances(m: Machine, w: World)
    requires Inv(m) && Aborting(m.state) && Moving(m, w)
    ensures var n := Step(m, w, NextForced(m));
            Inv(n) && Rank(n.state) > Rank(m.state) && Moving(n, w)
  {
    StepInv(m, w, NextForced(m));
  }

  /** Nor does it leave a complete one. */
  lemma ForcedMoves(m: Machine, w: World)
    requires Inv(m) && m.state != Idle && Moving(m, w)
    ensures var n := Step(m, w, NextForced(m));
            && Inv(n) && n.state != Idle && Moving(n, w)
            && (if m.state == Complete then n.state == Complete else Rank(n.state) > Rank(m.state))
  {
    if m.state == Complete { StepInv(m, w, NextForced(m)); } else { ForcedAdvances(m, w); }
  }

  lemma {:induction false} DriveUnattended(m: Machine, w: World, n: nat)
    ensures Unattended(Drive(m, w, n), w)
    decreases n
  {
    if n != 0 { DriveUnattended(Step(m, w, NextForced(m)), w, n - 1); }
  }

  lemma RunDriven(m: Machine, w: World, n: nat)
    requires n > 0
    ensures Run(m, Drive(m, w, n)) == Run(Step(m, w, NextForced(m)), Drive(Step(m, w, NextForced(m)), w, n - 1))
  {
  }

  lemma {:induction false} DriveCompletes(m: Machine, w: World, n: nat)
    requires Inv(m) && m.state != Idle && Moving(m, w) && Rank(m.state) + n >= Rank(Complete)
    ensures Run(m, Drive(m, w, n)).state == Complete
    decreases n
  {
    if n != 0 {
      ForcedMoves(m, w);
      DriveCompletes(Step(m, w, NextForced(m)), w, n - 1);
      RunDriven(m, w, n);
    }
  }

  lemma {:induction false} StallsInCancel(m: Machine, w: World, es: Trace)
    requires Inv(m) && 1 <= Rank(m.state) <= Rank(SentCancel) && !w.escalates && !w.printEnded
    requires Unattended(es, w)
    ensures 1 <= Rank(Run(m, es).state) <= Rank(SentCancel)
    decreases |es|
  {
    if es != [] {
      StepInv(m, w, es[0].1);
      if es[0].1.TimerFires? && es[0].1.id in m.timers.armed { TimerMatchesState(m, es[0].1.id); }
      StallsInCancel(Step(m, w, es[0].1), w, es[1..]);
    }
  }

  /** Left alone under unchanging surroundings, a fresh run can complete exactly when escalation
      is on, the print has already ended, or the run entered by M112; then the timers and the
      answer to M112 are enough. */
  lemma UnattendedRunCompletes(m: Machine, w: World, entry: Entry)
    requires Inv(m) && !Aborting(m.state)
    ensures (w.escalates || w.printEnded || entry == EmergencyStop) <==>
              exists es :: Unattended(es, w) && Run(OnStart(m, w, entry), es).state == Complete
  {
    var s := OnStart(m, w, entry);
    StartOk(m, w, entry);
    if w.escalates || entry == EmergencyStop {
      DriveCompletes(s, w, 7);
      DriveUnattended(s, w, 7);
    } else if w.printEnded {
      EndedPrintCompletes(s, w, 3);
      DriveUnattended(s, w, 3);
    } else {
      forall es | Unattended(es, w) ensures Run(s, es).state != Complete {
        StallsInCancel(s, w, es);
      }
    }
  }

  lemma EndedPrintAdvances(m: Machine, w: World)
    requires Inv(m) && w.printEnded && !w.escalates && m.state in {TryHeaterInterrupt, ProbeQueue, Complete}
    ensures var n := Step(m, w, NextForced(m));
            Inv(n) && n.state == if m.state == TryHeaterInterrupt then ProbeQueue else Complete
  {
    StepInv(m, w, NextForced(m));
  }

  lemma {:induction false} EndedPrintCompletes(m: Machine, w: World, n: nat)
    requires Inv(m) && w.printEnded && !w.escalates
    requires m.state in {TryHeaterInterrupt, ProbeQueue, Complete} && Rank(m.state) + n >= 3
    ensures Run(m, Drive(m, w, n)).state == Complete
    decreases n
  {
    if n != 0 {
      EndedPrintAdvances(m, w);
      EndedPrintCompletes(Step(m, w, NextForced(m)), w, n - 1);
      RunDriven(m, w, n);
    }
  }

  /** An endless behaviour: the machines passed through, and what happens to each. */
  ghost predicate Behaves(ms: nat -> Machine, f: nat -> (World, Event)) {
    forall i: nat :: StepsAt(ms, f, i)
  }

  ghost predicate StepsAt(ms: nat -> Machine, f: nat -> (World, Event), i: nat) {
    ms(i + 1) == Step(ms(i), f(i).0, f(i).1)
  }

  ghost predicate IsDue(ms: nat -> Machine, f: nat -> (World, Event), j: nat) { f(j).1 == NextForced(ms(j)) }

  /** The timer due, or the answer to M112, is not put off for ever. */
  ghost predicate Fair(ms: nat -> Machine, f: nat -> (World, Event)) {
    forall i: nat {:trigger ComesDue(ms, f, i)} :: Aborting(ms(i).state) ==> ComesDue(ms, f, i)
  }

  ghost predicate ComesDue(ms: nat -> Machine, f: nat -> (World, Event), i: nat) {
    exists j: nat :: i <= j && IsDue(ms, f, j)
  }

  /** Escalation stays on and nobody presses the emergency button; replies, notifications, starts
      and stray timers come as they like, under any surroundings. */
  ghost predicate HandsOff(f: nat -> (World, Event)) {
    forall i: nat :: f(i).0.escalates && f(i).1 != EstopButton
  }

  predicate UnderWay(m: Machine) {
    Inv(m) && Aborting(m.state) && (m.state == SentCancel ==> CancelTimer in m.timers.held)
  }

  lemma StepStaysUnderWay(m: Machine, w: World, e: Event)
    requires UnderWay(m) && w.escalates && e != EstopButton
    ensures var n := Step(m, w, e);
            n.state == Complete || (UnderWay(n) && Rank(n.state) >= Rank(m.state))
  {
    StepInv(m, w, e);
    MovesForward(m, w, e);
    if e.TimerFires? && e.id in m.timers.armed { TimerMatchesState(m, e.id); }
  }

  ghost predicate Completes(ms: nat -> Machine) { exists n: nat :: ms(n).state == Complete }

  lemma {:induction false} UnderWayUntil(ms: nat -> Machine, f: nat -> (World, Event), i: nat, j: nat)
    requires Behaves(ms, f) && HandsOff(f) && i <= j && UnderWay(ms(i))
    ensures Completes(ms) || (UnderWay(ms(j)) && Rank(ms(j).state) >= Rank(ms(i).state))
    decreases j - i
  {
    if i < j {
      UnderWayUntil(ms, f, i, j - 1);
      if !Completes(ms) {
        var (w, e) := f(j - 1);
        assert StepsAt(ms, f, j - 1);
        StepStaysUnderWay(ms(j - 1), w, e);
      }
    }
  }

  lemma DueAdvances(ms: nat -> Machine, f: nat -> (World, Event), j: nat)
    requires Behaves(ms, f) && HandsOff(f) && UnderWay(ms(j)) && IsDue(ms, f, j)
    ensures Completes(ms) || (UnderWay(ms(j + 1)) && Rank(ms(j + 1).state) > Rank(ms(j).state))
  {
    var (w, e) := f(j);
    assert StepsAt(ms, f, j);
    ForcedAdvances(ms(j), w);
    StepStaysUnderWay(ms(j), w, e);
  }

  lemma DueComes(ms: nat -> Machine, f: nat -> (World, Event), i: nat) returns (j: nat)
    requires Fair(ms, f) && UnderWay(ms(i))
    ensures i <= j && IsDue(ms, f, j)
  {
    assert ComesDue(ms, f, i);
    j :| i <= j && IsDue(ms, f, j);
  }

  lemma NextUp(ms: nat -> Machine, f: nat -> (World, Event), i: nat) returns (j: nat)
    requires Behaves(ms, f) && HandsOff(f) && Fair(ms, f) && UnderWay(ms(i))
    ensures Completes(ms) || (UnderWay(ms(j)) && Rank(ms(j).state) > Rank(ms(i).state))
  {
    j := DueComes(ms, f, i);
    UnderWayUntil(ms, f, i, j);
    if !Completes(ms) {
      DueAdvances(ms, f, j);
      j := j + 1;
    }
  }

  lemma {:induction false} Climbs(live: nat -> bool, rank: nat -> nat, top: nat, done: bool, i: nat)
    requires live(i)
    requires forall k: nat :: live(k) ==> rank(k) <= top && (done || exists j: nat :: live(j) && rank(j) > rank(k))
    ensures done
    decreases top - rank(i)
  {
    if !done {
      var j: nat :| live(j) && rank(j) > rank(i);
      Climbs(live, rank, top, done, j);
    }
  }

  /** An abort started with escalation on completes in every fair behaviour: whatever the printer
      answers, and in whatever order timers, replies and notifications come. */
  lemma FairRunsComplete(m: Machine, w: World, entry: Entry, ms: nat -> Machine, f: nat -> (World, Event))
    requires Inv(m) && !Aborting(m.state) && w.escalates && ms(0) == OnStart(m, w, entry)
    requires Behaves(ms, f) && HandsOff(f) && Fair(ms, f)
    ensures exists n: nat :: ms(n).state == Complete
  {
    StartOk(m, w, entry);
    if ms(0).state != Complete {
      var live, rank := (k: nat) => UnderWay(ms(k)), (k: nat) => Rank(ms(k).state);
      forall k: nat | live(k)
        ensures rank(k) <= 7 && (Completes(ms) || exists j: nat :: live(j) && rank(j) > rank(k))
      {
        var j := NextUp(ms, f, k);
        assert Completes(ms) || (live(j) && rank(j) > rank(k));
      }
      Climbs(live, rank, 7, Completes(ms), 0);
    }
  }

  // ---------------------------------------------------------------- timers left behind

  function Orphans(t: Timers): set<nat> { set id | id in t.armed && !Guarded(t, id) }

  function HeldBy(t: Timers, k: TimerKind): set<nat> { if k in t.held then {t.held[k]} else {} }

  /** The timer an event makes its guard let go of without disarming it. */
  function Abandoned(m: Machine, w: World, e: Event): set<nat> {
    var t := m.timers;
    if e == Answer(ProbeErr, m.generation) && m.state == ProbeQueue then HeldBy(t, ProbeTimer)
    else if e == Answer(CancelErr, m.generation) && m.state == SentCancel && w.escalates then
      HeldBy(t, CancelTimer)
    else if e.TimerFires? && e.id in t.armed && !Guarded(t, e.id) then HeldBy(t, t.armed[e.id].kind)
    else {}
  }

  lemma ResetKeepsOrphans(t: Timers, k: TimerKind, g: nat)
    requires TimersOk(t, g)
    ensures Orphans(Reset(t, k)) == Orphans(t)
  {
  }

  lemma ArmKeepsOrphans(t: Timers, k: TimerKind, g: nat)
    requires TimersOk(t, g)
    ensures Orphans(Arm(t, k, g)) == Orphans(t)
  {
  }

  lemma ReleaseOrphans(t: Timers, k: TimerKind, g: nat)
    requires TimersOk(t, g)
    ensures Orphans(Release(t, k)) == Orphans(t) + HeldBy(t, k)
  {
  }

  lemma FireOrphans(t: Timers, id: nat, g: nat)
    requires TimersOk(t, g) && id in t.armed
    ensures Orphans(Fire(t, id)) ==
              Orphans(t) - {id} + if Guarded(t, id) then {} else HeldBy(t, t.armed[id].kind)
  {
  }

  lemma EscalateOrphans(m: Machine)
    ensures Orphans(Escalate(m).timers) == Orphans(m.timers)
    ensures Orphans(Finish(m).timers) == Orphans(m.timers)
  {
  }

  lemma SendCancelOrphans(m: Machine, w: World)
    requires TimersOk(m.timers, m.generation)
    ensures Orphans(SendCancel(m, w).timers) == Orphans(m.timers)
  {
  }

  lemma OnKlippyOrphans(m: Machine, k: Klippy)
    requires TimersOk(m.timers, m.generation)
    ensures Orphans(OnKlippy(m, k).timers) == Orphans(m.timers)
  {
  }

  lemma StartOrphans(m: Machine, w: World, entry: Entry)
    requires Inv(m)
    ensures Orphans(OnStart(m, w, entry).timers) == Orphans(m.timers)
  {
    if !Aborting(m.state) {
      BegunOk(m);
      var n := Begun(m);
      match entry
      case Cancel => SendCancelOrphans(n, w);
      case EmergencyStop => EscalateOrphans(n);
      case Probe =>
        ArmKeepsOrphans(n.timers, HeaterTimer, n.generation);
        ArmKeepsOrphans(n.timers, ProbeTimer, n.generation);
    }
  }

  lemma RestartOrphans(m: Machine, w: World)
    requires TimersOk(m.timers, m.generation)
    ensures Orphans(Finish(Drop(m, RestartTimer)).timers) == Orphans(m.timers)
    ensures Orphans(WaitForReconnect(Drop(m, RestartTimer), w).timers) == Orphans(m.timers)
  {
    var t, g := m.timers, m.generation;
    ResetKeepsOrphans(t, RestartTimer, g);
    ResetOk(t, RestartTimer, g);
    var r := Drop(m, RestartTimer);
    EscalateOrphans(r);
    ArmOk(r.timers, ReconnectTimer, g);
    ArmKeepsOrphans(r.timers, ReconnectTimer, g);
    OnKlippyOrphans(r.(seenShutdown := false, state := WaitingReconnect,
                       timers := Arm(r.timers, ReconnectTimer, g)), w.klippy);
  }

  lemma ProbeOrphans(m: Machine, w: World)
    requires TimersOk(m.timers, m.generation) && m.state == ProbeQueue
    ensures Orphans(SendCancel(Drop(m, ProbeTimer), w).timers) == Orphans(m.timers)
    ensures Orphans(OnProbeBlocked(m, w).timers) == Orphans(m.timers) + HeldBy(m.timers, ProbeTimer)
  {
    var t, g := m.timers, m.generation;
    ResetKeepsOrphans(t, ProbeTimer, g);
    ResetOk(t, ProbeTimer, g);
    SendCancelOrphans(Drop(m, ProbeTimer), w);
    ReleaseOrphans(t, ProbeTimer, g);
    ReleaseOk(t, ProbeTimer, g);
    SendCancelOrphans(LetGo(m, ProbeTimer), w);
    EscalateOrphans(LetGo(m, ProbeTimer));
  }

  lemma CancelOrphans(m: Machine, w: World)
    requires TimersOk(m.timers, m.generation) && m.state == SentCancel
    ensures Orphans(Finish(Drop(m, CancelTimer)).timers) == Orphans(m.timers)
    ensures Orphans(OnCancelBlocked(m, w).timers) == Orphans(m.timers) + HeldBy(m.timers, CancelTimer)
  {
    var t, g := m.timers, m.generation;
    ResetKeepsOrphans(t, CancelTimer, g);
    EscalateOrphans(Drop(m, CancelTimer));
    ReleaseOrphans(t, CancelTimer, g);
    EscalateOrphans(LetGo(m, CancelTimer));
  }

  lemma HeaterOrphans(m: Machine, support: Support)
    requires TimersOk(m.timers, m.generation)
    ensures Orphans(OnHeater(m, support).timers) == Orphans(m.timers)
  {
    ResetKeepsOrphans(m.timers, HeaterTimer, m.generation);
    ResetOk(m.timers, HeaterTimer, m.generation);
    ArmKeepsOrphans(Reset(m.timers, HeaterTimer), ProbeTimer, m.generation);
  }

  lemma AnswerOrphans(m: Machine, w: World, reply: Reply)
    requires Inv(m)
    ensures Orphans(OnAnswer(m, w, reply).timers) ==
              Orphans(m.timers) + Abandoned(m, w, Answer(reply, m.generation))
  {
    match reply
    case HeaterOk => HeaterOrphans(m, Supported);
    case HeaterErr => HeaterOrphans(m, Unsupported);
    case ProbeOk => if m.state == ProbeQueue { ProbeOrphans(m, w); }
    case ProbeErr => if m.state == ProbeQueue { ProbeOrphans(m, w); }
    case CancelOk => if m.state == SentCancel { CancelOrphans(m, w); }
    case CancelErr => if m.state == SentCancel { CancelOrphans(m, w); EscalateOrphans(m); }
    case EstopAnswered => ArmKeepsOrphans(m.timers, RestartTimer, m.generation);
    case _ => RestartOrphans(m, w);
  }

  lemma TimerOrphans(m: Machine, w: World, id: nat)
    requires Inv(m) && id in m.timers.armed
    ensures Orphans(OnTimer(m, w, id).timers) ==
              Orphans(m.timers) - {id} + Abandoned(m, w, TimerFires(id))
  {
    var g := m.generation;
    FireOk(m.timers, id, g);
    FireOrphans(m.timers, id, g);
    var n := m.(timers := Fire(m.timers, id));
    match m.timers.armed[id].kind
    case HeaterTimer => ArmKeepsOrphans(n.timers, ProbeTimer, g);
    case ProbeTimer => if m.state == ProbeQueue { ProbeOrphans(n, w); }
    case CancelTimer => if m.state == SentCancel { CancelOrphans(n, w); }
    case _ => EscalateOrphans(n);
  }

  /** Exactly which timers are left armed with no guard to disarm them, step by step. */
  lemma OrphansExactly(m: Machine, w: World, e: Event)
    requires Inv(m)
    ensures Orphans(Step(m, w, e).timers) ==
              Orphans(m.timers) - (if e.TimerFires? then {e.id} else {}) + Abandoned(m, w, e)
  {
    match e
    case Start(entry) => StartOrphans(m, w, entry);
    case EstopButton => EscalateOrphans(m);
    case Answer(reply, g) => if g == m.generation { AnswerOrphans(m, w, reply); }
    case TimerFires(id) => if id in m.timers.armed { TimerOrphans(m, w, id); }
    case KlippyNotify => OnKlippyOrphans(m, w.klippy);
    case PrintNotify => EscalateOrphans(m);
  }

  /** No reply in the run makes a guard let go of an armed timer. */
  predicate NothingAbandoned(m: Machine, es: Trace)
    decreases |es|
  {
    es != [] ==>
      && (es[0].1.Answer? ==> Abandoned(m, es[0].0, es[0].1) == {})
      && NothingAbandoned(Step(m, es[0].0, es[0].1), es[1..])
  }

  lemma {:induction false} CleanRunsLeaveNoTimer(m: Machine, es: Trace)
    requires Inv(m) && Orphans(m.timers) == {} && NothingAbandoned(m, es)
    ensures Inv(Run(m, es)) && Orphans(Run(m, es).timers) == {}
    decreases |es|
  {
    if es != [] {
      var (w, e) := es[0];
      StepInv(m, w, e);
      if e.TimerFires? { assert e.id !in Orphans(m.timers); }
      OrphansExactly(m, w, e);
      CleanRunsLeaveNoTimer(Step(m, w, e), es[1..]);
    }
  }

  /** A timer of an earlier run that can still move this one: armed, held by no guard, and of the
      kind the state listens to. */
  predicate Stray(m: Machine, id: nat) {
    && id in m.timers.armed && !Guarded(m.timers, id) && m.timers.armed[id].generation < m.generation
    && (m.timers.armed[id].kind == ProbeTimer ==> m.state == ProbeQueue)
    && (m.timers.armed[id].kind == CancelTimer ==> m.state == SentCancel)
  }

  /** A timer of another run changes the state, under these surroundings. */
  predicate MovedByAnother(m: Machine, w: World, e: Event) {
    && e.TimerFires? && e.id in m.timers.armed && m.timers.armed[e.id].generation != m.generation
    && Step(m, w, e).state != m.state
  }

  /** A stray probe timer always does; a stray cancel timer only where the run may escalate. */
  lemma AnotherMovesExactly(m: Machine, w: World, e: Event)
    requires Inv(m)
    ensures MovedByAnother(m, w, e) <==>
            e.TimerFires? && Stray(m, e.id) && (m.timers.armed[e.id].kind == CancelTimer ==> w.escalates)
  {
    if e.TimerFires? && e.id in m.timers.armed { TimerMatchesState(m, e.id); }
  }

  /** After any run, a timer of an earlier one can move the abort exactly if it is stray. */
  lemma StrayTimersExactly(es: Trace, id: nat)
    ensures var m := Run(BOOT, es); (exists w :: MovedByAnother(m, w, TimerFires(id))) <==> Stray(m, id)
  {
    RunInv(BOOT, es);
    var m := Run(BOOT, es);
    forall w ensures MovedByAnother(m, w, TimerFires(id)) ==> Stray(m, id) {
      AnotherMovesExactly(m, w, TimerFires(id));
    }
    AnotherMovesExactly(m, ESCALATING, TimerFires(id));
  }

  /** No step of the run is made by a timer of an earlier one. */
  predicate OwnMoves(m: Machine, es: Trace)
    decreases |es|
  {
    es == [] || (!MovedByAnother(m, es[0].0, es[0].1) && OwnMoves(Step(m, es[0].0, es[0].1), es[1..]))
  }

  /** No stray timer fires in the run, save a cancel timer while escalation is off. */
  predicate NoStrayFires(m: Machine, es: Trace)
    decreases |es|
  {
    es == []
    || (!(es[0].1.TimerFires? && Stray(m, es[0].1.id)
          && (m.timers.armed[es[0].1.id].kind == CancelTimer ==> es[0].0.escalates))
        && NoStrayFires(Step(m, es[0].0, es[0].1), es[1..]))
  }

  lemma {:induction false} OwnMovesExactly(m: Machine, es: Trace)
    requires Inv(m)
    ensures OwnMoves(m, es) <==> NoStrayFires(m, es)
    decreases |es|
  {
    if es != [] {
      var (w, e) := es[0];
      AnotherMovesExactly(m, w, e);
      StepInv(m, w, e);
      OwnMovesExactly(Step(m, w, e), es[1..]);
    }
  }

  /** Over every run, each abort is moved by its own timers alone exactly if no stray one fires. */
  lemma OwnTimersExactly(es: Trace)
    ensures OwnMoves(BOOT, es) <==> NoStrayFires(BOOT, es)
  {
    OwnMovesExactly(BOOT, es);
  }

  /** In particular after any run in which no reply abandoned a timer. */
  lemma OwnTimersOnly(es: Trace, w: World, id: nat)
    requires NothingAbandoned(BOOT, es)
    ensures !MovedByAnother(Run(BOOT, es), w, TimerFires(id))
  {
    CleanRunsLeaveNoTimer(BOOT, es);
    var m := Run(BOOT, es);
    assert id !in Orphans(m.timers);
    StrayTimersExactly(es, id);
  }

  const ESCALATING := World(true, false, false, Ready)
  const LEFT := Timer(CancelTimer, 1)

  /** An escalating run whose cancel RPC was refused, up to its completion. */
  const REFUSED_CANCEL: Trace :=
    [(ESCALATING, Start(Cancel)), (ESCALATING, Answer(CancelErr, 1)),
     (ESCALATING, Answer(EstopAnswered, 1)), (ESCALATING, Answer(RecoveryVerified, 1))]

  lemma RefusedCancelLeavesItsTimer()
    ensures var d := Run(BOOT, REFUSED_CANCEL);
            d.state == Complete && d.generation == 1 && d.timers == Timers(map[0 := LEFT], map[], 2)
  {
    var a := Step(BOOT, ESCALATING, Start(Cancel));
    assert a.timers == Timers(map[0 := LEFT], map[CancelTimer := 0], 1);
    var b := Step(a, ESCALATING, Answer(CancelErr, 1));
    assert b.timers == Timers(map[0 := LEFT], map[], 1);
    var c := Step(b, ESCALATING, Answer(EstopAnswered, 1));
    var d := Step(c, ESCALATING, Answer(RecoveryVerified, 1));
    assert d.timers == Timers(map[0 := LEFT], map[], 2);
    assert Run(a, REFUSED_CANCEL[1..]) == d by {
      assert REFUSED_CANCEL[1..][1..] == REFUSED_CANCEL[2..];
      assert REFUSED_CANCEL[2..][1..] == REFUSED_CANCEL[3..];
      assert REFUSED_CANCEL[3..][1..] == [];
      assert Run(b, REFUSED_CANCEL[2..]) == Run(c, REFUSED_CANCEL[3..]) == Run(d, []);
    }
  }

  /** A cancel refused by an escalating run leaves its timer armed; the next abort is then
      stopped by M112 although its own cancel timer has not fired. */
  lemma AbandonedTimerStopsTheNextAbort()
    ensures var m := Run(BOOT, REFUSED_CANCEL + [(ESCALATING, Start(Cancel))]);
            && m.generation == 2 && m.state == SentCancel
            && m.timers.held == map[CancelTimer := 2]
            && 2 in m.timers.armed && m.timers.armed[2].generation == 2
            && Step(m, ESCALATING, TimerFires(0)).state == SentEstop
  {
    RefusedCancelLeavesItsTimer();
    RunSnoc(BOOT, REFUSED_CANCEL, ESCALATING, Start(Cancel));
    var m := Run(BOOT, REFUSED_CANCEL + [(ESCALATING, Start(Cancel))]);
    assert m.timers == Timers(map[0 := LEFT, 2 := Timer(CancelTimer, 2)], map[CancelTimer := 2], 3);
  }

  lemma {:induction false} RunSnoc(m: Machine, es: Trace, w: World, e: Event)
    ensures Run(m, es + [(w, e)]) == Step(Run(m, es), w, e)
    decreases |es|
  {
    if es != [] {
      RunSnoc(Step(m, es[0].0, es[0].1), es[1..], w, e);
      assert (es + [(w, e)])[1..] == es[1..] + [(w, e)];
    }
  }

  // ---------------------------------------------------------------- the manager

  /** The manager as its source has it: fields, guards and callbacks. The callbacks for a reply
      already carry the generation check of the token they were wrapped in. */
  class Manager {
    var state: State
    var support: Support
    var escalation: nat
    var shutdownRecovery: bool
    var seenShutdown: bool
    var generation: nat
    var armed: map<nat, Timer>
    var held: map<TimerKind, nat>
    var nextTimer: nat
    var sent: seq<Command>

    function View(): Machine
      reads this
    {
      Machine(state, support, escalation, shutdownRecovery, seenShutdown, generation,
              Timers(armed, held, nextTimer), sent)
    }

    constructor ()
      ensures View() == BOOT
    {
      state, support, escalation := Idle, Unresolved, 0;
      shutdownRecovery, seenShutdown, generation := false, false, 0;
      armed, held, nextTimer, sent := map[], map[], 0, [];
    }

    predicate IsHandlingShutdown()
      reads this
      ensures IsHandlingShutdown() == HandlingShutdown(View())
    {
      shutdownRecovery || state == SentEstop || state == SentRestart || state == WaitingReconnect
    }

    method ResetTimer(k: TimerKind)
      modifies `armed, `held
      ensures View() == Drop(old(View()), k)
    {
      if k in held { armed, held := armed - {held[k]}, held - {k}; }
    }

    method ArmTimer(k: TimerKind)
      modifies `armed, `held, `nextTimer
      ensures View() == old(View().(timers := Arm(View().timers, k, generation)))
    {
      ResetTimer(k);
      armed := armed[nextTimer := Timer(k, generation)];
      held := held[k := nextTimer];
      nextTimer := nextTimer + 1;
    }

    method CancelAllTimers()
      modifies `armed, `held
      ensures View() == old(View().(timers := CancelAll(View().timers)))
    {
      armed := map id | id in armed && !Guarded(Timers(armed, held, nextTimer), id) :: armed[id];
      held := map[];
    }

    method CompleteAbort()
      modifies this
      ensures View() == Finish(old(View()))
    {
      CancelAllTimers();
      shutdownRecovery := false;
      state := Complete;
    }

    method EscalateToEstop()
      modifies this
      ensures View() == Escalate(old(View()))
    {
      escalation := escalation + 1;
      shutdownRecovery := true;
      CancelAllTimers();
      state := SentEstop;
      sent := sent + [M112];
    }

    method BeginProbe()
      modifies this
      ensures View() == StartProbe(old(View()))
    {
      state := ProbeQueue;
      sent := sent + [M115];
      ArmTimer(ProbeTimer);
    }

    method SendCancelPrint(w: World)
      modifies this
      ensures View() == SendCancel(old(View()), w)
    {
      state := SentCancel;
      PrintStateChanged(w);
      sent := sent + [CancelRpc];
      ArmTimer(CancelTimer);
    }

    method PrintStateChanged(w: World)
      modifies this
      ensures View() == Step(old(View()), w, PrintNotify)
    {
      if state == SentCancel && w.printEnded { CompleteAbort(); }
    }

    method KlippyStateChanged(w: World)
      modifies this
      ensures View() == Step(old(View()), w, KlippyNotify)
    {
      if state != WaitingReconnect { return; }
      if w.klippy == Shutdown {
        seenShutdown := true;
      } else if w.klippy == Ready && seenShutdown {
        ResetTimer(ReconnectTimer);
        shutdownRecovery := false;
        CompleteAbort();
      }
    }

    method HeaterOrProbe(w: World)
      modifies this
      ensures var s := if old(support) != Unresolved then old(support)
                       else if w.interruptible then Supported else Unsupported;
              var n := old(View()).(support := s);
              View() == if s == Supported then TryHeater(n) else StartProbe(n)
    {
      if support == Unresolved { support := if w.interruptible then Supported else Unsupported; }
      if support == Supported {
        state := TryHeaterInterrupt;
        sent := sent + [HeaterInterrupt];
        ArmTimer(HeaterTimer);
      } else {
        BeginProbe();
      }
    }

    method StartAbort(w: World, entry: Entry)
      modifies this
      ensures View() == Step(old(View()), w, Start(entry))
    {
      if state != Idle && state != Complete { return; }
      generation := generation + 1;
      escalation := 0;
      match entry
      case Cancel => SendCancelPrint(w);
      case EmergencyStop => EscalateToEstop();
      case Probe => HeaterOrProbe(w);
    }

    method ProbeBlocked(w: World)
      modifies this
      ensures View() == OnProbeBlocked(old(View()), w)
    {
      if state != ProbeQueue { return; }
      held := held - {ProbeTimer};
      if w.escalates { EscalateToEstop(); } else { SendCancelPrint(w); }
    }

    method CancelBlocked(w: World)
      modifies this
      ensures View() == OnCancelBlocked(old(View()), w)
    {
      if state != SentCancel { return; }
      held := held - {CancelTimer};
      if w.escalates { EscalateToEstop(); }
    }

    method HeaterAnswered(answer: Support)
      modifies this
      ensures View() == OnHeater(old(View()), answer)
    {
      if state != TryHeaterInterrupt { return; }
      ResetTimer(HeaterTimer);
      support := answer;
      BeginProbe();
    }

    method WaitForReconnection(w: World)
      modifies this
      ensures View() == WaitForReconnect(old(View()), w)
    {
      seenShutdown := false;
      state := WaitingReconnect;
      ArmTimer(ReconnectTimer);
      KlippyStateChanged(w);
    }

    method RestartAnswered(w: World, verified: bool)
      modifies this
      ensures View() == OnAnswer(old(View()), w, if verified then RecoveryVerified else RecoveryIssued)
    {
      if state != SentRestart { return; }
      ResetTimer(RestartTimer);
      if verified {
        shutdownRecovery := false;
        CompleteAbort();
      } else {
        WaitForReconnection(w);
      }
    }

    method Answered(w: World, reply: Reply, issuedUnder: nat)
      modifies this
      ensures View() == Step(old(View()), w, Answer(reply, issuedUnder))
    {
      if issuedUnder != generation { return; }
      match reply
      case HeaterOk => HeaterAnswered(Supported);
      case HeaterErr => HeaterAnswered(Unsupported);
      case ProbeOk =>
        if state == ProbeQueue { ResetTimer(ProbeTimer); SendCancelPrint(w); }
      case ProbeErr => ProbeBlocked(w);
      case CancelOk =>
        if state == SentCancel { ResetTimer(CancelTimer); CompleteAbort(); }
      case CancelErr =>
        if state == SentCancel {
          if w.escalates { CancelBlocked(w); } else { CompleteAbort(); }
        }
      case EstopAnswered =>
        if state == SentEstop {
          state := SentRestart;
          sent := sent + [FirmwareRestart];
          ArmTimer(RestartTimer);
        }
      case RecoveryVerified => RestartAnswered(w, true);
      case RecoveryIssued => RestartAnswered(w, false);
    }

    method TimerFired(w: World, id: nat)
      modifies this
      ensures View() == Step(old(View()), w, TimerFires(id))
    {
      if id !in armed { return; }
      var kind := armed[id].kind;
      armed := armed - {id};
      held := held - {kind};
      match kind
      case HeaterTimer =>
        if state == TryHeaterInterrupt { support := Unsupported; BeginProbe(); }
      case ProbeTimer => ProbeBlocked(w);
      case CancelTimer => CancelBlocked(w);
      case RestartTimer => CompleteAbort();
      case ReconnectTimer => CompleteAbort();
    }
  }
}
