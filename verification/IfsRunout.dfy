/** The unattended-runout detector of the AD5X IFS backend.

    The toolhead switch going from present to absent while nothing moves filament arms a
    candidate; it becomes a fault if the print is paused, nothing is under way and the head has
    stayed empty for the confirm delay. Readings, dispatches, evaluations and everything the
    rest of the backend does to the action may come in any order. */
module IfsRunout {
  import opened Wrappers

  datatype Action = Idle | Working | Error

  /** `waits` is whether the printer may switch to a backup spool by itself. */
  datatype Ifs = Ifs(
    seen: bool, present: bool, emptySince: Option<int>, lastDispatch: int,
    active: bool, flag: bool, action: Action, phase: bool, paused: bool, waits: bool)

  datatype Event =
    | Reading(now: int, detected: bool)
    | Dispatch(now: int)
    | Evaluate(now: int)
    | Recover
    | SetAction(action: Action, phase: bool)
    | SetPaused(paused: bool)
    | SetWaits(waits: bool)

  const SUPPRESSION := 30

  function ConfirmDelay(waits: bool): int { if waits then 180 else 30 }

  predicate Quiet(s: Ifs) { !s.phase && s.action == Idle }

  function ClearRunout(s: Ifs): Ifs {
    s.(emptySince := None, active := false, flag := false,
       action := if s.active && s.action == Error then Idle else s.action)
  }

  function NoteReading(s: Ifs, now: int, detected: bool): Ifs {
    if detected then
      (if s.active then ClearRunout(s) else s.(emptySince := None)).(seen := true, present := true)
    else
      s.(emptySince := if s.seen && s.present && Quiet(s) then Some(now) else s.emptySince,
         seen := true, present := false)
  }

  predicate Suppressed(s: Ifs, now: int) { now - s.lastDispatch < SUPPRESSION }

  predicate Confirmed(s: Ifs, now: int) {
    s.emptySince.Some? && now - s.emptySince.value >= ConfirmDelay(s.waits)
  }

  function Evaluated(s: Ifs, now: int): Ifs {
    if s.active then (if s.paused then s else ClearRunout(s))
    else if s.emptySince.None? then s
    else if !s.seen || s.present then s.(emptySince := None)
    else if !s.paused || !Quiet(s) || Suppressed(s, now) || !Confirmed(s, now) then s
    else s.(active := true, flag := true, action := Error)
  }

  function Next(s: Ifs, e: Event): Ifs {
    match e
    case Reading(now, detected) => NoteReading(s, now, detected)
    case Dispatch(now) => s.(lastDispatch := now, emptySince := None)
    case Evaluate(now) => Evaluated(s, now)
    case Recover => ClearRunout(s).(action := Idle, phase := false)
    case SetAction(action, phase) => s.(action := action, phase := phase)
    case SetPaused(paused) => s.(paused := paused)
    case SetWaits(waits) => s.(waits := waits)
  }

  const BOOT: Ifs := Ifs(false, false, None, 0, false, false, Idle, false, false, true)

  /** The state after the events so far. */
  function Run(es: seq<Event>): Ifs
    decreases |es|
  {
    if es == [] then BOOT else Next(Run(es[..|es| - 1]), es[|es| - 1])
  }

  predicate Timed(e: Event) { e.Reading? || e.Dispatch? || e.Evaluate? }

  /** The clock starts at zero and never goes back. */
  predicate Clocked(es: seq<Event>) {
    && (forall i :: 0 <= i < |es| && Timed(es[i]) ==> es[i].now >= 0)
    && (forall i, j :: 0 <= i < j < |es| && Timed(es[i]) && Timed(es[j]) ==> es[i].now <= es[j].now)
  }

  // ---------------------------------------------------------------- what was last said

  /** The last event that satisfies `p`, or -1. */
  function LastOf(es: seq<Event>, p: Event -> bool): (i: int)
    ensures -1 <= i < |es| && (i >= 0 ==> p(es[i])) && forall j :: i < j < |es| ==> !p(es[j])
    decreases |es|
  {
    if es == [] then -1 else if p(es[|es| - 1]) then |es| - 1 else LastOf(es[..|es| - 1], p)
  }

  lemma EvaluationKeepsSettings(s: Ifs, now: int)
    ensures var n := Evaluated(s, now);
            n.seen == s.seen && n.present == s.present && n.paused == s.paused && n.waits == s.waits
  {
  }

  lemma SettingsStep(s: Ifs, e: Event)
    ensures var n := Next(s, e);
            && n.seen == (s.seen || e.Reading?) && n.present == (if e.Reading? then e.detected else s.present)
            && n.paused == (if e.SetPaused? then e.paused else s.paused)
            && n.waits == (if e.SetWaits? then e.waits else s.waits)
  {
    match e
    case Evaluate(now) => EvaluationKeepsSettings(s, now);
    case _ =>
  }

  /** The head is what the last reading said, seen once there was one; and whether the print is
      paused, or may switch to a backup spool, is what was last said of it. */
  lemma {:induction false} LastSaidStands(es: seq<Event>)
    ensures var s := Run(es);
            var r := LastOf(es, (e: Event) => e.Reading?);
            var p := LastOf(es, (e: Event) => e.SetPaused?);
            var w := LastOf(es, (e: Event) => e.SetWaits?);
            && (s.seen <==> r >= 0) && s.present == (r >= 0 && es[r].detected)
            && s.paused == (p >= 0 && es[p].paused) && s.waits == (w < 0 || es[w].waits)
    decreases |es|
  {
    if es != [] {
      LastSaidStands(es[..|es| - 1]);
      SettingsStep(Run(es[..|es| - 1]), es[|es| - 1]);
    }
  }

  lemma EvaluationAction(s: Ifs, now: int)
    ensures var n := Evaluated(s, now);
            && n.action == (if !s.active && n.active then Error
                            else if s.active && !n.active && s.action == Error then Idle
                            else s.action)
            && n.phase == s.phase
  {
  }

  lemma ActionStep(s: Ifs, e: Event)
    ensures var n := Next(s, e);
            && n.action == (if e.SetAction? then e.action
                            else if e == Recover then Idle
                            else if !s.active && n.active then Error
                            else if s.active && !n.active && s.action == Error then Idle
                            else s.action)
            && n.phase == (if e.SetAction? then e.phase else s.phase && e != Recover)
  {
    match e
    case Evaluate(now) => EvaluationAction(s, now);
    case _ =>
  }

  /** Over every step the published action is what the rest of the backend sets; a recovery makes it
      Idle, a fault that is raised Error, and one that ends takes back only its own Error. */
  lemma ActionFollowsTheFault(es: seq<Event>, e: Event)
    ensures var s, n := Run(es), Run(es + [e]);
            && n.action == (if e.SetAction? then e.action
                            else if e == Recover then Idle
                            else if !s.active && n.active then Error
                            else if s.active && !n.active && s.action == Error then Idle
                            else s.action)
            && n.phase == (if e.SetAction? then e.phase else s.phase && e != Recover)
  {
    assert (es + [e])[..|es|] == es;
    ActionStep(Run(es), e);
  }

  // ---------------------------------------------------------------- where a candidate comes from

  /** Explains an empty head away, or ends the episode. */
  predicate Disarms(e: Event) { (e.Reading? && e.detected) || e.Dispatch? || e == Recover }

  /** Event `i` was the switch going from present to absent, seen, with nothing under way. */
  predicate EdgeAt(es: seq<Event>, i: int) {
    && 0 <= i < |es| && es[i].Reading? && !es[i].detected
    && Run(es[..i]).seen && Run(es[..i]).present && Run(es[..i]).action == Idle && !Run(es[..i]).phase
  }

  predicate ArmedBy(es: seq<Event>, i: int) {
    EdgeAt(es, i) && (forall k :: i < k < |es| ==> !Disarms(es[k]) && !EndsFault(es, k))
  }

  /** Event `k` ended a fault by finding the print no longer paused. */
  predicate EndsFault(es: seq<Event>, k: int) {
    0 <= k < |es| && es[k].Evaluate? && Run(es[..k]).active && !Run(es[..k]).paused
  }

  predicate SwitchInv(s: Ifs) {
    && (s.emptySince.Some? ==> s.seen && !s.present)
    && (s.emptySince.Some? ==> s.emptySince.value >= s.lastDispatch)
    && (s.active ==> s.flag) && (!s.active ==> !s.flag)
  }

  lemma Prefix(es: seq<Event>, n: nat, i: nat)
    requires i <= n <= |es|
    ensures es[..n][..i] == es[..i]
  {
  }

  lemma StepKeepsSwitch(s: Ifs, e: Event)
    requires SwitchInv(s) && (Timed(e) ==> s.lastDispatch <= e.now)
    ensures SwitchInv(Next(s, e))
    ensures Next(s, e).lastDispatch == if e.Dispatch? then e.now else s.lastDispatch
  {
  }

  lemma {:induction false} RunKeepsSwitch(es: seq<Event>, t: int)
    requires Clocked(es) && t >= 0 && forall i :: 0 <= i < |es| && Timed(es[i]) ==> es[i].now <= t
    ensures SwitchInv(Run(es)) && Run(es).lastDispatch <= t
    decreases |es|
  {
    if es != [] {
      var n := |es| - 1;
      assert Clocked(es[..n]);
      RunKeepsSwitch(es[..n], if Timed(es[n]) then es[n].now else t);
      StepKeepsSwitch(Run(es[..n]), es[n]);
    }
  }

  function Latest(es: seq<Event>): (t: int)
    requires Clocked(es)
    ensures t >= 0 && forall i :: 0 <= i < |es| && Timed(es[i]) ==> es[i].now <= t
    decreases |es|
  {
    if es == [] then 0
    else if Timed(es[|es| - 1]) then es[|es| - 1].now
    else Latest(es[..|es| - 1])
  }

  lemma SwitchHolds(es: seq<Event>)
    requires Clocked(es)
    ensures SwitchInv(Run(es))
  {
    RunKeepsSwitch(es, Latest(es));
  }

  lemma ArmedLater(es: seq<Event>, i: int)
    requires es != []
    ensures var n := |es| - 1;
            ArmedBy(es, i) <==>
            (if i == n then EdgeAt(es, n) else ArmedBy(es[..n], i) && !Disarms(es[n]) && !EndsFault(es, n))
  {
    var n := |es| - 1;
    if 0 <= i < n {
      Prefix(es, n, i);
      assert EdgeAt(es[..n], i) <==> EdgeAt(es, i);
      forall k | i < k < n ensures es[..n][k] == es[k] && (EndsFault(es[..n], k) <==> EndsFault(es, k)) {
        Prefix(es, n, k);
      }
    }
  }

  /** A candidate stands exactly if some edge armed it and nothing since explained it away. */
  lemma {:induction false} CandidateIsAnEdge(es: seq<Event>, i: int)
    requires Clocked(es)
    ensures ArmedBy(es, i) ==> Run(es).emptySince == Some(es[i].now)
    decreases |es|
  {
    if es != [] && ArmedBy(es, i) {
      var n := |es| - 1;
      assert Clocked(es[..n]);
      ArmedLater(es, i);
      SwitchHolds(es[..n]);
      if i < n { CandidateIsAnEdge(es[..n], i); }
    }
  }

  /** A candidate standing after a step stood before it, or the step was an edge. */
  lemma StepArms(s: Ifs, e: Event)
    requires SwitchInv(s) && Next(s, e).emptySince.Some?
    ensures || (e.Reading? && !e.detected && s.seen && s.present && Quiet(s) && Next(s, e).emptySince == Some(e.now))
            || (s.emptySince == Next(s, e).emptySince && !Disarms(e) && !(e.Evaluate? && s.active && !s.paused))
  {
  }

  lemma {:induction false} CandidateHasAnEdge(es: seq<Event>) returns (i: int)
    requires Clocked(es) && Run(es).emptySince.Some?
    ensures ArmedBy(es, i) && Run(es).emptySince == Some(es[i].now)
    decreases |es|
  {
    var n := |es| - 1;
    assert Clocked(es[..n]);
    SwitchHolds(es[..n]);
    StepArms(Run(es[..n]), es[n]);
    if EdgeAt(es, n) {
      i := n;
    } else {
      i := CandidateHasAnEdge(es[..n]);
    }
    ArmedLater(es, i);
  }

  // ---------------------------------------------------------------- where a fault comes from

  /** Event `j` raised the fault armed at event `i`. */
  predicate RaisedAt(es: seq<Event>, i: int, j: int) {
    && 0 <= i < j < |es| && es[j].Evaluate? && ArmedBy(es[..j], i)
    && Run(es[..j]).paused && Run(es[..j]).action == Idle && !Run(es[..j]).phase && !Run(es[..j]).active
    && es[j].now - es[i].now >= if Run(es[..j]).waits then 180 else 30
  }

  /** What ends a fault: filament back at the switch, a recovery, or a print not paused. */
  predicate Ends(es: seq<Event>, k: int) {
    0 <= k < |es| && ((es[k].Reading? && es[k].detected) || es[k] == Recover || EndsFault(es, k))
  }

  predicate Standing(es: seq<Event>, i: int, j: int) {
    RaisedAt(es, i, j) && forall k :: j < k < |es| ==> !Ends(es, k)
  }

  lemma StandingLater(es: seq<Event>, i: int, j: int)
    requires es != []
    ensures var n := |es| - 1;
            Standing(es, i, j) <==>
            (if j == n then RaisedAt(es, i, n) else Standing(es[..n], i, j) && !Ends(es, n))
  {
    var n := |es| - 1;
    if 0 <= i < j < n {
      Prefix(es, n, j);
      Prefix(es, n, i);
      assert RaisedAt(es[..n], i, j) <==> RaisedAt(es, i, j);
      forall k | j < k < n ensures es[..n][k] == es[k] && (Ends(es[..n], k) <==> Ends(es, k)) { Prefix(es, n, k); }
    }
  }

  /** The dispatch guard never decides anything: a candidate is always newer than the last
      dispatch, and the shortest confirm delay is as long as the guard's window. */
  lemma SuppressionIsIdle(es: seq<Event>, now: int)
    requires Clocked(es)
    ensures Confirmed(Run(es), now) ==> !Suppressed(Run(es), now)
  {
    SwitchHolds(es);
  }

  lemma RaisesExactly(es: seq<Event>, i: int)
    requires Clocked(es) && es != [] && es[|es| - 1].Evaluate? && ArmedBy(es[..|es| - 1], i)
    requires !Run(es[..|es| - 1]).active
    ensures Run(es).active <==> RaisedAt(es, i, |es| - 1)
  {
    var n := |es| - 1;
    assert Clocked(es[..n]);
    CandidateIsAnEdge(es[..n], i);
    SwitchHolds(es[..n]);
    SuppressionIsIdle(es[..n], es[n].now);
  }

  lemma ActiveStays(s: Ifs, e: Event)
    requires s.active && !(e.Reading? && e.detected) && e != Recover && !(e.Evaluate? && !s.paused)
    ensures Next(s, e).active
  {
  }

  lemma {:induction false} FaultStands(es: seq<Event>, i: int, j: int)
    requires Clocked(es) && Standing(es, i, j)
    ensures Run(es).active
    decreases |es|
  {
    var n := |es| - 1;
    assert Clocked(es[..n]);
    StandingLater(es, i, j);
    if j == n {
      RaisesExactly(es, i);
    } else {
      FaultStands(es[..n], i, j);
      ActiveStays(Run(es[..n]), es[n]);
    }
  }

  /** A fault standing after a step stood before it, or the step was an evaluation that found
      a candidate. */
  lemma StepRaises(s: Ifs, e: Event)
    requires Next(s, e).active
    ensures if s.active then !(e.Reading? && e.detected) && e != Recover && (e.Evaluate? ==> s.paused)
            else e.Evaluate? && s.emptySince.Some?
  {
  }

  lemma {:induction false} FaultWasRaised(es: seq<Event>) returns (i: int, j: int)
    requires Clocked(es) && Run(es).active
    ensures Standing(es, i, j)
    decreases |es|
  {
    var n := |es| - 1;
    assert Clocked(es[..n]);
    StepRaises(Run(es[..n]), es[n]);
    if Run(es[..n]).active {
      i, j := FaultWasRaised(es[..n]);
    } else {
      j := n;
      i := CandidateHasAnEdge(es[..n]);
      RaisesExactly(es, i);
    }
    StandingLater(es, i, j);
  }

  /** The fault is shown exactly if it was raised on a seen present-to-absent edge with nothing
      under way, with no filament, dispatch or recovery between, at least the confirm delay
      later, on a paused print with nothing under way, and nothing has ended it since. */
  lemma FaultExactly(es: seq<Event>)
    requires Clocked(es)
    ensures Run(es).active <==> exists i, j :: Standing(es, i, j)
    ensures Run(es).flag == Run(es).active
  {
    SwitchHolds(es);
    if Run(es).active {
      var i, j := FaultWasRaised(es);
      assert Standing(es, i, j);
    }
    if i, j :| Standing(es, i, j) { FaultStands(es, i, j); }
  }

  lemma StepSees(s: Ifs, e: Event)
    requires Next(s, e).present
    ensures s.present || (e.Reading? && e.detected)
  {
  }

  lemma {:induction false} FilamentWasSeen(es: seq<Event>) returns (k: int)
    requires Run(es).present
    ensures 0 <= k < |es| && es[k].Reading? && es[k].detected
    decreases |es|
  {
    var n := |es| - 1;
    StepSees(Run(es[..n]), es[n]);
    if Run(es[..n]).present { k := FilamentWasSeen(es[..n]); } else { k := n; }
  }

  /** A printer that starts with an empty head reports nothing until filament was seen there. */
  lemma FaultNeedsFilamentFirst(es: seq<Event>)
    requires Clocked(es) && Run(es).active
    ensures exists k :: 0 <= k < |es| && es[k].Reading? && es[k].detected
  {
    var i, j := FaultWasRaised(es);
    Prefix(es, j, i);
    var k := FilamentWasSeen(es[..i]);
    assert es[k].Reading? && es[k].detected;
  }

  /** An empty window that opens one second after a dispatch is reported all the same, thirty
      seconds later. */
  lemma WindowAfterADispatchIsReported()
    ensures var es := [Reading(0, true), SetPaused(true), SetWaits(false),
                       Dispatch(100), Reading(101, false), Evaluate(131)];
            Clocked(es) && es[4].now - es[3].now < SUPPRESSION && Run(es).active
  {
    var es := [Reading(0, true), SetPaused(true), SetWaits(false), Dispatch(100), Reading(101, false), Evaluate(131)];
    var s1 := Next(BOOT, es[0]);
    var s3 := Next(Next(s1, es[1]), es[2]);
    var s5 := Next(Next(s3, es[3]), es[4]);
    assert es[..0] == [] && Run(es[..0]) == BOOT;
    assert es[..1][..0] == es[..0] && Run(es[..1]) == s1;
    assert es[..2][..1] == es[..1] && es[..3][..2] == es[..2] && Run(es[..2]) == Next(s1, es[1]) && Run(es[..3]) == s3;
    assert es[..4][..3] == es[..3] && es[..5][..4] == es[..4] && Run(es[..4]) == Next(s3, es[3]) && Run(es[..5]) == s5;
    assert es[..5] == es[..|es| - 1];
    assert s5.emptySince == Some(101);
  }

  // ---------------------------------------------------------------- the backend

  class Detector {
    var seen: bool
    var present: bool
    var emptySince: Option<int>
    var lastDispatch: int
    var active: bool
    var flag: bool
    var action: Action
    var phase: bool
    var paused: bool
    var waits: bool

    ghost function View(): Ifs
      reads this
    { Ifs(seen, present, emptySince, lastDispatch, active, flag, action, phase, paused, waits) }

    constructor ()
      ensures View() == BOOT
    {
      seen, present, emptySince, lastDispatch, active, flag := false, false, None, 0, false, false;
      action, phase, paused, waits := Idle, false, false, true;
    }

    method ClearFault()
      modifies this
      ensures View() == ClearRunout(old(View()))
    {
      emptySince := None;
      flag := false;
      if !active { return; }
      active := false;
      if action == Error { action := Idle; }
    }

    method NoteHeadSwitchReading(now: int, detected: bool)
      modifies this
      ensures View() == NoteReading(old(View()), now, detected)
    {
      var wasSeen, wasPresent := seen, present;
      seen := true;
      present := detected;
      if detected {
        emptySince := None;
        if active { ClearFault(); }
        return;
      }
      if !wasSeen || !wasPresent { return; }
      if phase || action != Idle { return; }
      emptySince := Some(now);
    }

    method NoteFilamentOpDispatch(now: int)
      modifies `lastDispatch, `emptySince
      ensures View() == Next(old(View()), Dispatch(now))
    {
      lastDispatch := now;
      emptySince := None;
    }

    method EvaluateRunout(now: int) returns (changed: bool)
      modifies this
      ensures View() == Evaluated(old(View()), now)
      ensures changed <==> active != old(active)
    {
      if active {
        if paused { return false; }
        ClearFault();
        return true;
      }
      if emptySince.None? { return false; }
      if !seen || present {
        emptySince := None;
        return false;
      }
      if !paused || phase || action != Idle { return false; }
      if now - lastDispatch < SUPPRESSION { return false; }
      if now - emptySince.value < ConfirmDelay(waits) { return false; }
      active := true;
      flag := true;
      action := Error;
      return true;
    }
  }
}
