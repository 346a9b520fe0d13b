/** Serialized lane ejects on AFC: one LANE_UNLOAD at a time, the rest in a queue.

    A request either claims the idle line at once or waits behind the one in flight; the
    completion of a dispatch, good or bad, hands the line to the next. Claiming happens under
    the queue's mutex and dispatching outside it, so the model keeps them apart and lets any
    other step come between. Requests are numbered so that the fate of each can be told. */
module AfcEject {
  datatype Request = Request(id: nat, lane: string)

  /** `claimed` holds the line without having been dispatched yet. The four ends of a request:
      `dispatched`, `unsent` (no connection to dispatch on), `merged` (a repeat tap on the lane
      at the back of the queue) and `discarded` (by a cancel or a fault clear). */
  datatype Line = Line(
    inFlight: bool, pending: seq<Request>, claimed: seq<Request>,
    dispatched: seq<Request>, completed: nat, unsent: seq<Request>,
    merged: seq<Request>, discarded: seq<Request>, issued: nat)

  datatype Step = Ask(lane: string) | Dispatch(connected: bool) | Complete | Discard

  function Asked(q: Line, lane: string): Line {
    var r := Request(q.issued, lane);
    var n := q.(issued := q.issued + 1);
    if !q.inFlight then n.(inFlight := true, claimed := q.claimed + [r])
    else if q.pending == [] || q.pending[|q.pending| - 1].lane != lane then n.(pending := q.pending + [r])
    else n.(merged := q.merged + [r])
  }

  /** The line is handed on, or falls idle. */
  function Done(q: Line): Line {
    if q.pending == [] then q.(inFlight := false)
    else q.(claimed := q.claimed + [q.pending[0]], pending := q.pending[1..])
  }

  function Dispatched(q: Line, connected: bool): Line {
    if q.claimed == [] then q
    else if connected then q.(claimed := q.claimed[1..], dispatched := q.dispatched + [q.claimed[0]])
    else Done(q.(claimed := q.claimed[1..], unsent := q.unsent + [q.claimed[0]]))
  }

  /** A completion belongs to a dispatch not completed yet. */
  function Completed(q: Line): Line {
    if q.completed >= |q.dispatched| then q else Done(q.(completed := q.completed + 1))
  }

  function Discarded(q: Line): Line { q.(pending := [], discarded := q.discarded + q.pending) }

  function Next(q: Line, s: Step): Line {
    match s
    case Ask(lane) => Asked(q, lane)
    case Dispatch(connected) => Dispatched(q, connected)
    case Complete => Completed(q)
    case Discard => Discarded(q)
  }

  function Run(q: Line, steps: seq<Step>): Line
    decreases |steps|
  {
    if steps == [] then q else Run(Next(q, steps[0]), steps[1..])
  }

  const IDLE: Line := Line(false, [], [], [], 0, [], [], [], 0)

  // ---------------------------------------------------------------- one at a time

  /** Exactly one request holds the line while it is in flight, and none otherwise. */
  predicate LineInv(q: Line) {
    && q.completed <= |q.dispatched|
    && |q.claimed| + (|q.dispatched| - q.completed) == (if q.inFlight then 1 else 0)
    && (!q.inFlight ==> q.pending == [])
  }

  lemma {:induction false} RunKeepsLine(q: Line, steps: seq<Step>)
    requires LineInv(q)
    ensures LineInv(Run(q, steps))
    decreases |steps|
  {
    if steps != [] { RunKeepsLine(Next(q, steps[0]), steps[1..]); }
  }

  /** At most one LANE_UNLOAD is under way in any interleaving, completions inside the dispatch
      included, and an idle line has nothing waiting. */
  lemma OneAtATime(steps: seq<Step>)
    ensures var q := Run(IDLE, steps);
            && 0 <= |q.dispatched| - q.completed <= 1
            && (q.inFlight <==> |q.dispatched| > q.completed || q.claimed != [])
            && (!q.inFlight ==> q.pending == [])
  {
    RunKeepsLine(IDLE, steps);
  }

  // ---------------------------------------------------------------- every request once, in order

  /** Everything that took, or will take, the line. */
  function Served(q: Line): seq<Request> { q.dispatched + q.claimed + q.pending }

  /** How often request number `id` is in `rs`. */
  function Times(id: nat, rs: seq<Request>): nat
    decreases |rs|
  {
    if rs == [] then 0 else (if rs[0].id == id then 1 else 0) + Times(id, rs[1..])
  }

  lemma {:induction false} TimesAppend(id: nat, a: seq<Request>, b: seq<Request>)
    ensures Times(id, a + b) == Times(id, a) + Times(id, b)
    decreases |a|
  {
    if a == [] {
      assert a + b == b;
    } else {
      assert (a + b)[1..] == a[1..] + b;
      TimesAppend(id, a[1..], b);
    }
  }

  lemma TimesPush(id: nat, a: seq<Request>, r: Request)
    ensures Times(id, a + [r]) == Times(id, a) + (if r.id == id then 1 else 0)
  {
    TimesAppend(id, a, [r]);
    assert [r][1..] == [];
  }

  function Places(id: nat, q: Line): nat {
    Times(id, q.pending) + Times(id, q.claimed) + Times(id, q.dispatched)
    + Times(id, q.unsent) + Times(id, q.merged) + Times(id, q.discarded)
  }

  lemma DoneKeepsPlaces(id: nat, q: Line)
    ensures Places(id, Done(q)) == Places(id, q)
  {
    if q.pending != [] { TimesPush(id, q.claimed, q.pending[0]); }
  }

  lemma AskKeepsPlaces(id: nat, q: Line, lane: string)
    ensures Places(id, Asked(q, lane)) == Places(id, q) + (if id == q.issued then 1 else 0)
  {
    var r := Request(q.issued, lane);
    if !q.inFlight {
      TimesPush(id, q.claimed, r);
    } else if q.pending == [] || q.pending[|q.pending| - 1].lane != lane {
      TimesPush(id, q.pending, r);
    } else {
      TimesPush(id, q.merged, r);
    }
  }

  lemma DispatchKeepsPlaces(id: nat, q: Line, connected: bool)
    ensures Places(id, Dispatched(q, connected)) == Places(id, q)
  {
    if q.claimed != [] {
      TimesPush(id, q.dispatched, q.claimed[0]);
      TimesPush(id, q.unsent, q.claimed[0]);
      DoneKeepsPlaces(id, q.(claimed := q.claimed[1..], unsent := q.unsent + [q.claimed[0]]));
    }
  }

  lemma CompleteKeepsPlaces(id: nat, q: Line)
    ensures Places(id, Completed(q)) == Places(id, q)
  {
    var n := q.(completed := q.completed + 1);
    DoneKeepsPlaces(id, n);
    assert Places(id, n) == Places(id, q);
  }

  lemma DiscardKeepsPlaces(id: nat, q: Line)
    ensures Places(id, Discarded(q)) == Places(id, q)
  {
    TimesAppend(id, q.discarded, q.pending);
  }

  lemma OnlyAskingIssues(q: Line, s: Step)
    ensures Next(q, s).issued == if s.Ask? then q.issued + 1 else q.issued
  {
  }

  lemma StepKeepsPlaces(id: nat, q: Line, s: Step)
    requires Places(id, q) == if id < q.issued then 1 else 0
    ensures Places(id, Next(q, s)) == if id < Next(q, s).issued then 1 else 0
  {
    OnlyAskingIssues(q, s);
    match s
    case Ask(lane) => AskKeepsPlaces(id, q, lane);
    case Dispatch(connected) => DispatchKeepsPlaces(id, q, connected);
    case Complete => CompleteKeepsPlaces(id, q);
    case Discard => DiscardKeepsPlaces(id, q);
  }

  lemma {:induction false} RunKeepsPlaces(id: nat, q: Line, steps: seq<Step>)
    requires Places(id, q) == if id < q.issued then 1 else 0
    ensures Places(id, Run(q, steps)) == if id < Run(q, steps).issued then 1 else 0
    decreases |steps|
  {
    if steps != [] {
      StepKeepsPlaces(id, q, steps[0]);
      RunKeepsPlaces(id, Next(q, steps[0]), steps[1..]);
    }
  }

  /** Each request is in exactly one place, exactly once: waiting, holding the line, dispatched,
      unsent, merged with the one before it, or discarded. */
  lemma EveryRequestHasOneFate(steps: seq<Step>, id: nat)
    ensures var q := Run(IDLE, steps);
            Times(id, q.pending) + Times(id, q.claimed) + Times(id, q.dispatched)
            + Times(id, q.unsent) + Times(id, q.merged) + Times(id, q.discarded)
            == if id < q.issued then 1 else 0
  {
    RunKeepsPlaces(id, IDLE, steps);
  }

  predicate InOrder(rs: seq<Request>, below: nat) {
    && (forall i, j :: 0 <= i < j < |rs| ==> rs[i].id < rs[j].id)
    && (forall i :: 0 <= i < |rs| ==> rs[i].id < below)
  }

  lemma AskKeepsOrder(q: Line, lane: string)
    requires LineInv(q) && InOrder(Served(q), q.issued)
    ensures InOrder(Served(Asked(q, lane)), q.issued + 1)
  {
    var s, n := Served(q), Served(Asked(q, lane));
    assert n == s || n == s + [Request(q.issued, lane)];
  }

  lemma OrderWithoutOne(rs: seq<Request>, d: nat, below: nat)
    requires d < |rs| && InOrder(rs, below)
    ensures InOrder(rs[..d] + rs[d + 1..], below)
  {
  }

  lemma DispatchKeepsOrder(q: Line, connected: bool)
    requires LineInv(q) && InOrder(Served(q), q.issued)
    ensures InOrder(Served(Dispatched(q, connected)), q.issued)
  {
    var s, n, d := Served(q), Served(Dispatched(q, connected)), |q.dispatched|;
    if q.claimed == [] || connected {
      assert n == s;
    } else {
      assert n == s[..d] + s[d + 1..];
      OrderWithoutOne(s, d, q.issued);
    }
  }

  lemma CompleteServesTheSame(q: Line)
    ensures Served(Completed(q)) == Served(q) && Completed(q).issued == q.issued
  {
    if q.completed < |q.dispatched| && q.pending != [] { assert q.pending == [q.pending[0]] + q.pending[1..]; }
  }

  lemma DiscardKeepsOrder(q: Line)
    requires InOrder(Served(q), q.issued)
    ensures InOrder(Served(Discarded(q)), q.issued)
  {
    assert Served(Discarded(q)) == Served(q)[..|q.dispatched| + |q.claimed|];
  }

  lemma StepKeepsOrder(q: Line, s: Step)
    requires LineInv(q) && InOrder(Served(q), q.issued)
    ensures InOrder(Served(Next(q, s)), Next(q, s).issued)
  {
    OnlyAskingIssues(q, s);
    match s
    case Ask(lane) => AskKeepsOrder(q, lane);
    case Dispatch(connected) => DispatchKeepsOrder(q, connected);
    case Complete => CompleteServesTheSame(q);
    case Discard => DiscardKeepsOrder(q);
  }

  lemma {:induction false} RunKeepsOrder(q: Line, steps: seq<Step>)
    requires LineInv(q) && InOrder(Served(q), q.issued)
    ensures InOrder(Served(Run(q, steps)), Run(q, steps).issued)
    decreases |steps|
  {
    if steps != [] {
      StepKeepsOrder(q, steps[0]);
      RunKeepsOrder(Next(q, steps[0]), steps[1..]);
    }
  }

  /** Requests are dispatched in the order they were made, and those waiting come after. */
  lemma FirstAskedFirstServed(steps: seq<Step>)
    ensures var q := Run(IDLE, steps); InOrder(Served(q), q.issued)
  {
    RunKeepsOrder(IDLE, steps);
  }

  // ---------------------------------------------------------------- progress

  /** The next thing the line itself does. */
  function Advance(q: Line): Line { Next(q, if q.claimed != [] then Dispatch(true) else Complete) }

  function Settle(q: Line, n: nat): Line
    decreases n
  {
    if n == 0 then q else Settle(Advance(q), n - 1)
  }

  function StepsLeft(q: Line): nat {
    2 * |q.pending| + (if q.claimed != [] then 2 else if q.inFlight then 1 else 0)
  }

  /** If dispatches complete, everything accepted is dispatched, in order, and the line is idle. */
  lemma {:induction false} EverythingIsServed(q: Line, n: nat)
    requires LineInv(q) && n == StepsLeft(q)
    ensures var d := Settle(q, n);
            !d.inFlight && d.pending == [] && d.dispatched == Served(q) && d.completed == |d.dispatched|
    decreases n
  {
    if n > 0 {
      var m := Advance(q);
      assert Served(m) == Served(q) && StepsLeft(m) == n - 1 && LineInv(m);
      EverythingIsServed(m, n - 1);
    }
  }

  // ---------------------------------------------------------------- which requests are merged

  /** The lanes asked for, in order. */
  function Asks(steps: seq<Step>): seq<string>
    decreases |steps|
  {
    if steps == [] then [] else (if steps[0].Ask? then [steps[0].lane] else []) + Asks(steps[1..])
  }

  /** The lines the run passes through, the one it starts with first. */
  function Lines(q: Line, steps: seq<Step>): (ls: seq<Line>)
    ensures |ls| == |steps| + 1 && ls[0] == q
    decreases |steps|
  {
    [q] + if steps == [] then [] else Lines(Next(q, steps[0]), steps[1..])
  }

  /** Step `s` makes request number `id`, and the last one waiting is for the same lane. */
  predicate RepeatTap(q: Line, s: Step, id: nat) {
    s.Ask? && q.issued == id && q.pending != [] && q.pending[|q.pending| - 1].lane == s.lane
  }

  predicate IsRepeat(ls: seq<Line>, steps: seq<Step>, id: nat)
    requires |ls| == |steps| + 1
  {
    exists k :: 0 <= k < |steps| && RepeatTap(ls[k], steps[k], id)
  }

  predicate Holds(rs: seq<Request>, id: nat) { exists r :: r in rs && r.id == id }

  lemma MergesOne(q: Line, s: Step, id: nat)
    requires LineInv(q)
    ensures Holds(Next(q, s).merged, id) <==> Holds(q.merged, id) || RepeatTap(q, s, id)
  {
    if s.Ask? {
      var r := Request(q.issued, s.lane);
      if r in Next(q, s).merged { assert r.id == q.issued; }
      assert forall x :: x in q.merged + [r] <==> x in q.merged || x == r;
    }
  }

  lemma IsRepeatTail(ls: seq<Line>, steps: seq<Step>, id: nat)
    requires |ls| == |steps| + 1 && steps != []
    ensures IsRepeat(ls, steps, id) <==> RepeatTap(ls[0], steps[0], id) || IsRepeat(ls[1..], steps[1..], id)
  {
    var t, rest := ls[1..], steps[1..];
    if k :| 0 <= k < |rest| && RepeatTap(t[k], rest[k], id) { assert RepeatTap(ls[k + 1], steps[k + 1], id); }
    if k :| 0 <= k < |steps| && RepeatTap(ls[k], steps[k], id) {
      if k > 0 { assert RepeatTap(t[k - 1], rest[k - 1], id); }
    }
  }

  lemma {:induction false} MergedFrom(q: Line, steps: seq<Step>, id: nat)
    requires LineInv(q)
    ensures Holds(Run(q, steps).merged, id) <==> Holds(q.merged, id) || IsRepeat(Lines(q, steps), steps, id)
    decreases |steps|
  {
    if steps != [] {
      MergesOne(q, steps[0], id);
      IsRepeatTail(Lines(q, steps), steps, id);
      MergedFrom(Next(q, steps[0]), steps[1..], id);
    }
  }

  /** Over any run, a request is merged exactly if the last one waiting when it was made was for
      the same lane; every other request is accepted. */
  lemma MergedExactly(steps: seq<Step>, id: nat)
    ensures Holds(Run(IDLE, steps).merged, id) <==> IsRepeat(Lines(IDLE, steps), steps, id)
  {
    MergedFrom(IDLE, steps, id);
  }

  // ---------------------------------------------------------------- nobody is forgotten

  /** The requests in the order they were made. */
  function Requests(asks: seq<string>): seq<Request> {
    seq(|asks|, i requires 0 <= i < |asks| => Request(i, asks[i]))
  }

  predicate NoRepeats(asks: seq<string>) { forall i :: 0 < i < |asks| ==> asks[i] != asks[i - 1] }

  /** Nothing is discarded, and every dispatch has a connection. */
  predicate Smooth(steps: seq<Step>) { forall s :: s in steps ==> !s.Discard? && (s.Dispatch? ==> s.connected) }

  lemma RequestsPush(asks: seq<string>, lane: string)
    ensures Requests(asks + [lane]) == Requests(asks) + [Request(|asks|, lane)]
  {
  }

  lemma SmoothStep(q: Line, s: Step, asks: seq<string>)
    requires LineInv(q) && q.issued == |asks| && Served(q) == Requests(asks)
    requires !s.Discard? && (s.Dispatch? ==> s.connected)
    requires s.Ask? && asks != [] ==> s.lane != asks[|asks| - 1]
    ensures var n, now := Next(q, s), asks + (if s.Ask? then [s.lane] else []);
            LineInv(n) && n.issued == |now| && Served(n) == Requests(now) && n.merged == q.merged
  {
    match s
    case Ask(lane) =>
      if q.pending != [] { assert q.pending[|q.pending| - 1] == Served(q)[|asks| - 1]; }
      RequestsPush(asks, lane);
      assert Served(Asked(q, lane)) == Served(q) + [Request(q.issued, lane)];
    case Dispatch(_) => assert Served(Dispatched(q, true)) == Served(q);
    case Complete => CompleteServesTheSame(q);
  }

  lemma {:induction false} SmoothRun(q: Line, steps: seq<Step>, asks: seq<string>)
    requires LineInv(q) && q.issued == |asks| && Served(q) == Requests(asks)
    requires Smooth(steps) && NoRepeats(asks + Asks(steps))
    ensures var n := Run(q, steps);
            LineInv(n) && Served(n) == Requests(asks + Asks(steps)) && n.merged == q.merged
    decreases |steps|
  {
    if steps == [] {
      assert asks + [] == asks;
    } else {
      var s, all := steps[0], asks + Asks(steps);
      var now := asks + (if s.Ask? then [s.lane] else []);
      assert now + Asks(steps[1..]) == all;
      if s.Ask? { assert all[|asks|] == s.lane && (asks != [] ==> all[|asks| - 1] == asks[|asks| - 1]); }
      assert s in steps && forall x :: x in steps[1..] ==> x in steps;
      SmoothStep(q, s, asks);
      SmoothRun(Next(q, s), steps[1..], now);
    }
  }

  /** A run that asks for no lane twice in a row merges nothing; and with a connection and nothing
      discarded, every request asked for is dispatched exactly once, in the order asked, when the
      dispatches complete. */
  lemma EveryAskIsDispatched(steps: seq<Step>)
    requires Smooth(steps) && NoRepeats(Asks(steps))
    ensures var q := Run(IDLE, steps); var d := Settle(q, StepsLeft(q));
            q.merged == [] && !d.inFlight && d.dispatched == Requests(Asks(steps))
  {
    assert [] + Asks(steps) == Asks(steps);
    SmoothRun(IDLE, steps, []);
    var q := Run(IDLE, steps);
    EverythingIsServed(q, StepsLeft(q));
  }

  // ---------------------------------------------------------------- discarding

  lemma {:induction false} DiscardedStay(q: Line, steps: seq<Step>, r: Request)
    requires r in q.discarded
    ensures r in Run(q, steps).discarded
    decreases |steps|
  {
    if steps != [] { DiscardedStay(Next(q, steps[0]), steps[1..], r); }
  }

  lemma {:induction false} TimesOfMember(rs: seq<Request>, r: Request)
    requires r in rs
    ensures Times(r.id, rs) > 0
    decreases |rs|
  {
    if rs[0] != r { TimesOfMember(rs[1..], r); }
  }

  lemma {:induction false} RunJoins(q: Line, before: seq<Step>, after: seq<Step>)
    ensures Run(q, before + after) == Run(Run(q, before), after)
    decreases |before|
  {
    if before == [] {
      assert before + after == after;
    } else {
      assert (before + after)[1..] == before[1..] + after;
      RunJoins(Next(q, before[0]), before[1..], after);
    }
  }

  /** A discard drops exactly what is waiting: none of it is ever dispatched, and the one that holds
      the line keeps it. */
  lemma DiscardDropsTheWaiting(before: seq<Step>, after: seq<Step>, r: Request)
    requires r in Run(IDLE, before).pending
    ensures r in Run(IDLE, before + [Discard] + after).discarded
    ensures r !in Run(IDLE, before + [Discard] + after).dispatched
    ensures var q, n := Run(IDLE, before), Run(IDLE, before + [Discard]);
            n.pending == [] && n.inFlight == q.inFlight && n.claimed == q.claimed
            && n.dispatched == q.dispatched && n.completed == q.completed
  {
    var q := Run(IDLE, before);
    RunJoins(IDLE, before, [Discard]);
    RunJoins(IDLE, before + [Discard], after);
    assert [Discard][1..] == [];
    assert Run(q, [Discard]) == Discarded(q);
    var n := Run(IDLE, before + [Discard] + after);
    DiscardedStay(Discarded(q), after, r);
    TimesOfMember(n.discarded, r);
    EveryRequestHasOneFate(before + [Discard] + after, r.id);
    if r in n.dispatched { TimesOfMember(n.dispatched, r); }
  }

  // ---------------------------------------------------------------- the backend

  /** What a claim turns into: one dispatch, or without a connection every request in turn. */
  function Pump(q: Line, connected: bool): Line
    decreases |q.claimed| + |q.pending|
  {
    if q.claimed == [] then q
    else if connected then Dispatched(q, true)
    else Pump(Dispatched(q, false), false)
  }

  /** Without a connection nothing is left holding the line, and nothing is left waiting. */
  lemma {:induction false} NoConnectionStrandsNobody(q: Line)
    requires LineInv(q) && q.claimed != []
    ensures var p := Pump(q, false);
            !p.inFlight && p.pending == [] && p.dispatched == q.dispatched
            && p.unsent == q.unsent + q.claimed + q.pending
    decreases |q.pending|
  {
    var n := Dispatched(q, false);
    assert LineInv(n) && q.claimed == [q.claimed[0]];
    if q.pending != [] {
      NoConnectionStrandsNobody(n);
      assert n.unsent + n.claimed + n.pending == q.unsent + q.claimed + q.pending;
    } else {
      assert n.claimed == [];
    }
  }

  class EjectQueue {
    const connected: bool
    var inFlight: bool
    var pending: seq<Request>
    var issued: nat
    ghost var claimed: seq<Request>
    ghost var dispatched: seq<Request>
    ghost var completed: nat
    ghost var unsent: seq<Request>
    ghost var merged: seq<Request>
    ghost var discarded: seq<Request>

    ghost function View(): Line
      reads this
    { Line(inFlight, pending, claimed, dispatched, completed, unsent, merged, discarded, issued) }

    constructor (connected: bool)
      ensures View() == IDLE && this.connected == connected
    {
      this.connected := connected;
      inFlight, pending, issued := false, [], 0;
      claimed, dispatched, completed, unsent, merged, discarded := [], [], 0, [], [], [];
    }

    method EnqueueLaneUnload(lane: string)
      requires LineInv(View()) && claimed == []
      modifies this
      ensures LineInv(View()) && claimed == []
      ensures View() == Pump(Asked(old(View()), lane), connected)
    {
      var r := Request(issued, lane);
      issued := issued + 1;
      if inFlight {
        if pending == [] || pending[|pending| - 1].lane != lane {
          pending := pending + [r];
        } else {
          merged := merged + [r];
        }
      } else {
        inFlight := true;
        claimed := claimed + [r];
        DispatchLaneUnload(r);
      }
    }

    /** The caller holds the line for `r`. */
    method DispatchLaneUnload(r: Request)
      requires LineInv(View()) && claimed == [r]
      modifies this
      ensures LineInv(View()) && claimed == []
      ensures View() == Pump(old(View()), connected)
      decreases |pending|, 1
    {
      claimed := [];
      if !connected {
        unsent := unsent + [r];
        OnLaneUnloadDone();
        return;
      }
      dispatched := dispatched + [r];
    }

    /** Called when the request that held the line has let go of it. */
    method OnLaneUnloadDone()
      requires inFlight && claimed == [] && completed == |dispatched|
      modifies this
      ensures LineInv(View()) && claimed == []
      ensures View() == Pump(Done(old(View())), connected)
      decreases |pending|, 0
    {
      if pending == [] {
        inFlight := false;
        return;
      }
      var next := pending[0];
      pending := pending[1..];
      claimed := [next];
      DispatchLaneUnload(next);
    }

    /** The response, or its error or timeout, has come in. */
    method LaneUnloadAnswered()
      requires LineInv(View()) && claimed == [] && inFlight
      modifies this
      ensures LineInv(View()) && claimed == []
      ensures View() == Pump(Completed(old(View())), connected)
    {
      completed := completed + 1;
      OnLaneUnloadDone();
    }

    /** cancel() and clear_fault() drop what waits and leave the one in flight to answer. */
    method DiscardPending()
      modifies `pending, `discarded
      ensures View() == Discarded(old(View())) && inFlight == old(inFlight)
    {
      discarded := discarded + pending;
      pending := [];
    }
  }
}
