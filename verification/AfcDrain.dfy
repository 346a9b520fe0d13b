/** Emptying AFC's message queue after a fault clear.

    AFC publishes the head of a FIFO and drops it on AFC_CLEAR_MESSAGE. One fault clear arms a
    budget of clears and a deadline; each frame that still names a message spends one. A status
    frame carries the message only when it differs from the one before, which is what the drain
    advances on. */
module AfcDrain {
  import opened Wrappers

  datatype Message = Message(text: string, kind: string)

  const MAX_CLEARS := 10
  const WINDOW := 5

  /** `sent` counts the clears since the last fault clear, its own included. */
  datatype Drain = Drain(budget: nat, pending: bool, deadline: int, sent: nat)

  datatype Event = ClearFault(now: int) | Frame(now: int, message: Option<Message>)

  function Arm(d: Drain, now: int): Drain { Drain(MAX_CLEARS - 1, false, now + WINDOW, 1) }

  function Note(d: Drain, message: Option<Message>): Drain {
    match message
    case None => d
    case Some(m) =>
      if m.text == "" then d.(budget := 0, pending := false)
      else if d.budget > 0 then d.(pending := true)
      else d
  }

  function MaybeDrain(d: Drain, now: int): Drain {
    if !d.pending || d.budget == 0 then d
    else if now > d.deadline then d.(budget := 0, pending := false)
    else d.(pending := false, budget := d.budget - 1, sent := d.sent + 1)
  }

  function Next(d: Drain, e: Event): Drain {
    match e
    case ClearFault(now) => Arm(d, now)
    case Frame(now, message) => MaybeDrain(Note(d, message), now)
  }

  function Run(d: Drain, es: seq<Event>): Drain
    decreases |es|
  {
    if es == [] then d else Run(Next(d, es[0]), es[1..])
  }

  const UNARMED: Drain := Drain(0, false, 0, 0)

  // ---------------------------------------------------------------- bounds

  lemma {:induction false} RunWithinBudget(d: Drain, es: seq<Event>)
    requires d.sent + d.budget <= MAX_CLEARS
    ensures Run(d, es).sent + Run(d, es).budget <= MAX_CLEARS
    decreases |es|
  {
    if es != [] { RunWithinBudget(Next(d, es[0]), es[1..]); }
  }

  /** However frames fall, one fault clear sends at most its ten clears. */
  lemma AtMostTenClears(es: seq<Event>)
    ensures Run(UNARMED, es).sent <= MAX_CLEARS
  {
    RunWithinBudget(UNARMED, es);
  }

  /** A frame sends a clear exactly when something is left of the budget, a message stands, now
      or from a frame before, and the deadline is not past. */
  lemma FrameSendsExactly(d: Drain, now: int, message: Option<Message>)
    ensures Next(d, Frame(now, message)).sent ==
            d.sent + (if d.budget > 0 && now <= d.deadline
                         && (if message.Some? then message.value.text != "" else d.pending) then 1 else 0)
  {
  }

  /** Every frame settles the message it marked: nothing is left pending between frames. */
  lemma {:induction false} NothingStaysPending(d: Drain, es: seq<Event>)
    requires !d.pending
    ensures !Run(d, es).pending
    decreases |es|
  {
    if es != [] { NothingStaysPending(Next(d, es[0]), es[1..]); }
  }

  /** The frames that name a message with text, up to the first that shows the queue empty or names
      one past the deadline. */
  function Named(es: seq<Event>, deadline: int): nat
    requires NoFaultClear(es)
    decreases |es|
  {
    if es == [] then 0
    else
      var m := es[0].message;
      if m.None? then Named(es[1..], deadline)
      else if m.value.text == "" || es[0].now > deadline then 0
      else 1 + Named(es[1..], deadline)
  }

  lemma {:induction false} SentFrom(d: Drain, es: seq<Event>)
    requires NoFaultClear(es) && !d.pending
    ensures var k := Named(es, d.deadline); Run(d, es).sent == d.sent + if k < d.budget then k else d.budget
    decreases |es|
  {
    if es != [] {
      var n := Next(d, es[0]);
      assert es[0].Frame? && n.deadline == d.deadline && !n.pending;
      SentFrom(n, es[1..]);
    }
  }

  /** From a fault clear on, whatever came before: one clear at once, and one for each frame that
      names a message, up to ten in all. */
  lemma SentExactly(before: seq<Event>, now: int, es: seq<Event>)
    requires NoFaultClear(es)
    ensures var k := 1 + Named(es, now + WINDOW);
            Run(Next(Run(UNARMED, before), ClearFault(now)), es).sent == if k < MAX_CLEARS then k else MAX_CLEARS
  {
    SentFrom(Next(Run(UNARMED, before), ClearFault(now)), es);
  }

  predicate Spent(d: Drain) { d.budget == 0 }

  predicate Ends(d: Drain, e: Event) {
    e.Frame? && ((e.message.Some? && e.message.value.text == "") || (e.now > d.deadline && e.message.Some?))
  }

  predicate NoFaultClear(es: seq<Event>) { forall i :: 0 <= i < |es| ==> es[i].Frame? }

  lemma {:induction false} SpentSendsNothing(d: Drain, es: seq<Event>)
    requires Spent(d) && NoFaultClear(es)
    ensures Run(d, es).sent == d.sent && Spent(Run(d, es))
    decreases |es|
  {
    if es != [] { SpentSendsNothing(Next(d, es[0]), es[1..]); }
  }

  /** After a frame that shows the queue empty, or names a message past the deadline, nothing
      more is sent until the next fault clear. */
  lemma NothingAfterTheEnd(d: Drain, last: Event, es: seq<Event>)
    requires Ends(d, last) && NoFaultClear(es)
    ensures Run(Next(d, last), es).sent == d.sent
  {
    SpentSendsNothing(Next(d, last), es);
  }

  lemma {:induction false} LateFramesSendNothing(d: Drain, es: seq<Event>)
    requires NoFaultClear(es) && forall i :: 0 <= i < |es| ==> es[i].now > d.deadline
    ensures Run(d, es).sent == d.sent
    decreases |es|
  {
    if es != [] {
      FrameSendsExactly(d, es[0].now, es[0].message);
      LateFramesSendNothing(Next(d, es[0]), es[1..]);
    }
  }

  // ---------------------------------------------------------------- against the firmware's queue

  function Head(q: seq<Message>): Message { if q == [] then Message("", "") else q[0] }

  /** What a frame carries after the head went from `before` to `after`. */
  function Told(before: Message, after: Message): Option<Message> {
    if before == after then None else Some(after)
  }

  /** The firmware answers a clear just sent, the frame that tells of it is handled, and so on
      while that sends another. The queue that is left. */
  function Exchange(d: Drain, q: seq<Message>, now: int): seq<Message>
    decreases |q|
  {
    if q == [] then []
    else
      var rest := q[1..];
      var n := Next(d, Frame(now, Told(Head(q), Head(rest))));
      if n.sent > d.sent then Exchange(n, rest, now) else rest
  }

  /** Each pop changes the head to another message with text. */
  predicate EveryPopShows(q: seq<Message>) {
    forall i :: 0 < i < |q| ==> q[i] != q[i - 1] && q[i].text != ""
  }

  lemma FirstPopShows(q: seq<Message>)
    requires |q| > 1
    ensures EveryPopShows(q) <==> q[1] != q[0] && q[1].text != "" && EveryPopShows(q[1..])
  {
    var rest := q[1..];
    if EveryPopShows(q) {
      forall i | 0 < i < |rest| ensures rest[i] != rest[i - 1] && rest[i].text != "" { assert q[i + 1] != q[i]; }
    }
    if q[1] != q[0] && q[1].text != "" && EveryPopShows(rest) {
      forall i | 0 < i < |q| ensures q[i] != q[i - 1] && q[i].text != "" {
        if i > 1 { assert rest[i - 1] != rest[i - 2]; }
      }
    }
  }

  lemma TellSendsExactly(d: Drain, q: seq<Message>, now: int)
    requires |q| > 1 && now <= d.deadline && !d.pending
    ensures var n := Next(d, Frame(now, Told(Head(q), Head(q[1..]))));
            if d.budget > 0 && q[1] != q[0] && q[1].text != ""
            then n.sent > d.sent && n.budget == d.budget - 1 && n.deadline == d.deadline && !n.pending
            else n.sent == d.sent
  {
    FrameSendsExactly(d, now, Told(Head(q), Head(q[1..])));
  }

  lemma {:induction false} ExchangeLeaves(d: Drain, q: seq<Message>, now: int)
    requires now <= d.deadline && !d.pending
    ensures Exchange(d, q, now) == [] <==> |q| <= d.budget + 1 && EveryPopShows(q)
    ensures EveryPopShows(q) ==> Exchange(d, q, now) == q[if |q| <= d.budget + 1 then |q| else d.budget + 1..]
    decreases |q|
  {
    if |q| > 1 {
      var rest := q[1..];
      var n := Next(d, Frame(now, Told(Head(q), Head(rest))));
      TellSendsExactly(d, q, now);
      FirstPopShows(q);
      if n.sent > d.sent { ExchangeLeaves(n, rest, now); }
    } else if |q| == 1 {
      assert q[1..] == [];
    }
  }

  /** A fault clear empties the firmware's queue exactly when it is no deeper than the budget and
      no two neighbours are the same message: a pop that leaves the same head tells nobody, and
      the drain stops there. */
  lemma FaultClearEmptiesExactly(d: Drain, q: seq<Message>, armed: int, now: int)
    requires armed <= now <= armed + WINDOW
    ensures Exchange(Next(d, ClearFault(armed)), q, now) == [] <==> |q| <= MAX_CLEARS && EveryPopShows(q)
  {
    ExchangeLeaves(Next(d, ClearFault(armed)), q, now);
  }

  // ---------------------------------------------------------------- the backend

  class Backend {
    var budget: nat
    var pending: bool
    var deadline: int
    var sent: nat

    ghost function View(): Drain
      reads this
    { Drain(budget, pending, deadline, sent) }

    constructor ()
      ensures View() == UNARMED
    {
      budget, pending, deadline, sent := 0, false, 0, 0;
    }

    method ClearMessageQueue()
      modifies `sent
      ensures sent == old(sent) + 1
    {
      sent := sent + 1;
    }

    method FaultClear(now: int)
      modifies this
      ensures View() == Arm(old(View()), now)
    {
      budget := MAX_CLEARS;
      pending := false;
      deadline := now + WINDOW;
      sent := 0;
      ClearMessageQueue();
      if budget > 0 { budget := budget - 1; }
    }

    method NoteMessage(text: string)
      modifies `budget, `pending
      ensures forall kind: string :: View() == Note(old(View()), Some(Message(text, kind)))
    {
      if text != "" {
        if budget > 0 { pending := true; }
      } else {
        budget := 0;
        pending := false;
      }
    }

    method MaybeDrainMessageQueue(now: int)
      modifies this
      ensures View() == MaybeDrain(old(View()), now)
    {
      if !pending || budget == 0 { return; }
      if now > deadline {
        budget := 0;
        pending := false;
        return;
      }
      pending := false;
      budget := budget - 1;
      ClearMessageQueue();
    }
  }
}
