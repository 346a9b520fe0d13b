/** multiACE's two-step bay load: unload the head, then load the bay once the head is seen empty.

    ACE_LOAD_HEAD answers OK and feeds nothing into a head that still holds filament, so the load
    waits for a status frame that shows the head empty. The unload's answer only starts a grace
    window. Requests are numbered; each pending load has one number and one fate. */
module MultiAce {
  import opened Wrappers

  datatype Bay = Bay(ace: int, slot: int)
  datatype Pending = Pending(head: nat, bay: Bay, id: nat, answered: bool, answeredAt: int)
  datatype Fate = Sent | Expired | EngineGone | PrintHolds | OtherOperation | Restarted | UnloadFailed | Superseded
  datatype Load = Load(id: nat, head: nat, bay: Bay)

  /** The progress bar's view of a swap; `head` is -1 when none is under way. */
  datatype Swap = Swap(head: int, progress: bool, loadSent: bool, loadHalf: bool)

  /** What the frames have shown: the engine's contract, each head's recorded source, the heads
      whose load latch is set, and whether a print holds the heads. */
  datatype Machine = Machine(active: bool, sources: map<nat, Bay>, latched: set<nat>, printing: bool)

  datatype Multi = Multi(
    machine: Machine, pending: Option<Pending>, nextId: nat, swap: Swap,
    fates: map<nat, Fate>, sent: seq<Load>)

  datatype Reply = Ok | TimedOut | Failed
  datatype Action = Idle | Loading | Unloading | Error | Other

  /** `dispatched` is whether the command went out. */
  datatype Event =
    | LoadBay(head: nat, bay: Bay, bayEmpty: bool, dispatched: bool)
    | Answer(id: nat, reply: Reply, now: int)
    | Frame(now: int, machine: Machine, action: Action)
    | OtherOp(dispatched: bool)
    | Restart

  const GRACE := 15_000
  const NO_SWAP := Swap(-1, false, false, false)

  // ---------------------------------------------------------------- steps

  predicate Empty(m: Machine, head: nat) { head !in m.latched && head !in m.sources }

  /** The bay the engine records as this head's, when it names one. */
  function Recorded(m: Machine, head: nat): Option<Bay> {
    if head in m.sources && m.sources[head].ace >= 0 && m.sources[head].slot >= 0 then Some(m.sources[head]) else None
  }

  datatype Decision = Refuse | LoadNow | UnloadFirst

  function Decide(m: Machine, head: nat, bay: Bay, bayEmpty: bool): Decision {
    if m.printing || bayEmpty then Refuse
    else if head in m.latched && Recorded(m, head) == Some(bay) then Refuse
    else if head in m.latched && head !in m.sources then Refuse
    else if head !in m.latched && head !in m.sources then LoadNow
    else UnloadFirst
  }

  function Close(s: Multi, fate: Fate): Multi {
    if s.pending.None? then s
    else s.(pending := None, swap := NO_SWAP, fates := s.fates[s.pending.value.id := fate])
  }

  function AskedUnload(s: Multi, head: nat, bay: Bay): Multi {
    Close(s, Superseded).(pending := Some(Pending(head, bay, s.nextId, false, 0)), nextId := s.nextId + 1,
                          swap := Swap(head, false, false, false))
  }

  function LoadedBay(s: Multi, head: nat, bay: Bay, bayEmpty: bool, dispatched: bool): Multi {
    match Decide(s.machine, head, bay, bayEmpty)
    case Refuse => s
    case LoadNow => if dispatched then Close(s, OtherOperation) else s
    case UnloadFirst => if dispatched then AskedUnload(s, head, bay) else Close(AskedUnload(s, head, bay), UnloadFailed)
  }

  function Answered(s: Multi, id: nat, reply: Reply, now: int): Multi {
    if s.pending.None? || s.pending.value.id != id then s
    else if reply == Failed then Close(s, UnloadFailed)
    else s.(pending := Some(s.pending.value.(answered := true, answeredAt := now)))
  }

  predicate Resting(a: Action) { a == Idle || a == Error }

  function Track(s: Multi, action: Action): Multi {
    if s.swap.head < 0 then s
    else
      var w := s.swap.(
        progress := s.swap.progress || action == Loading || action == Unloading,
        loadHalf := s.swap.loadHalf || (action == Loading && s.swap.loadSent));
      var over := (Resting(action) && w.loadHalf) || action == Error
                  || (Resting(action) && w.progress && s.pending.None? && !w.loadSent);
      s.(swap := if over then NO_SWAP else w)
  }

  predicate GraceOver(p: Pending, now: int) { p.answered && now > p.answeredAt + GRACE }

  function Advance(s: Multi, now: int): Multi {
    if s.pending.None? then s
    else
      var p := s.pending.value;
      if !s.machine.active then Close(s, EngineGone)
      else if GraceOver(p, now) then Close(s, Expired)
      else if !Empty(s.machine, p.head) then s
      else if s.machine.printing then Close(s, PrintHolds)
      else s.(pending := None, swap := s.swap.(loadSent := true), fates := s.fates[p.id := Sent],
              sent := s.sent + [Load(p.id, p.head, p.bay)])
  }

  function Next(s: Multi, e: Event): Multi {
    match e
    case LoadBay(head, bay, bayEmpty, dispatched) => LoadedBay(s, head, bay, bayEmpty, dispatched)
    case Answer(id, reply, now) => Answered(s, id, reply, now)
    case Frame(now, machine, action) => Advance(Track(s.(machine := machine), action), now)
    case OtherOp(dispatched) => if dispatched then Close(s, OtherOperation) else s
    case Restart => Close(s, Restarted)
  }

  function Boot(m: Machine): Multi { Multi(m, None, 0, NO_SWAP, map[], []) }

  function Run(m: Machine, es: seq<Event>): Multi
    decreases |es|
  {
    if es == [] then Boot(m) else Next(Run(m, es[..|es| - 1]), es[|es| - 1])
  }

  // ---------------------------------------------------------------- one fate each

  predicate Waiting(s: Multi, id: nat) { s.pending.Some? && s.pending.value.id == id }

  predicate Numbered(s: Multi) {
    && (s.pending.Some? ==> s.pending.value.id < s.nextId && s.pending.value.id !in s.fates)
    && (forall id :: id in s.fates ==> id < s.nextId)
    && (forall id: nat :: id < s.nextId ==> id in s.fates || Waiting(s, id))
  }

  lemma CloseNumbered(s: Multi, fate: Fate)
    requires Numbered(s)
    ensures Numbered(Close(s, fate)) && Close(s, fate).nextId == s.nextId
  {
  }

  lemma AskNumbered(s: Multi, head: nat, bay: Bay)
    requires Numbered(s)
    ensures Numbered(AskedUnload(s, head, bay))
  {
  }

  lemma AdvanceNumbered(s: Multi, now: int)
    requires Numbered(s)
    ensures Numbered(Advance(s, now))
  {
  }

  lemma TrackTouchesOnlyTheBar(s: Multi, action: Action)
    ensures Track(s, action) == s.(swap := Track(s, action).swap)
  {
  }

  lemma StepNumbered(s: Multi, e: Event)
    requires Numbered(s)
    ensures Numbered(Next(s, e))
  {
    match e
    case LoadBay(head, bay, bayEmpty, dispatched) =>
      AskNumbered(s, head, bay);
      CloseNumbered(s, OtherOperation);
      CloseNumbered(AskedUnload(s, head, bay), UnloadFailed);
    case Answer(id, reply, now) => CloseNumbered(s, UnloadFailed);
    case Frame(now, machine, action) =>
      TrackTouchesOnlyTheBar(s.(machine := machine), action);
      AdvanceNumbered(Track(s.(machine := machine), action), now);
    case OtherOp(_) => CloseNumbered(s, OtherOperation);
    case Restart => CloseNumbered(s, Restarted);
  }

  lemma {:induction false} RunNumbered(m: Machine, es: seq<Event>)
    ensures Numbered(Run(m, es))
    decreases |es|
  {
    if es != [] {
      RunNumbered(m, es[..|es| - 1]);
      StepNumbered(Run(m, es[..|es| - 1]), es[|es| - 1]);
    }
  }

  /** Every load asked for is waiting or has a fate, never both and never neither; only the last
      one asked for can be waiting. */
  lemma EachLoadHasOneFate(m: Machine, es: seq<Event>, id: nat)
    ensures var s := Run(m, es);
            && (id < s.nextId ==> (id in s.fates <==> !Waiting(s, id)))
            && (id >= s.nextId ==> id !in s.fates && !Waiting(s, id))
  {
    RunNumbered(m, es);
  }

  /** A fate once reached stays. */
  lemma FatesStand(s: Multi, e: Event, id: nat)
    requires Numbered(s) && id in s.fates
    ensures id in Next(s, e).fates && Next(s, e).fates[id] == s.fates[id]
  {
  }

  // ---------------------------------------------------------------- what is asked, and what ends it

  /** No print holds the heads and the bay is not empty. */
  predicate MayLoad(m: Machine, bayEmpty: bool) { !m.printing && !bayEmpty }

  /** The head came from a bay that is on record, and does not hold the bay asked for. */
  predicate MustUnload(m: Machine, head: nat, bay: Bay) {
    head in m.sources && !(head in m.latched && m.sources[head] == bay && bay.ace >= 0 && bay.slot >= 0)
  }

  /** A load of a bay waits behind an unload exactly if the head has another source on record; it goes
      out at once exactly if the head shows neither filament nor source; and it is refused otherwise,
      when the head holds that bay or filament of no record. The load it follows is dropped only when
      something went out. */
  lemma LoadBayExactly(s: Multi, head: nat, bay: Bay, bayEmpty: bool, dispatched: bool)
    requires Numbered(s)
    ensures var m, n := s.machine, Next(s, LoadBay(head, bay, bayEmpty, dispatched));
            && n.machine == m && n.sent == s.sent
            && (if MayLoad(m, bayEmpty) && MustUnload(m, head, bay) then
                  && n.nextId == s.nextId + 1
                  && (s.pending.Some? ==> s.pending.value.id in n.fates && n.fates[s.pending.value.id] == Superseded)
                  && (if dispatched
                      then n.pending == Some(Pending(head, bay, s.nextId, false, 0))
                           && n.swap == Swap(head, false, false, false)
                      else n.pending == None && n.swap == NO_SWAP
                           && s.nextId in n.fates && n.fates[s.nextId] == UnloadFailed)
                else if MayLoad(m, bayEmpty) && head !in m.sources && head !in m.latched && dispatched then
                  n == Dropped(s, OtherOperation)
                else n == s)
  {
  }

  /** The waiting load, and its bar, dropped for this reason. */
  function Dropped(s: Multi, why: Fate): Multi {
    if s.pending.None? then s
    else Multi(s.machine, None, s.nextId, NO_SWAP, s.fates[s.pending.value.id := why], s.sent)
  }

  /** Outside a frame a waiting load is dropped by another operation that went out, a restart, or the
      failure of its own unload; any other answer to that opens its window, and nothing else does
      anything. */
  lemma DropsExactly(s: Multi, id: nat, reply: Reply, now: int, dispatched: bool)
    ensures Next(s, OtherOp(dispatched)) == if dispatched then Dropped(s, OtherOperation) else s
    ensures Next(s, Restart) == Dropped(s, Restarted)
    ensures Next(s, Answer(id, reply, now)) ==
            if !Waiting(s, id) then s
            else if reply == Failed then Dropped(s, UnloadFailed)
            else s.(pending := Some(s.pending.value.(answered := true, answeredAt := now)))
  {
  }

  /** Event `i` answered the unload of the load that waits. */
  predicate AnsweredAt(m: Machine, es: seq<Event>, i: int, id: nat) {
    0 <= i < |es| && es[i].Answer? && es[i].id == id && Waiting(Run(m, es[..i]), id)
  }

  /** The last answer to the unload of load `id`. */
  predicate LastAnswer(m: Machine, es: seq<Event>, i: int, id: nat) {
    AnsweredAt(m, es, i, id) && forall j :: i < j < |es| ==> !AnsweredAt(m, es, j, id)
  }

  lemma AnsweredLater(m: Machine, es: seq<Event>, i: int, id: nat)
    requires es != []
    ensures var n := |es| - 1;
            AnsweredAt(m, es, i, id) <==>
            (if i == n then es[n].Answer? && es[n].id == id && Waiting(Run(m, es[..n]), id)
             else AnsweredAt(m, es[..n], i, id))
  {
    if 0 <= i < |es| - 1 { assert es[..|es| - 1][..i] == es[..i]; }
  }

  /** A load that waits after a step was waiting before it, its window opened anew by an answer, or is
      new, unanswered and of a new number. */
  lemma WindowStep(b: Multi, e: Event)
    requires Numbered(b) && Next(b, e).pending.Some?
    ensures var p := Next(b, e).pending.value;
            if !Waiting(b, p.id) then !p.answered && p.id >= b.nextId
            else if e.Answer? && e.id == p.id then p.answered && p.answeredAt == e.now
            else p.answered == b.pending.value.answered && p.answeredAt == b.pending.value.answeredAt
  {
  }

  /** Over any run: a waiting load's window is open exactly if its unload was answered, and it is
      counted from the last answer. */
  lemma {:induction false} WindowIsTheAnswers(m: Machine, es: seq<Event>)
    ensures var s := Run(m, es);
            s.pending.Some? ==>
              if s.pending.value.answered
              then exists i :: LastAnswer(m, es, i, s.pending.value.id) && es[i].now == s.pending.value.answeredAt
              else forall i :: !AnsweredAt(m, es, i, s.pending.value.id)
    decreases |es|
  {
    var s := Run(m, es);
    if es != [] && s.pending.Some? {
      var n, id := |es| - 1, s.pending.value.id;
      var b := Run(m, es[..n]);
      RunNumbered(m, es[..n]);
      WindowStep(b, es[n]);
      WindowIsTheAnswers(m, es[..n]);
      forall j ensures AnsweredAt(m, es, j, id) <==>
                       (if j == n then es[n].Answer? && es[n].id == id && Waiting(b, id)
                        else AnsweredAt(m, es[..n], j, id))
      {
        AnsweredLater(m, es, j, id);
      }
      if Waiting(b, id) {
        if es[n].Answer? && es[n].id == id {
          assert LastAnswer(m, es, n, id);
        } else if s.pending.value.answered {
          var i :| LastAnswer(m, es[..n], i, id) && es[..n][i].now == b.pending.value.answeredAt;
          assert LastAnswer(m, es, i, id);
        }
      } else {
        forall j ensures !AnsweredAt(m, es, j, id) { NeverWaitedBefore(m, es[..n], j, id); }
      }
    }
  }

  lemma {:induction false} NextIdGrows(m: Machine, es: seq<Event>, i: nat)
    requires i <= |es|
    ensures Run(m, es[..i]).nextId <= Run(m, es).nextId
    decreases |es|
  {
    if i < |es| {
      NextIdGrows(m, es[..|es| - 1], i);
      assert es[..|es| - 1][..i] == es[..i];
    } else {
      assert es[..i] == es;
    }
  }

  /** A number not given out yet was never waited for. */
  lemma NeverWaitedBefore(m: Machine, es: seq<Event>, i: int, id: nat)
    ensures id >= Run(m, es).nextId ==> !AnsweredAt(m, es, i, id)
  {
    if AnsweredAt(m, es, i, id) {
      RunNumbered(m, es[..i]);
      NextIdGrows(m, es, i);
    }
  }

  // ---------------------------------------------------------------- what sends a load

  /** This frame shows the head empty under a driving engine, no print holds the heads, and the
      grace window of the unload's answer has not closed. */
  predicate Evidence(p: Pending, e: Event) {
    && e.Frame? && e.machine.active && !e.machine.printing
    && p.head !in e.machine.latched && p.head !in e.machine.sources
    && !(p.answered && e.now > p.answeredAt + GRACE)
  }

  /** A step sends a load exactly on that evidence, and then the waiting one, as it was asked. */
  lemma SendsExactly(s: Multi, e: Event)
    ensures Next(s, e).sent ==
            if s.pending.Some? && Evidence(s.pending.value, e)
            then s.sent + [Load(s.pending.value.id, s.pending.value.head, s.pending.value.bay)]
            else s.sent
  {
  }

  /** What a frame does to a waiting load, in the order the checks are made. */
  lemma FrameDecidesExactly(s: Multi, e: Event)
    requires Numbered(s) && s.pending.Some? && e.Frame?
    ensures var p, n := s.pending.value, Next(s, e);
            if !e.machine.active then n.fates == s.fates[p.id := EngineGone]
            else if p.answered && e.now > p.answeredAt + GRACE then n.fates == s.fates[p.id := Expired]
            else if p.head in e.machine.latched || p.head in e.machine.sources
            then n.fates == s.fates && n.pending == s.pending
            else n.fates == s.fates[p.id := if e.machine.printing then PrintHolds else Sent]
  {
  }

  function LoadOf(p: Pending): Load { Load(p.id, p.head, p.bay) }

  predicate SentAt(m: Machine, es: seq<Event>, i: int, l: Load) {
    && 0 <= i < |es|
    && Run(m, es[..i]).pending.Some? && Evidence(Run(m, es[..i]).pending.value, es[i])
    && l == LoadOf(Run(m, es[..i]).pending.value)
  }

  /** Each load sent was released by a frame with the evidence, whatever was answered. */
  lemma {:induction false} EverySendHasItsFrame(m: Machine, es: seq<Event>, k: nat)
    requires k < |Run(m, es).sent|
    ensures exists i :: SentAt(m, es, i, Run(m, es).sent[k])
    decreases |es|
  {
    var n := |es| - 1;
    var s := Run(m, es[..n]);
    SendsExactly(s, es[n]);
    if k < |s.sent| {
      EverySendHasItsFrame(m, es[..n], k);
      var i :| SentAt(m, es[..n], i, s.sent[k]);
      assert es[..n][..i] == es[..i];
      assert SentAt(m, es, i, Run(m, es).sent[k]);
    } else {
      assert SentAt(m, es, n, Run(m, es).sent[k]);
    }
  }

  predicate SentOnce(s: Multi) {
    && (forall k :: 0 <= k < |s.sent| ==> s.sent[k].id in s.fates && s.fates[s.sent[k].id] == Sent)
    && (forall i, j :: 0 <= i < j < |s.sent| ==> s.sent[i].id < s.sent[j].id)
  }

  lemma StepSendsOnce(s: Multi, e: Event)
    requires Numbered(s) && SentOnce(s)
    requires s.pending.Some? ==> forall k :: 0 <= k < |s.sent| ==> s.sent[k].id < s.pending.value.id
    ensures SentOnce(Next(s, e))
    ensures var n := Next(s, e);
            n.pending.Some? ==> forall k :: 0 <= k < |n.sent| ==> n.sent[k].id < n.pending.value.id
  {
    var n := Next(s, e);
    SendsExactly(s, e);
    forall k | 0 <= k < |s.sent| ensures s.sent[k].id in n.fates && n.fates[s.sent[k].id] == Sent {
      FatesStand(s, e, s.sent[k].id);
    }
    if s.pending.Some? && Evidence(s.pending.value, e) {
      FrameDecidesExactly(s, e);
    }
    PendingAfter(s, e);
  }

  /** A load that waits after a step waited before it, or was asked for by it. */
  lemma PendingAfter(s: Multi, e: Event)
    requires Numbered(s)
    ensures var n := Next(s, e);
            n.pending.Some? ==>
              (s.pending.Some? && n.pending.value.id == s.pending.value.id && n.sent == s.sent)
              || (n.pending.value.id == s.nextId && n.sent == s.sent)
  {
  }

  lemma {:induction false} RunSendsOnce(m: Machine, es: seq<Event>)
    ensures var s := Run(m, es);
            && Numbered(s) && SentOnce(s)
            && (s.pending.Some? ==> forall k :: 0 <= k < |s.sent| ==> s.sent[k].id < s.pending.value.id)
    decreases |es|
  {
    if es != [] {
      RunSendsOnce(m, es[..|es| - 1]);
      StepNumbered(Run(m, es[..|es| - 1]), es[|es| - 1]);
      StepSendsOnce(Run(m, es[..|es| - 1]), es[|es| - 1]);
    }
  }

  /** ACE_LOAD_HEAD goes out at most once for each load asked for, in order, and only for loads
      whose fate that is. */
  lemma NoLoadIsSentTwice(m: Machine, es: seq<Event>, i: nat, j: nat)
    requires i < j < |Run(m, es).sent|
    ensures Run(m, es).sent[i].id < Run(m, es).sent[j].id
    ensures Run(m, es).fates.Keys >= {Run(m, es).sent[i].id, Run(m, es).sent[j].id}
  {
    RunSendsOnce(m, es);
  }

  /** Answers send nothing, and the window an answer opens is closed by any later frame. */
  lemma AnsweredLoadsEnd(s: Multi, id: nat, now: int, e: Event)
    requires Numbered(s) && Waiting(s, id) && e.Frame? && e.now > now + GRACE
    ensures Answered(s, id, Ok, now).sent == s.sent && Answered(s, id, TimedOut, now).sent == s.sent
    ensures id in Next(Answered(s, id, Ok, now), e).fates && Next(Answered(s, id, Ok, now), e).fates[id] != Sent
  {
  }

  // ---------------------------------------------------------------- the swap bar

  /** A swap is shown while its load waits or after it was sent, for the head it waits on. */
  predicate BarInv(s: Multi) {
    s.swap.head >= 0 ==> (s.pending.Some? <==> !s.swap.loadSent)
                         && (s.pending.Some? ==> s.pending.value.head == s.swap.head)
  }

  /** The bar's third end, for a load dropped before it went out, never fires: every drop ends
      the swap itself. */
  lemma DroppedLoadsEndTheBar(s: Multi, e: Event)
    requires BarInv(s)
    ensures BarInv(Next(s, e))
    ensures Next(s, e).pending.None? && Next(s, e).sent == s.sent && s.pending.Some? ==> Next(s, e).swap.head < 0
  {
  }

  predicate Asks(s: Multi, e: Event) {
    e.LoadBay? && e.dispatched && MayLoad(s.machine, e.bayEmpty) && MustUnload(s.machine, e.head, e.bay)
  }

  predicate StepsAt(ss: seq<Multi>, es: seq<Event>, k: int)
    requires |ss| == |es| + 1 && 0 <= k < |es|
  {
    ss[k + 1] == Next(ss[k], es[k])
  }

  /** The states a run passes through, one before each event and one after the last. */
  predicate Passes(ss: seq<Multi>, es: seq<Event>) {
    |ss| == |es| + 1 && forall k :: 0 <= k < |es| ==> StepsAt(ss, es, k)
  }

  /** Event `b` asked for the load whose swap the bar shows after event `k`, and is the last to have
      asked. */
  predicate BarBegan(ss: seq<Multi>, es: seq<Event>, b: int, k: int)
    requires |ss| == |es| + 1
  {
    0 <= b < k <= |es| && Asks(ss[b], es[b]) && forall j :: b < j < k ==> !Asks(ss[j], es[j])
  }

  predicate FrameShows(e: Event, actions: set<Action>) { e.Frame? && e.action in actions }

  lemma BarStep(s: Multi, e: Event)
    requires s.swap.head >= 0 || Asks(s, e)
    ensures var n := Next(s, e);
            n.swap.head >= 0 ==>
              if Asks(s, e) then n.swap == Swap(e.head, false, false, false) && n.sent == s.sent
              else && n.swap.head == s.swap.head
                   && n.swap.progress == (s.swap.progress || FrameShows(e, {Loading, Unloading}))
                   && n.swap.loadSent == (s.swap.loadSent || |n.sent| > |s.sent|)
                   && n.swap.loadHalf == (s.swap.loadHalf || (FrameShows(e, {Loading}) && s.swap.loadSent))
  {
  }

  lemma NoBarFromNothing(s: Multi, e: Event)
    requires s.swap.head < 0 && !Asks(s, e)
    ensures Next(s, e).swap.head < 0
  {
  }

  lemma SentGrows(s: Multi, e: Event)
    ensures |s.sent| <= |Next(s, e).sent|
  {
    SendsExactly(s, e);
  }

  /** What one event of a run leaves of the bar. */
  predicate BarStepped(s: Multi, e: Event, n: Multi) {
    && |s.sent| <= |n.sent|
    && (s.swap.head < 0 && !Asks(s, e) ==> n.swap.head < 0)
    && (n.swap.head >= 0 ==>
          if Asks(s, e) then n.swap == Swap(e.head, false, false, false) && n.sent == s.sent
          else && n.swap.head == s.swap.head
               && n.swap.progress == (s.swap.progress || FrameShows(e, {Loading, Unloading}))
               && n.swap.loadSent == (s.swap.loadSent || |n.sent| > |s.sent|)
               && n.swap.loadHalf == (s.swap.loadHalf || (FrameShows(e, {Loading}) && s.swap.loadSent)))
  }

  lemma BarSteps(ss: seq<Multi>, es: seq<Event>, k: int)
    requires Passes(ss, es) && 0 <= k < |es|
    ensures BarStepped(ss[k], es[k], ss[k + 1])
  {
    assert StepsAt(ss, es, k);
    SentGrows(ss[k], es[k]);
    if ss[k].swap.head >= 0 || Asks(ss[k], es[k]) { BarStep(ss[k], es[k]); } else { NoBarFromNothing(ss[k], es[k]); }
  }

  /** Over any run: while the bar shows a swap, it has seen progress exactly if a frame since it began
      showed loading or unloading, its load sent exactly if one went out since, and the load half
      exactly if a frame after that showed loading. */
  lemma {:induction false} BarIsHistory(ss: seq<Multi>, es: seq<Event>, b: int, k: int)
    requires Passes(ss, es) && BarBegan(ss, es, b, k) && ss[k].swap.head >= 0
    ensures var w := ss[k].swap;
            && w.head == es[b].head && |ss[b].sent| <= |ss[k].sent|
            && (w.progress <==> exists j :: b < j < k && FrameShows(es[j], {Loading, Unloading}))
            && (w.loadSent <==> |ss[k].sent| > |ss[b].sent|)
            && (w.loadHalf <==> exists j :: b < j < k && FrameShows(es[j], {Loading}) && |ss[j].sent| > |ss[b].sent|)
    decreases k
  {
    BarSteps(ss, es, k - 1);
    if b < k - 1 { BarIsHistory(ss, es, b, k - 1); }
  }

  /** The bar ends exactly with a drop of its load, a new load whose unload did not go out, an error,
      or a rest after the load half ran; a load that goes out does not end it. */
  lemma BarEndsExactly(s: Multi, e: Event)
    requires BarInv(s) && s.swap.head >= 0
    ensures var n := Next(s, e);
            n.swap.head < 0 <==>
              || (s.pending.Some? && n.pending.None? && n.sent == s.sent)
              || (e.LoadBay? && !e.dispatched && MayLoad(s.machine, e.bayEmpty) && MustUnload(s.machine, e.head, e.bay))
              || (e.Frame? && (e.action == Error || (e.action == Idle && s.swap.loadHalf)))
  {
  }

  // ---------------------------------------------------------------- the backend

  class Backend {
    var machine: Machine
    var pending: Option<Pending>
    var nextId: nat
    var swap: Swap
    ghost var fates: map<nat, Fate>
    ghost var sent: seq<Load>

    ghost function View(): Multi
      reads this
    { Multi(machine, pending, nextId, swap, fates, sent) }

    constructor (m: Machine)
      ensures View() == Boot(m)
    {
      machine, pending, nextId, swap, fates, sent := m, None, 0, NO_SWAP, map[], [];
    }

    /** Drops the pending load, with the reason given. */
    method CancelPendingLoad(why: Fate)
      modifies `pending, `swap, `fates
      ensures View() == Close(old(View()), why)
    {
      if pending.None? { return; }
      fates := fates[pending.value.id := why];
      pending := None;
      swap := NO_SWAP;
    }

    method LoadBayIntoHead(head: nat, bay: Bay, bayEmpty: bool, dispatched: bool)
      modifies this
      ensures View() == LoadedBay(old(View()), head, bay, bayEmpty, dispatched)
    {
      if machine.printing || bayEmpty { return; }
      var headLoaded, hasSource := head in machine.latched, head in machine.sources;
      if headLoaded && Recorded(machine, head) == Some(bay) { return; }
      if headLoaded && !hasSource { return; }
      if !headLoaded && !hasSource {
        if dispatched { CancelPendingLoad(OtherOperation); }
        return;
      }
      var id := nextId;
      nextId := nextId + 1;
      if pending.Some? { fates := fates[pending.value.id := Superseded]; }
      pending := Some(Pending(head, bay, id, false, 0));
      swap := Swap(head, false, false, false);
      if !dispatched { CancelPendingLoad(UnloadFailed); }
    }

    method UnloadAnswered(id: nat, reply: Reply, now: int)
      modifies `pending, `swap, `fates
      ensures View() == Answered(old(View()), id, reply, now)
    {
      if pending.None? || pending.value.id != id { return; }
      if reply == Failed {
        CancelPendingLoad(UnloadFailed);
        return;
      }
      pending := Some(pending.value.(answered := true, answeredAt := now));
    }

    method TrackSwap(action: Action)
      modifies `swap
      ensures View() == Track(old(View()), action)
    {
      if swap.head < 0 { return; }
      if action == Loading || action == Unloading { swap := swap.(progress := true); }
      if action == Loading && swap.loadSent { swap := swap.(loadHalf := true); }
      var resting := action == Idle || action == Error;
      var dropped := pending.None? && !swap.loadSent;
      if (resting && swap.loadHalf) || action == Error || (resting && swap.progress && dropped) {
        swap := NO_SWAP;
      }
    }

    method AdvancePendingLoad(now: int)
      modifies `pending, `swap, `fates, `sent
      ensures View() == Advance(old(View()), now)
    {
      if pending.None? { return; }
      var p := pending.value;
      var empty := p.head !in machine.latched && p.head !in machine.sources;
      var expired := p.answered && now > p.answeredAt + GRACE;
      if !machine.active {
        CancelPendingLoad(EngineGone);
        return;
      }
      if expired {
        CancelPendingLoad(Expired);
        return;
      }
      if !empty { return; }
      if machine.printing {
        CancelPendingLoad(PrintHolds);
        return;
      }
      pending := None;
      swap := swap.(loadSent := true);
      fates := fates[p.id := Sent];
      sent := sent + [Load(p.id, p.head, p.bay)];
    }

    method HandleStatus(now: int, m: Machine, action: Action)
      modifies this
      ensures View() == Next(old(View()), Frame(now, m, action))
    {
      machine := m;
      TrackSwap(action);
      AdvancePendingLoad(now);
    }
  }
}
