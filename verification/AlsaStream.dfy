/** Frames in the playback device of the ALSA backend: what is written is heard.

    The device starts by itself once `buffer - period` frames are queued, plays while running,
    and underruns when it plays the queue empty. Draining plays a running stream out and does
    nothing to one that was never started; preparing throws away whatever is queued. The render
    thread's job at the idle park is to start the stream exactly when draining alone would leave
    sound for the next prepare to throw away. */
module AlsaStream {
  datatype Pcm = Prepared | Running | Underrun | Setup

  /** `discarded` counts accepted frames that a prepare threw away, `refused` frames handed to
      a write that failed because the stream had underrun. */
  datatype Stream = Stream(
    buffer: nat, period: nat, pcm: Pcm, wroteSincePrepare: bool,
    queued: nat, accepted: nat, played: nat, discarded: nat, refused: nat)

  /** `started` is whether snd_pcm_start, if the park calls it, succeeds. */
  datatype Op = Write(frames: nat) | Tick(frames: nat) | Park(started: bool) | Resume

  predicate NeedsStartBeforeDrain(pcm: Pcm, wroteSincePrepare: bool) {
    pcm == Prepared && wroteSincePrepare
  }

  predicate Fits(s: Stream, n: nat) { 0 < n <= s.period && s.queued + n <= s.buffer }

  function Prepare(s: Stream): Stream {
    s.(pcm := Prepared, queued := 0, discarded := s.discarded + s.queued, wroteSincePrepare := false)
  }

  function Start(s: Stream): Stream { s.(pcm := Running) }

  function Drain(s: Stream): Stream {
    if s.pcm == Running then s.(pcm := Setup, queued := 0, played := s.played + s.queued)
    else if s.pcm == Underrun then s.(pcm := Setup)
    else s
  }

  /** A write that does not fit blocks, which leaves the stream as it is. */
  function AfterWrite(s: Stream, n: nat): Stream {
    if s.pcm == Underrun then Prepare(s).(refused := s.refused + n)
    else if s.pcm == Setup || !Fits(s, n) then s
    else
      var queued := s.queued + n;
      s.(queued := queued, accepted := s.accepted + n, wroteSincePrepare := true,
         pcm := if s.pcm == Prepared && queued >= s.buffer - s.period then Running else s.pcm)
  }

  function AfterTick(s: Stream, n: nat): Stream {
    if s.pcm != Running then s
    else
      var k := if n < s.queued then n else s.queued;
      s.(queued := s.queued - k, played := s.played + k, pcm := if k == s.queued then Underrun else Running)
  }

  function AfterPark(s: Stream, started: bool): Stream {
    Drain(if NeedsStartBeforeDrain(s.pcm, s.wroteSincePrepare) && started then Start(s) else s)
  }

  function After(s: Stream, op: Op): Stream {
    match op
    case Write(n) => AfterWrite(s, n)
    case Tick(n) => AfterTick(s, n)
    case Park(started) => AfterPark(s, started)
    case Resume => Prepare(s)
  }

  function Run(s: Stream, ops: seq<Op>): Stream
    decreases |ops|
  {
    if ops == [] then s else Run(After(s, ops[0]), ops[1..])
  }

  function Open(buffer: nat, period: nat): Stream
  { Stream(buffer, period, Prepared, false, 0, 0, 0, 0, 0) }

  /** The flag tells "queued but never started" apart from "nothing to play". */
  predicate Inv(s: Stream) {
    && 0 < s.period <= s.buffer
    && s.accepted == s.played + s.queued + s.discarded
    && s.queued <= s.buffer
    && (s.pcm == Prepared ==> (s.wroteSincePrepare <==> s.queued > 0))
    && (s.pcm == Prepared && s.queued > 0 ==> s.queued < s.buffer - s.period)
    && (s.pcm == Running ==> s.queued > 0)
    && (s.pcm == Underrun || s.pcm == Setup ==> s.queued == 0)
  }

  lemma StepKeepsInv(s: Stream, op: Op)
    requires Inv(s)
    ensures Inv(After(s, op))
  {
  }

  lemma {:induction false} RunKeepsInv(s: Stream, ops: seq<Op>)
    requires Inv(s)
    ensures Inv(Run(s, ops)) && Run(s, ops).buffer == s.buffer && Run(s, ops).period == s.period
    decreases |ops|
  {
    if ops != [] {
      StepKeepsInv(s, ops[0]);
      RunKeepsInv(After(s, ops[0]), ops[1..]);
    }
  }

  /** The render loop's own order: a resume follows each park at once, and comes nowhere else. */
  predicate LoopOrder(parked: bool, ops: seq<Op>)
    decreases |ops|
  {
    ops == [] || ((parked <==> ops[0].Resume?) && LoopOrder(ops[0].Park?, ops[1..]))
  }

  /** No park that is resumed needed a start that failed. */
  predicate NoStartLost(s: Stream, ops: seq<Op>)
    decreases |ops|
  {
    ops == []
    || (!(ops[0].Park? && |ops| > 1 && NeedsStartBeforeDrain(s.pcm, s.wroteSincePrepare) && !ops[0].started)
        && NoStartLost(After(s, ops[0]), ops[1..]))
  }

  lemma {:induction false} DiscardedExactly(s: Stream, parked: bool, ops: seq<Op>)
    requires Inv(s) && LoopOrder(parked, ops)
    ensures Run(s, ops).discarded >= s.discarded
    ensures Run(s, ops).discarded == s.discarded <==>
      (parked ==> s.queued == 0 || ops == []) && NoStartLost(s, ops)
    decreases |ops|
  {
    if ops != [] {
      StepKeepsInv(s, ops[0]);
      DiscardedExactly(After(s, ops[0]), ops[0].Park?, ops[1..]);
    }
  }

  /** Every frame the device accepted is played, queued or thrown away, whatever sizes were
      negotiated and however often the loop parks and resumes; and none was thrown away exactly if
      no park that was resumed failed to start a stream that needed it. */
  lemma WrittenIsPlayedOrQueued(buffer: nat, period: nat, ops: seq<Op>)
    requires 0 < period <= buffer && LoopOrder(false, ops)
    ensures var s := Run(Open(buffer, period), ops);
            && s.accepted == s.played + s.queued + s.discarded && (s.pcm == Setup ==> s.queued == 0)
            && (s.accepted == s.played + s.queued <==> NoStartLost(Open(buffer, period), ops))
  {
    RunKeepsInv(Open(buffer, period), ops);
    DiscardedExactly(Open(buffer, period), false, ops);
  }

  /** The frames handed to writes that did not block. */
  function Handed(s: Stream, ops: seq<Op>): nat
    decreases |ops|
  {
    if ops == [] then 0
    else (if ops[0].Write? && !Blocks(s, ops[0].frames) then ops[0].frames else 0) + Handed(After(s, ops[0]), ops[1..])
  }

  /** The device has no room, or was drained and not prepared; a failed write does not block. */
  predicate Blocks(s: Stream, n: nat) { s.pcm != Underrun && (s.pcm == Setup || !Fits(s, n)) }

  /** Every frame handed over is accepted or refused. */
  lemma {:induction false} HandedIsAcceptedOrRefused(s: Stream, ops: seq<Op>)
    ensures Run(s, ops).accepted + Run(s, ops).refused == s.accepted + s.refused + Handed(s, ops)
    decreases |ops|
  {
    if ops != [] { HandedIsAcceptedOrRefused(After(s, ops[0]), ops[1..]); }
  }

  function Played(ops: seq<Op>): nat
    decreases |ops|
  {
    if ops == [] then 0 else (if ops[0].Tick? then ops[0].frames else 0) + Played(ops[1..])
  }

  /** A playing stream plays what is queued as time passes, and underruns as it plays the last. */
  lemma {:induction false} TicksPlay(s: Stream, ops: seq<Op>)
    requires Inv(s) && s.pcm == Running && forall op :: op in ops ==> op.Tick?
    ensures var n, k := Run(s, ops), Played(ops);
            && n.played == s.played + (if k < s.queued then k else s.queued)
            && n.pcm == if k < s.queued then Running else Underrun
    decreases |ops|
  {
    if ops != [] {
      assert ops[0].Tick? && forall op :: op in ops[1..] ==> op in ops;
      var n := After(s, ops[0]);
      StepKeepsInv(s, ops[0]);
      if n.pcm == Running { TicksPlay(n, ops[1..]); } else { StillStreamsStay(n, ops[1..]); }
    }
  }

  lemma {:induction false} StillStreamsStay(s: Stream, ops: seq<Op>)
    requires s.pcm != Running && forall op :: op in ops ==> op.Tick?
    ensures Run(s, ops) == s
    decreases |ops|
  {
    if ops != [] {
      assert ops[0].Tick? && forall op :: op in ops[1..] ==> op in ops;
      StillStreamsStay(After(s, ops[0]), ops[1..]);
    }
  }

  /** After a park the device is drained and still, whatever time passes, unless a start it needed
      failed, and then it stays as it was; a resume has it prepared with nothing queued. */
  lemma ParkLeavesItStill(buffer: nat, period: nat, before: seq<Op>, started: bool, ticks: seq<Op>)
    requires 0 < period <= buffer && forall op :: op in ticks ==> op.Tick?
    ensures var s := Run(Open(buffer, period), before); var p := After(s, Park(started));
            && Run(p, ticks) == p
            && (p.pcm == Setup <==> s.pcm != Prepared || (s.queued > 0 && started))
            && (p.pcm != Setup ==> p == s)
            && After(p, Resume).pcm == Prepared && After(p, Resume).queued == 0
  {
    RunKeepsInv(Open(buffer, period), before);
    var s := Run(Open(buffer, period), before);
    StepKeepsInv(s, Park(started));
    StillStreamsStay(After(s, Park(started)), ticks);
  }

  /** The start is asked for exactly when a drain alone would leave frames to throw away, and
      those are always fewer than the start threshold. */
  lemma StartIsNeededExactly(buffer: nat, period: nat, ops: seq<Op>)
    requires 0 < period <= buffer
    ensures var s := Run(Open(buffer, period), ops);
            && (NeedsStartBeforeDrain(s.pcm, s.wroteSincePrepare) <==>
                Prepare(Drain(s)).discarded > s.discarded)
            && Prepare(Drain(s)).discarded - s.discarded <= buffer - period
  {
    RunKeepsInv(Open(buffer, period), ops);
  }

  /** One park and resume throws frames away if and only if a start was needed and failed. */
  lemma ParkDiscardsOnlyOnFailedStart(buffer: nat, period: nat, ops: seq<Op>, started: bool)
    requires 0 < period <= buffer
    ensures var s := Run(Open(buffer, period), ops);
            Prepare(AfterPark(s, started)).discarded == s.discarded <==>
            (started || !NeedsStartBeforeDrain(s.pcm, s.wroteSincePrepare))
  {
    RunKeepsInv(Open(buffer, period), ops);
  }

  /** A write only ever blocks on a stream that is playing, so it cannot block for ever. */
  lemma OnlyAPlayingStreamBlocks(buffer: nat, period: nat, ops: seq<Op>, n: nat)
    requires 0 < period <= buffer && 0 < n <= period
    ensures var s := Run(Open(buffer, period), ops);
            s.pcm != Setup && After(s, Write(n)) == s ==> s.pcm == Running
  {
    RunKeepsInv(Open(buffer, period), ops);
  }

  /** A backend that only drained would swallow any sound shorter than the threshold. */
  lemma DrainAloneSwallows(buffer: nat, period: nat, n: nat)
    requires 0 < n <= period && period + n < buffer
    ensures var s := Run(Open(buffer, period), [Write(n)]);
            s.accepted == n && Prepare(Drain(s)).discarded == n
            && Prepare(AfterPark(s, true)).played == n
  {
  }

  /** The render thread's side of the device, with the device's own counters. */
  class RenderThread {
    const buffer: nat
    const period: nat
    var pcm: Pcm
    var wroteSincePrepare: bool
    var queued: nat
    var accepted: nat
    var played: nat
    var discarded: nat
    var refused: nat

    ghost function View(): Stream
      reads this
    { Stream(buffer, period, pcm, wroteSincePrepare, queued, accepted, played, discarded, refused) }

    constructor (buffer: nat, period: nat)
      requires 0 < period <= buffer
      ensures View() == Open(buffer, period)
    {
      this.buffer, this.period := buffer, period;
      pcm, wroteSincePrepare := Prepared, false;
      queued, accepted, played, discarded, refused := 0, 0, 0, 0, 0;
    }

    method PrepareDevice()
      modifies this
      ensures View() == Prepare(old(View()))
    {
      discarded := discarded + queued;
      queued := 0;
      pcm := Prepared;
      wroteSincePrepare := false;
    }

    method DrainDevice()
      modifies `pcm, `queued, `played
      ensures View() == Drain(old(View()))
    {
      if pcm == Running {
        played := played + queued;
        queued := 0;
        pcm := Setup;
      } else if pcm == Underrun {
        pcm := Setup;
      }
    }

    /** The bottom of a pass: write, then recover if the device had underrun. */
    method WritePass(n: nat) returns (written: int)
      requires 0 < n <= period
      modifies this
      ensures View() == AfterWrite(old(View()), n)
      ensures written > 0 <==> accepted > old(accepted)
      ensures written < 0 <==> old(pcm) == Underrun
    {
      if pcm == Underrun {
        refused := refused + n;
        PrepareDevice();
        return -1;
      }
      if pcm == Setup || queued + n > buffer { return 0; }
      queued := queued + n;
      accepted := accepted + n;
      wroteSincePrepare := true;
      if pcm == Prepared && queued >= buffer - period { pcm := Running; }
      return n;
    }

    method ParkDevice(started: bool)
      modifies this
      ensures View() == AfterPark(old(View()), started)
      ensures Inv(old(View())) && started ==> queued == 0
    {
      if NeedsStartBeforeDrain(pcm, wroteSincePrepare) && started { pcm := Running; }
      DrainDevice();
    }
  }
}
