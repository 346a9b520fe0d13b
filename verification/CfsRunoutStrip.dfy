/** The CFS runout strip: an exhausted spool's Spoolman link is dropped once, from one lane.

    The box latches a runout and the active lane is gone by the time the spool is pulled, so the
    lane is captured when the latch is seen to rise, and its link is dropped when that bay next
    reads empty. Observations of the box, passes over its bays, edits of links and optimistic
    writes of the active slot may come in any order. */
module CfsRunoutStrip {
  import opened Wrappers

  datatype Latch = Unseen | Clear | Tripped

  const NO_SLOT := -1
  const BYPASS := -2

  datatype Cfs = Cfs(latch: Latch, lane: int, current: int, linked: set<nat>, stripped: seq<nat>)

  /** One bay as a pass finds it; `cleared` if this pass already dropped its whole record. */
  datatype Bay = Bay(slot: nat, empty: bool, absent: bool, cleared: bool)

  /** `reported` is the slot the frame names, `described` whether it described the bays. */
  datatype Event =
    | Observe(reported: int, described: bool, loading: bool, runout: Option<bool>)
    | Converge(bays: seq<Bay>)
    | Link(slot: nat, on: bool)
    | SetCurrent(now: int)

  function Settled(current: int, e: Event): int
    requires e.Observe?
  {
    if e.reported >= 0 || e.reported == BYPASS then e.reported
    else if e.described && !e.loading then NO_SLOT
    else current
  }

  function Episode(s: Cfs, tripped: bool): Cfs {
    var n := s.(latch := if tripped then Tripped else Clear);
    if !tripped then n.(lane := if s.lane >= 0 then NO_SLOT else s.lane)
    else if s.latch != Clear then n
    else n.(lane := if s.current >= 0 then s.current else NO_SLOT)
  }

  function Strip(s: Cfs, bay: Bay): Cfs {
    if bay.absent || bay.cleared || s.lane != bay.slot || !bay.empty || bay.slot !in s.linked then s
    else s.(lane := NO_SLOT, linked := s.linked - {bay.slot}, stripped := s.stripped + [bay.slot])
  }

  function Pass(s: Cfs, bays: seq<Bay>): Cfs
    decreases |bays|
  {
    if bays == [] then s else Pass(Strip(s, bays[0]), bays[1..])
  }

  function Next(s: Cfs, e: Event): Cfs {
    match e
    case Observe(_, _, _, runout) =>
      var n := s.(current := Settled(s.current, e));
      if runout.Some? then Episode(n, runout.value) else n
    case Converge(bays) => Pass(s, bays)
    case Link(slot, on) => s.(linked := if on then s.linked + {slot} else s.linked - {slot})
    case SetCurrent(now) => s.(current := now)
  }

  const BOOT: Cfs := Cfs(Unseen, NO_SLOT, NO_SLOT, {}, [])

  function Run(es: seq<Event>): Cfs
    decreases |es|
  {
    if es == [] then BOOT else Next(Run(es[..|es| - 1]), es[|es| - 1])
  }

  // ---------------------------------------------------------------- one pass

  /** A bay of this pass that reads empty, is on the bus, keeps its record and has a link. */
  predicate Emptied(s: Cfs, bays: seq<Bay>) {
    && s.lane >= 0 && s.lane in s.linked
    && exists i :: 0 <= i < |bays| && bays[i] == Bay(s.lane, true, false, false)
  }

  lemma {:induction false} PassIdle(s: Cfs, bays: seq<Bay>)
    requires s.lane < 0
    ensures Pass(s, bays) == s
    decreases |bays|
  {
    if bays != [] { PassIdle(Strip(s, bays[0]), bays[1..]); }
  }

  /** A pass over the bays, whatever their order and however often one comes up, strips the
      captured lane once if it reads empty, and otherwise changes nothing. */
  lemma {:induction false} PassExactly(s: Cfs, bays: seq<Bay>)
    ensures Pass(s, bays) ==
            if Emptied(s, bays)
            then s.(lane := NO_SLOT, linked := s.linked - {s.lane}, stripped := s.stripped + [s.lane])
            else s
    decreases |bays|
  {
    if bays != [] {
      var n, rest := Strip(s, bays[0]), bays[1..];
      if n == s {
        PassExactly(s, rest);
        if Emptied(s, bays) {
          var i :| 0 <= i < |bays| && bays[i] == Bay(s.lane, true, false, false);
          assert i > 0 && rest[i - 1] == bays[i];
        }
        if Emptied(s, rest) {
          var i :| 0 <= i < |rest| && rest[i] == Bay(s.lane, true, false, false);
          assert bays[i + 1] == rest[i];
        }
      } else {
        assert bays[0] == Bay(s.lane, true, false, false);
        PassIdle(n, rest);
      }
    }
  }

  // ---------------------------------------------------------------- what was last said

  /** A frame that names a slot or the bypass, one that describes the bays and names none with no
      load under way, or an optimistic write. */
  predicate SaysCurrent(e: Event) {
    || e.SetCurrent?
    || (e.Observe? && (e.reported >= 0 || e.reported == BYPASS || (e.described && !e.loading)))
  }

  function CurrentSaid(e: Event): int
    requires SaysCurrent(e)
  {
    if e.SetCurrent? then e.now else if e.reported >= 0 || e.reported == BYPASS then e.reported else NO_SLOT
  }

  /** The last event that satisfies `p`, or -1. */
  function LastOf(es: seq<Event>, p: Event -> bool): (i: int)
    ensures -1 <= i < |es| && (i >= 0 ==> p(es[i])) && forall j :: i < j < |es| ==> !p(es[j])
    decreases |es|
  {
    if es == [] then -1 else if p(es[|es| - 1]) then |es| - 1 else LastOf(es[..|es| - 1], p)
  }

  lemma PassKeepsCurrent(s: Cfs, bays: seq<Bay>)
    ensures Pass(s, bays).current == s.current && Pass(s, bays).latch == s.latch
  {
    PassExactly(s, bays);
  }

  /** The active slot is what was last said of it, and the latch what was last reported. */
  lemma {:induction false} LastSaidStands(es: seq<Event>)
    ensures var i := LastOf(es, SaysCurrent); Run(es).current == if i < 0 then NO_SLOT else CurrentSaid(es[i])
    ensures var i := LastOf(es, SaysRunout);
            Run(es).latch == if i < 0 then Unseen else if es[i].runout == Some(true) then Tripped else Clear
    decreases |es|
  {
    if es != [] {
      var before, e := es[..|es| - 1], es[|es| - 1];
      LastSaidStands(before);
      if e.Converge? { PassKeepsCurrent(Run(before), e.bays); }
    }
  }

  predicate SaysRunout(e: Event) { e.Observe? && e.runout.Some? }

  /** A bay is linked exactly if it was linked, and not unlinked or stripped since. */
  ghost predicate LinkStands(es: seq<Event>, slot: nat) { exists i :: LinkedAt(es, slot, i) }

  predicate LinkedAt(es: seq<Event>, slot: nat, i: int) {
    0 <= i < |es| && es[i] == Link(slot, true) && Untouched(es, slot, i + 1)
  }

  predicate Untouched(es: seq<Event>, slot: nat, from: int)
    requires 0 <= from
  {
    forall j :: from <= j < |es| ==> es[j] != Link(slot, false) && !StripsSlot(es, slot, j)
  }

  /** The pass at `j` strips this bay. */
  predicate StripsSlot(es: seq<Event>, slot: nat, j: int)
    requires 0 <= j < |es|
  {
    es[j].Converge? && Run(es[..j]).lane == slot && Emptied(Run(es[..j]), es[j].bays)
  }

  lemma LinkStep(s: Cfs, e: Event, slot: nat)
    ensures slot in Next(s, e).linked <==>
            e == Link(slot, true)
            || (slot in s.linked && e != Link(slot, false)
                && !(e.Converge? && s.lane == slot && Emptied(s, e.bays)))
  {
    if e.Converge? { PassExactly(s, e.bays); }
  }

  lemma UntouchedLater(es: seq<Event>, e: Event, slot: nat, from: nat)
    requires from <= |es|
    ensures Untouched(es + [e], slot, from) <==>
            Untouched(es, slot, from) && e != Link(slot, false) && !StripsSlot(es + [e], slot, |es|)
  {
    var n := es + [e];
    forall j | from <= j < |es|
      ensures n[j] == es[j] && (StripsSlot(n, slot, j) <==> StripsSlot(es, slot, j))
    {
      assert n[..j] == es[..j];
    }
    assert n[|es|] == e;
    if Untouched(n, slot, from) {
      forall j | from <= j < |es| ensures es[j] != Link(slot, false) && !StripsSlot(es, slot, j) {
        assert n[j] != Link(slot, false) && !StripsSlot(n, slot, j);
      }
    }
  }

  lemma LinkedAtLater(es: seq<Event>, e: Event, slot: nat, i: int)
    ensures LinkedAt(es + [e], slot, i) <==>
            if i == |es| then e == Link(slot, true)
            else LinkedAt(es, slot, i) && e != Link(slot, false) && !StripsSlot(es + [e], slot, |es|)
  {
    if 0 <= i < |es| {
      UntouchedLater(es, e, slot, i + 1);
      assert (es + [e])[i] == es[i];
    }
  }

  lemma LinkStandsLater(es: seq<Event>, e: Event, slot: nat)
    ensures LinkStands(es + [e], slot) <==>
            e == Link(slot, true)
            || (LinkStands(es, slot) && e != Link(slot, false) && !StripsSlot(es + [e], slot, |es|))
  {
    var n := es + [e];
    LinkedAtLater(es, e, slot, |es|);
    if i :| LinkedAt(n, slot, i) { LinkedAtLater(es, e, slot, i); }
    if i :| LinkedAt(es, slot, i) { LinkedAtLater(es, e, slot, i); }
  }

  lemma {:induction false} LinkedExactly(es: seq<Event>, slot: nat)
    ensures slot in Run(es).linked <==> LinkStands(es, slot)
    decreases |es|
  {
    if es != [] {
      var before, e := es[..|es| - 1], es[|es| - 1];
      assert es == before + [e] && es[..|before|] == before;
      LinkedExactly(before, slot);
      LinkStep(Run(before), e, slot);
      LinkStandsLater(before, e, slot);
    }
  }

  // ---------------------------------------------------------------- episodes

  /** Event `r` saw the latch rise from clear, with a bay active. */
  predicate Rise(es: seq<Event>, r: int) {
    && 0 <= r < |es| && es[r].Observe? && es[r].runout == Some(true)
    && Run(es[..r]).latch == Clear && Settled(Run(es[..r]).current, es[r]) >= 0
  }

  predicate SeesClear(e: Event) { e.Observe? && e.runout == Some(false) }

  predicate StripsAt(es: seq<Event>, k: int) {
    0 <= k < |es| && es[k].Converge? && Emptied(Run(es[..k]), es[k].bays)
  }

  /** The episode of the rise at `r`, of `lane`, is still open. */
  predicate Open(es: seq<Event>, r: int, lane: int) {
    && Rise(es, r) && lane == Settled(Run(es[..r]).current, es[r])
    && forall k :: r < k < |es| ==> !SeesClear(es[k]) && !StripsAt(es, k)
  }

  lemma Prefix(es: seq<Event>, n: nat, i: nat)
    requires i <= n <= |es|
    ensures es[..n][..i] == es[..i]
  {
  }

  lemma OpenLater(es: seq<Event>, r: int, lane: int)
    requires es != []
    ensures var n := |es| - 1;
            Open(es, r, lane) <==>
            (if r == n then Rise(es, n) && lane == Settled(Run(es[..n]).current, es[n])
             else Open(es[..n], r, lane) && !SeesClear(es[n]) && !StripsAt(es, n))
  {
    var n := |es| - 1;
    if 0 <= r < n {
      Prefix(es, n, r);
      assert Rise(es[..n], r) <==> Rise(es, r);
      forall k | r < k < n ensures es[..n][k] == es[k] && (StripsAt(es[..n], k) <==> StripsAt(es, k)) {
        Prefix(es, n, k);
      }
    }
  }

  predicate LaneInv(s: Cfs) { s.lane >= NO_SLOT && (s.lane >= 0 ==> s.latch == Tripped) }

  /** How one step moves the captured lane. */
  lemma LaneStep(s: Cfs, e: Event)
    requires LaneInv(s)
    ensures LaneInv(Next(s, e))
    ensures var n := Next(s, e);
            n.lane == if e.Observe? && e.runout == Some(true) && s.latch == Clear
                        then (if Settled(s.current, e) >= 0 then Settled(s.current, e) else NO_SLOT)
                      else if SeesClear(e) || (e.Converge? && Emptied(s, e.bays)) then NO_SLOT
                      else s.lane
  {
    if e.Converge? { PassExactly(s, e.bays); }
  }

  lemma {:induction false} RunKeepsLane(es: seq<Event>)
    ensures LaneInv(Run(es))
    decreases |es|
  {
    if es != [] {
      RunKeepsLane(es[..|es| - 1]);
      LaneStep(Run(es[..|es| - 1]), es[|es| - 1]);
    }
  }

  lemma {:induction false} OpenHoldsLane(es: seq<Event>, r: int, lane: int)
    requires Open(es, r, lane)
    ensures Run(es).lane == lane && Run(es).latch == Tripped
    decreases |es|
  {
    var n := |es| - 1;
    OpenLater(es, r, lane);
    RunKeepsLane(es[..n]);
    LaneStep(Run(es[..n]), es[n]);
    if r < n {
      OpenHoldsLane(es[..n], r, lane);
    }
  }

  lemma {:induction false} LaneWasCaptured(es: seq<Event>) returns (r: int)
    requires Run(es).lane >= 0
    ensures Open(es, r, Run(es).lane)
    decreases |es|
  {
    var n := |es| - 1;
    RunKeepsLane(es[..n]);
    LaneStep(Run(es[..n]), es[n]);
    if Rise(es, n) {
      r := n;
    } else {
      r := LaneWasCaptured(es[..n]);
    }
    OpenLater(es, r, Run(es).lane);
  }

  /** A lane is captured exactly while an episode is open: a rise this session witnessed, with a
      bay active, since when the latch was not seen clear and nothing was stripped. The bypass is
      never a captured lane. */
  lemma CapturedExactly(es: seq<Event>, lane: int)
    requires lane >= 0
    ensures Run(es).lane == lane <==> exists r :: Open(es, r, lane)
    ensures Run(es).lane >= NO_SLOT
  {
    RunKeepsLane(es);
    if Run(es).lane == lane {
      var r := LaneWasCaptured(es);
      assert Open(es, r, lane);
    }
    if r :| Open(es, r, lane) { OpenHoldsLane(es, r, lane); }
  }

  /** A pass strips a lane exactly if the open episode is that lane's, the bay reads empty and a
      link is there; it strips no other lane, and this one once. */
  lemma StripsExactly(es: seq<Event>, bays: seq<Bay>, lane: nat)
    ensures var s, n := Run(es), Next(Run(es), Converge(bays));
            && (n.stripped == s.stripped + [lane] <==>
                (exists r :: Open(es, r, lane)) && lane in s.linked && Bay(lane, true, false, false) in bays)
            && (n.stripped == s.stripped || (s.lane >= 0 && n.stripped == s.stripped + [s.lane]))
            && n.linked == s.linked - (if n.stripped == s.stripped then {} else {s.lane})
  {
    var s, n := Run(es), Next(Run(es), Converge(bays));
    PassExactly(s, bays);
    CapturedExactly(es, lane);
    RunKeepsLane(es);
    if s.lane >= 0 {
      assert Emptied(s, bays) <==> s.lane in s.linked && Bay(s.lane, true, false, false) in bays;
      assert (s.stripped + [s.lane])[|s.stripped|] == s.lane;
      assert (s.stripped + [lane])[|s.stripped|] == lane;
    }
    assert |s.stripped + [lane]| == |s.stripped| + 1;
  }

  /** Strips inject into rises: each has its own, and a later strip's rise comes after the
      earlier strip. */
  lemma StripsInjectIntoRises(es: seq<Event>, k1: int, k2: int, r1: int, r2: int, l1: int, l2: int)
    requires k1 < k2 && StripsAt(es, k1) && StripsAt(es, k2)
    requires Open(es[..k1], r1, l1) && Open(es[..k2], r2, l2)
    ensures r1 < k1 < r2 < k2
    ensures l1 == Run(es[..k1]).lane && l2 == Run(es[..k2]).lane
  {
    OpenHoldsLane(es[..k1], r1, l1);
    OpenHoldsLane(es[..k2], r2, l2);
    Prefix(es, k2, k1);
    assert StripsAt(es[..k2], k1);
    assert es[..k2][r2].Observe? && es[k1].Converge?;
  }

  /** The rise of a strip is found, and is the only one. */
  lemma EachStripHasItsRise(es: seq<Event>, k: int) returns (r: int)
    requires StripsAt(es, k)
    ensures Open(es[..k], r, Run(es[..k]).lane)
    ensures forall q, lane :: Open(es[..k], q, lane) ==> q == r
  {
    r := LaneWasCaptured(es[..k]);
    forall q, lane | Open(es[..k], q, lane) ensures q == r {
      var lo, hi := if q < r then q else r, if q < r then r else q;
      if lo < hi {
        var p := es[..k];
        OpenPrefix(p, lo, hi, if q < r then lane else Run(p).lane);
        OpenHoldsLane(p[..hi], lo, if q < r then lane else Run(p).lane);
      }
    }
  }

  lemma OpenPrefix(es: seq<Event>, r: int, n: int, lane: int)
    requires Open(es, r, lane) && r < n <= |es|
    ensures Open(es[..n], r, lane)
  {
    Prefix(es, n, r);
    forall k | r < k < n ensures !SeesClear(es[..n][k]) && !StripsAt(es[..n], k) { Prefix(es, n, k); }
  }

  /** A session that never sees the latch clear strips nothing, even if it starts tripped. */
  lemma NoClearNoStrip(es: seq<Event>)
    requires forall i :: 0 <= i < |es| ==> !SeesClear(es[i])
    ensures Run(es).lane < 0
  {
    if Run(es).lane >= 0 {
      var r := LaneWasCaptured(es);
      ClearWasSeen(es[..r]);
    }
  }

  lemma {:induction false} ClearWasSeen(es: seq<Event>)
    requires Run(es).latch == Clear
    ensures exists i :: 0 <= i < |es| && SeesClear(es[i])
    decreases |es|
  {
    var n := |es| - 1;
    if !SeesClear(es[n]) {
      if es[n].Converge? { PassExactly(Run(es[..n]), es[n].bays); }
      ClearWasSeen(es[..n]);
      var i :| 0 <= i < n && SeesClear(es[..n][i]);
      assert SeesClear(es[i]);
    }
  }

  // ---------------------------------------------------------------- the backend

  class Backend {
    var latch: Latch
    var lane: int
    var current: int
    var linked: set<nat>
    ghost var stripped: seq<nat>

    ghost function View(): Cfs
      reads this
    { Cfs(latch, lane, current, linked, stripped) }

    constructor ()
      ensures View() == BOOT
    {
      latch, lane, current, linked, stripped := Unseen, NO_SLOT, NO_SLOT, {}, [];
    }

    method UpdateRunoutEpisode(tripped: bool)
      modifies `latch, `lane
      ensures View() == Episode(old(View()), tripped)
    {
      var previous := latch;
      latch := if tripped then Tripped else Clear;
      if !tripped {
        if lane >= 0 { lane := NO_SLOT; }
        return;
      }
      if previous != Clear { return; }
      lane := current;
      if lane < 0 { lane := NO_SLOT; }
    }

    method StripSpoolmanLink(slot: nat, empty: bool)
      modifies `lane, `linked, `stripped
      ensures View() == Strip(old(View()), Bay(slot, empty, false, false))
    {
      if lane != slot || !empty { return; }
      if slot !in linked { return; }
      linked := linked - {slot};
      stripped := stripped + [slot];
      lane := NO_SLOT;
    }

    method ConvergeLanes(bays: seq<Bay>)
      modifies `lane, `linked, `stripped
      ensures View() == Pass(old(View()), bays)
    {
      for i := 0 to |bays|
        invariant Pass(old(View()), bays) == Pass(View(), bays[i..])
      {
        assert bays[i..][0] == bays[i] && bays[i..][1..] == bays[i + 1..];
        if !bays[i].absent && !bays[i].cleared { StripSpoolmanLink(bays[i].slot, bays[i].empty); }
      }
    }
  }
}
