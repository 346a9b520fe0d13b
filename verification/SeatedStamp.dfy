/** The LOADED status that the CFS and ACE backends write over the seated slot.

    Firmware states the seated lane and the filament at the nozzle apart from the per-slot
    statuses, so the backend derives LOADED and writes it over the parsed status, remembering
    what was there. Every frame undoes the stamp and ends by deriving it again. The parser that
    never stamps is the reference: undoing the stamp must give its statuses.

    A lane also keeps what its slot was last sensed to hold, filed from the same statuses, and
    painting a slot from its lane narrows the status by it. On the CFS the bays of a box that is
    off the bus are placeholders; they keep the reading from before. */
module SeatedStamp {
  import opened Wrappers

  datatype Status = Unknown | Empty | Available | Loaded | FromBuffer | Blocked

  /** The slots of all units in order, which of them stand for an absent box, and each lane's
      sensed reading. */
  datatype Bays = Bays(statuses: seq<Status>, absent: set<nat>, sensed: map<nat, bool>)

  /** `stamp` is -1 when no stamp is outstanding. `pathEmpty` is false throughout on a CFS. */
  datatype Slots = Slots(
    bays: Bays, stamp: int, saved: Status,
    seatLoaded: bool, pathEmpty: bool, current: int, published: bool)

  datatype Entry = Reports(status: Status) | AbsentBay

  /** What a frame does between undoing the stamp and deriving it: state one slot's status, name
      every bay, or paint a slot from its lane. */
  datatype Parse =
    | Write(slot: nat, status: Status)
    | Rebuild(entries: seq<Entry>)
    | Converge(slot: nat)

  /** `Kept` is a frame that names no seat while a load is under way, or describes no unit. */
  datatype Seat = Kept | At(slot: int)

  /** A frame may change the number of slots before it undoes the stamp. `InfoReset` is the answer
      that names the slot count. `LaneRepaint` is a stored or Spoolman record arriving. */
  datatype Event =
    | Frame(resize: Option<nat>, parses: seq<Parse>, seatLoaded: bool, pathEmpty: bool, seat: Seat)
    | Optimistic(seatLoaded: bool, current: int)
    | Edit(slot: nat)
    | LaneRepaint(slot: nat)
    | InfoReset(size: nat)

  datatype Kind = Cfs | Ace

  /** The CFS rebuilds its bays whole and converges them; the ACE states slots one by one, and
      paints them within its frames only. */
  predicate Belongs(kind: Kind, e: Event) {
    match e
    case Frame(resize, parses, _, pathEmpty, _) =>
      kind.Cfs? ==> resize.None? && !pathEmpty && forall p :: p in parses ==> !p.Write?
    case Optimistic(_, _) => true
    case Edit(_) => kind.Cfs?
    case LaneRepaint(_) => kind.Cfs?
    case InfoReset(_) => kind.Ace?
  }

  predicate AllBelong(kind: Kind, es: seq<Event>) { forall e :: e in es ==> Belongs(kind, e) }

  // ---------------------------------------------------------------- statuses and presence

  function ReportsFilament(status: Status): Option<bool> {
    match status case Empty => Some(false) case Unknown => None case _ => Some(true)
  }

  function Narrow(status: Status, present: bool): Status {
    if !present then Empty else if status == Empty || status == Unknown then Available else status
  }

  function Lookup(sensed: map<nat, bool>, k: nat): Option<bool> { if k in sensed then Some(sensed[k]) else None }

  function Presence(b: Bays, k: nat): Option<bool> { Lookup(b.sensed, k) }

  /** A reading is filed whole, so a status that states no presence retracts the last one. */
  function Sense(sensed: map<nat, bool>, k: nat, status: Status): map<nat, bool> {
    match ReportsFilament(status) case Some(present) => sensed[k := present] case None => sensed - {k}
  }

  function SenseAll(sensed: map<nat, bool>, entries: seq<Entry>): map<nat, bool> {
    if entries == [] then sensed
    else
      var last := |entries| - 1;
      var r := SenseAll(sensed, entries[..last]);
      if entries[last].AbsentBay? then r else Sense(r, last, entries[last].status)
  }

  lemma {:induction false} SenseAllFiles(sensed: map<nat, bool>, entries: seq<Entry>, k: nat)
    ensures Lookup(SenseAll(sensed, entries), k) ==
      if k < |entries| && entries[k].Reports? then ReportsFilament(entries[k].status) else Lookup(sensed, k)
  {
    if entries != [] { SenseAllFiles(sensed, entries[..|entries| - 1], k); }
  }

  function StatusOf(e: Entry): Status { if e.Reports? then e.status else Empty }

  predicate Has<T>(v: seq<T>, k: int) { 0 <= k < |v| }

  function Painted(b: Bays, k: nat): Bays {
    if Has(b.statuses, k) && k in b.sensed
    then b.(statuses := b.statuses[k := Narrow(b.statuses[k], b.sensed[k])])
    else b
  }

  function Parsed(b: Bays, p: Parse): Bays {
    match p
    case Write(k, status) =>
      if Has(b.statuses, k)
      then b.(statuses := b.statuses[k := status], sensed := Sense(b.sensed, k, status))
      else b
    case Rebuild(entries) =>
      if entries == [] then b
      else Bays(
        seq(|entries|, i requires 0 <= i < |entries| => StatusOf(entries[i])),
        set i: nat | i < |entries| && entries[i].AbsentBay? :: i,
        SenseAll(b.sensed, entries))
    case Converge(k) => if k in b.absent then b else Painted(b, k)
  }

  function ParsedAll(b: Bays, ps: seq<Parse>): Bays
    decreases |ps|
  {
    if ps == [] then b else ParsedAll(Parsed(b, ps[0]), ps[1..])
  }

  function Resized(b: Bays, resize: Option<nat>): Bays {
    if resize.None? then b
    else if resize.value <= |b.statuses| then b.(statuses := b.statuses[..resize.value])
    else b.(statuses := b.statuses + seq(resize.value - |b.statuses|, _ => Unknown))
  }

  function Renewed(b: Bays, n: nat): Bays {
    if n == |b.statuses| then b else b.(statuses := seq(n, _ => Unknown))
  }

  /** The dispatch refuses a bay that is not there or whose box is absent. */
  predicate Editable(b: Bays, k: nat) { Has(b.statuses, k) && k !in b.absent }

  // ---------------------------------------------------------------- the stamp

  predicate Visible(s: Slots) { Has(s.bays.statuses, s.stamp) && s.bays.statuses[s.stamp] == Loaded }

  function Put(b: Bays, k: int, status: Status): Bays
    requires Has(b.statuses, k)
  {
    b.(statuses := b.statuses[k := status])
  }

  function Clear(s: Slots): Slots {
    if s.stamp < 0 then s
    else s.(bays := if Visible(s) then Put(s.bays, s.stamp, s.saved) else s.bays, stamp := -1, saved := Unknown)
  }

  function Apply(s: Slots): Slots {
    var c := Clear(s);
    var loaded := c.seatLoaded && !c.pathEmpty;
    if loaded && Has(c.bays.statuses, c.current) then
      c.(published := loaded, stamp := c.current, saved := c.bays.statuses[c.current],
         bays := Put(c.bays, c.current, Loaded))
    else c.(published := loaded)
  }

  function SeatAfter(s: Slots, seat: Seat): int { match seat case Kept => s.current case At(k) => k }

  function Next(s: Slots, e: Event): Slots {
    match e
    case Frame(resize, parses, seatLoaded, pathEmpty, seat) =>
      var c := Clear(s.(bays := Resized(s.bays, resize)));
      Apply(c.(bays := ParsedAll(c.bays, parses),
               seatLoaded := seatLoaded, pathEmpty := pathEmpty, current := SeatAfter(s, seat)))
    case Optimistic(seatLoaded, current) => Apply(s.(seatLoaded := seatLoaded, current := current))
    case Edit(k) => if Editable(s.bays, k) then s.(bays := Painted(s.bays, k)) else s
    case LaneRepaint(k) => s.(bays := Painted(s.bays, k))
    case InfoReset(n) => s.(bays := Renewed(s.bays, n))
  }

  /** The parser that never stamps. */
  function NextTruth(b: Bays, e: Event): Bays {
    match e
    case Frame(resize, parses, _, _, _) => ParsedAll(Resized(b, resize), parses)
    case Optimistic(_, _) => b
    case Edit(k) => if Editable(b, k) then Painted(b, k) else b
    case LaneRepaint(k) => Painted(b, k)
    case InfoReset(n) => Renewed(b, n)
  }

  function Run(s: Slots, es: seq<Event>): Slots
    decreases |es|
  {
    if es == [] then s else Run(Next(s, es[0]), es[1..])
  }

  function RunTruth(b: Bays, es: seq<Event>): Bays
    decreases |es|
  {
    if es == [] then b else RunTruth(NextTruth(b, es[0]), es[1..])
  }

  const BOOT: Slots := Slots(Bays([], {}, map[]), -1, Unknown, false, false, -1, false)

  predicate Faithful(s: Slots, truth: Bays) { Clear(s).bays == truth }

  // ---------------------------------------------------------------- what a CFS bay was told

  /** A bay that reports was sensed as its status says. A placeholder is empty, or was painted. */
  ghost predicate Told(b: Bays) {
    forall k: nat :: k < |b.statuses| ==>
      if k in b.absent then b.statuses[k] in {Empty, Available}
      else Presence(b, k) == ReportsFilament(b.statuses[k])
  }

  /** So painting a reporting bay from its lane changes nothing. */
  lemma PaintingAReportingBay(b: Bays, k: nat)
    requires Told(b) && k !in b.absent
    ensures Painted(b, k) == b
  {
    if Has(b.statuses, k) && k in b.sensed {
      assert Presence(b, k) == ReportsFilament(b.statuses[k]);
      assert Painted(b, k).statuses == b.statuses;
    }
  }

  lemma RebuildIsTold(b: Bays, entries: seq<Entry>)
    requires Told(b)
    ensures Told(Parsed(b, Rebuild(entries)))
  {
    if entries != [] {
      var n := Parsed(b, Rebuild(entries));
      forall k: nat | k < |n.statuses| && k !in n.absent
        ensures Presence(n, k) == ReportsFilament(n.statuses[k])
      {
        SenseAllFiles(b.sensed, entries, k);
      }
    }
  }

  lemma {:induction false} ParsesAreTold(b: Bays, ps: seq<Parse>)
    requires Told(b) && forall p :: p in ps ==> !p.Write?
    ensures Told(ParsedAll(b, ps))
    decreases |ps|
  {
    if ps != [] {
      assert !ps[0].Write?;
      if ps[0].Rebuild? {
        RebuildIsTold(b, ps[0].entries);
      } else if ps[0].slot !in b.absent {
        PaintingAReportingBay(b, ps[0].slot);
      }
      ParsesAreTold(Parsed(b, ps[0]), ps[1..]);
    }
  }

  lemma StaysTold(b: Bays, e: Event)
    requires Told(b) && Belongs(Cfs, e)
    ensures Told(NextTruth(b, e))
  {
    match e
    case Frame(_, parses, _, _, _) => ParsesAreTold(b, parses);
    case Edit(k) => if Editable(b, k) { PaintingAReportingBay(b, k); }
    case LaneRepaint(k) => if k !in b.absent { PaintingAReportingBay(b, k); }
    case _ =>
  }

  // ---------------------------------------------------------------- undoing

  /** A lane record arriving for the seated bay of an absent box that was last sensed to hold
      filament: the paint goes under the stamp, where the placeholder's EMPTY is saved. */
  predicate Lost(s: Slots, e: Event) {
    && e.LaneRepaint?
    && e.slot == s.stamp && Visible(s) && s.saved == Empty
    && e.slot in s.bays.absent && Presence(s.bays, e.slot) == Some(true)
  }

  predicate NoneLost(s: Slots, es: seq<Event>)
    decreases |es|
  {
    es == [] || (!Lost(s, es[0]) && NoneLost(Next(s, es[0]), es[1..]))
  }

  /** Undoing gives the parser's slots now and after every event. */
  predicate AlwaysUndone(s: Slots, truth: Bays, es: seq<Event>)
    decreases |es|
  {
    Faithful(s, truth) && (es == [] || AlwaysUndone(Next(s, es[0]), NextTruth(truth, es[0]), es[1..]))
  }

  // ---------------------------------------------------------------- what a parse states

  /** A stated status is taken, its presence filed, and no other slot touched. */
  lemma WriteStates(b: Bays, k: nat, status: Status)
    requires k < |b.statuses|
    ensures var n := Parsed(b, Write(k, status));
            && |n.statuses| == |b.statuses| && n.absent == b.absent && n.statuses[k] == status
            && Presence(n, k) == (if status == Unknown then None else Some(status != Empty))
            && (forall i: nat :: i != k ==> Presence(n, i) == Presence(b, i))
            && (forall i :: 0 <= i < |b.statuses| && i != k ==> n.statuses[i] == b.statuses[i])
  {
  }

  /** A frame that describes the bays states every one: those of an absent box are empty, and keep
      their reading; one that describes none states none. */
  lemma RebuildStates(b: Bays, entries: seq<Entry>, k: nat)
    requires k < |entries|
    ensures var n := Parsed(b, Rebuild(entries));
            && |n.statuses| == |entries| && (k in n.absent <==> entries[k].AbsentBay?)
            && n.statuses[k] == (if entries[k].Reports? then entries[k].status else Empty)
            && Presence(n, k) == (if entries[k].AbsentBay? then Presence(b, k)
                                  else if entries[k].status == Unknown then None
                                  else Some(entries[k].status != Empty))
    ensures Parsed(b, Rebuild([])) == b
  {
    SenseAllFiles(b.sensed, entries, k);
  }

  /** Painting a slot from its lane: empty if sensed empty, available if sensed to hold filament where
      the status says neither; a frame paints no absent bay. */
  lemma PaintStates(b: Bays, k: nat)
    requires k < |b.statuses|
    ensures var n := Painted(b, k).statuses[k];
            n == match Presence(b, k)
                 case None => b.statuses[k]
                 case Some(present) =>
                   if !present then Empty
                   else if b.statuses[k] in {Empty, Unknown} then Available
                   else b.statuses[k]
    ensures Painted(b, k) == b.(statuses := b.statuses[k := Painted(b, k).statuses[k]])
    ensures Parsed(b, Converge(k)) == if k in b.absent then b else Painted(b, k)
  {
  }

  /** Slots beyond a new size go and new ones are unknown; a count that differs makes all unknown. */
  lemma SizesState(b: Bays, n: nat, k: nat)
    requires k < n
    ensures var r := Resized(b, Some(n));
            |r.statuses| == n && r.statuses[k] == if k < |b.statuses| then b.statuses[k] else Unknown
    ensures n != |b.statuses| ==> |Renewed(b, n).statuses| == n && Renewed(b, n).statuses[k] == Unknown
    ensures n == |b.statuses| ==> Renewed(b, n) == b
  {
  }

  // ---------------------------------------------------------------- undoing, step by step

  lemma ApplyIsUndone(s: Slots)
    ensures Clear(Apply(s)).bays == Clear(s).bays
  {
    var c, a := Clear(s), Apply(s);
    if a.stamp >= 0 { assert Clear(a).bays.statuses == c.bays.statuses; }
  }

  lemma ShrinkUndoes(s: Slots, truth: Bays, n: nat)
    requires Faithful(s, truth) && n <= |truth.statuses|
    ensures Faithful(s.(bays := Resized(s.bays, Some(n))), Resized(truth, Some(n)))
  {
    assert Clear(s.(bays := Resized(s.bays, Some(n)))).bays.statuses == truth.statuses[..n];
  }

  lemma GrowthUndoes(s: Slots, truth: Bays, n: nat)
    requires Faithful(s, truth) && n > |truth.statuses|
    ensures Faithful(s.(bays := Resized(s.bays, Some(n))), Resized(truth, Some(n)))
  {
    assert |s.bays.statuses| == |truth.statuses|;
    var more := seq(n - |truth.statuses|, _ => Unknown);
    assert Clear(s.(bays := Resized(s.bays, Some(n)))).bays.statuses == truth.statuses + more;
  }

  lemma ResizeUndoes(s: Slots, truth: Bays, resize: Option<nat>)
    requires Faithful(s, truth)
    ensures Faithful(s.(bays := Resized(s.bays, resize)), Resized(truth, resize))
  {
    match resize
    case None =>
    case Some(n) => if n <= |truth.statuses| { ShrinkUndoes(s, truth, n); } else { GrowthUndoes(s, truth, n); }
  }

  lemma FrameUndoes(s: Slots, truth: Bays, e: Event)
    requires Faithful(s, truth) && e.Frame?
    ensures Faithful(Next(s, e), NextTruth(truth, e))
  {
    ResizeUndoes(s, truth, e.resize);
    var c := Clear(s.(bays := Resized(s.bays, e.resize)));
    ApplyIsUndone(c.(bays := ParsedAll(c.bays, e.parses),
                     seatLoaded := e.seatLoaded, pathEmpty := e.pathEmpty, current := SeatAfter(s, e.seat)));
  }

  lemma ResetUndoes(s: Slots, truth: Bays, n: nat)
    requires Faithful(s, truth)
    ensures Faithful(s.(bays := Renewed(s.bays, n)), Renewed(truth, n))
  {
  }

  /** Painting over an outstanding stamp, exactly. */
  lemma PaintUndoesExactly(s: Slots, truth: Bays, k: nat)
    requires Faithful(s, truth)
    ensures Faithful(s.(bays := Painted(s.bays, k)), Painted(truth, k)) <==>
      !(k == s.stamp && Visible(s) && s.saved in {Empty, Unknown} && Presence(s.bays, k) == Some(true))
  {
    if Has(s.bays.statuses, k) && k in s.bays.sensed {
      var present := s.bays.sensed[k];
      var n, t := Clear(s.(bays := Painted(s.bays, k))).bays.statuses, Painted(truth, k).statuses;
      assert t == truth.statuses[k := Narrow(truth.statuses[k], present)];
      if k == s.stamp && Visible(s) {
        assert n == if present then truth.statuses else truth.statuses[k := Empty];
      } else {
        assert n == t;
      }
    }
  }

  lemma RepaintUndoesExactly(s: Slots, truth: Bays, k: nat)
    requires Faithful(s, truth) && Told(truth)
    ensures Faithful(Next(s, LaneRepaint(k)), NextTruth(truth, LaneRepaint(k))) <==> !Lost(s, LaneRepaint(k))
  {
    PaintUndoesExactly(s, truth, k);
    if k == s.stamp && Visible(s) {
      assert truth.statuses[k] == s.saved;
      assert Presence(truth, k) == Presence(s.bays, k);
    }
  }

  /** One event keeps undoing exact just when it is not the lost paint: an edit never breaks it. */
  lemma UndoesExactly(kind: Kind, s: Slots, truth: Bays, e: Event)
    requires Faithful(s, truth) && Belongs(kind, e) && (kind.Cfs? ==> Told(truth))
    ensures Faithful(Next(s, e), NextTruth(truth, e)) <==> !Lost(s, e)
  {
    match e
    case Frame(_, _, _, _, _) => FrameUndoes(s, truth, e);
    case Optimistic(seatLoaded, current) => ApplyIsUndone(s.(seatLoaded := seatLoaded, current := current));
    case Edit(k) =>
      RepaintUndoesExactly(s, truth, k);
      assert |s.bays.statuses| == |truth.statuses| && s.bays.absent == truth.absent;
    case LaneRepaint(k) => RepaintUndoesExactly(s, truth, k);
    case InfoReset(n) => ResetUndoes(s, truth, n);
  }

  lemma {:induction false} RunUndoesExactly(kind: Kind, s: Slots, truth: Bays, es: seq<Event>)
    requires Faithful(s, truth) && AllBelong(kind, es) && (kind.Cfs? ==> Told(truth))
    ensures AlwaysUndone(s, truth, es) <==> NoneLost(s, es)
    ensures NoneLost(s, es) ==> Faithful(Run(s, es), RunTruth(truth, es))
    decreases |es|
  {
    if es != [] {
      UndoesExactly(kind, s, truth, es[0]);
      if kind.Cfs? { StaysTold(truth, es[0]); }
      if !Lost(s, es[0]) {
        RunUndoesExactly(kind, Next(s, es[0]), NextTruth(truth, es[0]), es[1..]);
      }
    }
  }

  /** Over any run of either backend, undoing gives at every moment what a parser that never
      stamps holds, if and only if no lane record was painted under a stamp on the bay of an
      absent box. */
  lemma AlwaysUndoneExactly(kind: Kind, es: seq<Event>)
    requires AllBelong(kind, es)
    ensures AlwaysUndone(BOOT, BOOT.bays, es) <==> NoneLost(BOOT, es)
  {
    RunUndoesExactly(kind, BOOT, BOOT.bays, es);
  }

  /** Every lane record arrives for a bay whose box is on the bus. */
  predicate PaintsReportingBays(b: Bays, es: seq<Event>)
    decreases |es|
  {
    es == []
    || ((es[0].LaneRepaint? ==> es[0].slot !in b.absent) && PaintsReportingBays(NextTruth(b, es[0]), es[1..]))
  }

  lemma {:induction false} NothingIsLost(kind: Kind, s: Slots, truth: Bays, es: seq<Event>)
    requires Faithful(s, truth) && AllBelong(kind, es) && (kind.Cfs? ==> Told(truth))
    requires kind.Ace? || PaintsReportingBays(truth, es)
    ensures NoneLost(s, es)
    decreases |es|
  {
    if es != [] {
      assert s.bays.absent == truth.absent;
      UndoesExactly(kind, s, truth, es[0]);
      if kind.Cfs? { StaysTold(truth, es[0]); }
      NothingIsLost(kind, Next(s, es[0]), NextTruth(truth, es[0]), es[1..]);
    }
  }

  /** On an ACE always, and on a CFS whatever frames, optimistic writes, edits of any slot and
      records for reporting bays come in any order. */
  lemma UndoneIsWhatWasParsed(kind: Kind, es: seq<Event>)
    requires AllBelong(kind, es)
    requires kind.Ace? || PaintsReportingBays(BOOT.bays, es)
    ensures Clear(Run(BOOT, es)).bays == RunTruth(BOOT.bays, es)
  {
    NothingIsLost(kind, BOOT, BOOT.bays, es);
    RunUndoesExactly(kind, BOOT, BOOT.bays, es);
  }

  // ---------------------------------------------------------------- the lost paint

  function Converges(n: nat): seq<Parse> { seq(n, i requires 0 <= i < n => Converge(i)) }

  /** The pass over the lanes at the end of a CFS frame states nothing the frame did not. */
  lemma {:induction false} ConvergingChangesNothing(b: Bays, ps: seq<Parse>)
    requires Told(b) && forall p :: p in ps ==> p.Converge?
    ensures ParsedAll(b, ps) == b
    decreases |ps|
  {
    if ps != [] {
      assert ps[0].Converge?;
      if ps[0].slot !in b.absent { PaintingAReportingBay(b, ps[0].slot); }
      ConvergingChangesNothing(b, ps[1..]);
    }
  }

  function BoxFrame(entries: seq<Entry>, seatLoaded: bool, seat: Seat): Event {
    Frame(None, [Rebuild(entries)] + Converges(|entries|), seatLoaded, false, seat)
  }

  lemma BoxFrameStates(b: Bays, entries: seq<Entry>, seatLoaded: bool, seat: Seat)
    requires Told(b)
    ensures Belongs(Cfs, BoxFrame(entries, seatLoaded, seat))
    ensures NextTruth(b, BoxFrame(entries, seatLoaded, seat)) == Parsed(b, Rebuild(entries))
  {
    var ps := [Rebuild(entries)] + Converges(|entries|);
    assert ps[1..] == Converges(|entries|);
    RebuildIsTold(b, entries);
    ConvergingChangesNothing(Parsed(b, Rebuild(entries)), ps[1..]);
  }

  const BOTH_REPORT: seq<Entry> := seq(8, _ => Reports(Available))
  const FIRST_IS_ABSENT: seq<Entry> := seq(4, _ => AbsentBay) + seq(4, _ => Reports(Available))

  /** Two boxes of four bays report filament; bay 0 is loaded, and its box drops off the bus as
      the filament reaches the toolhead. A frame during a load that names no seat keeps it. */
  const DROPPED_MID_LOAD: seq<Event> := [
    BoxFrame(BOTH_REPORT, false, At(-1)), Optimistic(false, 0), BoxFrame(FIRST_IS_ABSENT, true, Kept)]

  lemma TheDroppedSeat()
    ensures AllBelong(Cfs, DROPPED_MID_LOAD) && NoneLost(BOOT, DROPPED_MID_LOAD)
    ensures var s := Run(BOOT, DROPPED_MID_LOAD); s.stamp == 0 && Lost(s, LaneRepaint(0))
    ensures var b := RunTruth(BOOT.bays, DROPPED_MID_LOAD);
            Told(b) && |b.statuses| == 8 && b.statuses[0] == Empty && Presence(b, 0) == Some(true)
  {
    var e0, e1, e2 := DROPPED_MID_LOAD[0], DROPPED_MID_LOAD[1], DROPPED_MID_LOAD[2];
    assert DROPPED_MID_LOAD[1..] == [e1, e2] && [e1, e2][1..] == [e2] && [e2][1..] == [];
    SenseAllFiles(map[], BOTH_REPORT, 0);
    var b0 := Parsed(BOOT.bays, Rebuild(BOTH_REPORT));
    SenseAllFiles(b0.sensed, FIRST_IS_ABSENT, 0);
    var b1 := Parsed(b0, Rebuild(FIRST_IS_ABSENT));
    BoxFrameStates(BOOT.bays, BOTH_REPORT, false, At(-1));
    RebuildIsTold(BOOT.bays, BOTH_REPORT);
    BoxFrameStates(b0, FIRST_IS_ABSENT, true, Kept);
    RebuildIsTold(b0, FIRST_IS_ABSENT);
    assert RunTruth(BOOT.bays, DROPPED_MID_LOAD) == RunTruth(b0, [e1, e2]) == RunTruth(b0, [e2]) == RunTruth(b1, []);
    var s0 := Next(BOOT, e0);
    assert s0 == BOOT.(bays := b0);
    var s1 := Next(s0, e1);
    assert s1 == s0.(current := 0);
    assert Next(s1, e2) == Slots(Put(b1, 0, Loaded), 0, Empty, true, false, 0, true);
    assert Run(BOOT, DROPPED_MID_LOAD) == Run(s1, [e2]) == Next(s1, e2);
    assert NoneLost(s1, [e2]) && NoneLost(s0, [e1, e2]);
  }

  /** Then the stored record of bay 0 is read again: the parser shows filament there, and undoing
      the stamp brings the placeholder's EMPTY back. */
  lemma AbsentSeatIsLost()
    ensures AllBelong(Cfs, DROPPED_MID_LOAD + [LaneRepaint(0)])
    ensures var es := DROPPED_MID_LOAD + [LaneRepaint(0)];
            var s, b := Clear(Run(BOOT, es)).bays, RunTruth(BOOT.bays, es);
            |s.statuses| == |b.statuses| == 8 && s.statuses[0] == Empty && b.statuses[0] == Available
  {
    TheDroppedSeat();
    RunUndoesExactly(Cfs, BOOT, BOOT.bays, DROPPED_MID_LOAD);
    RunEnds(BOOT, DROPPED_MID_LOAD, LaneRepaint(0));
    TruthEnds(BOOT.bays, DROPPED_MID_LOAD, LaneRepaint(0));
  }

  /** The loss lasts until a frame names the bays again, whatever was lost before it. */
  lemma RebuildHeals(s: Slots, truth: Bays, entries: seq<Entry>, seatLoaded: bool, seat: Seat)
    requires s.bays.sensed == truth.sensed && entries != []
    ensures var e := BoxFrame(entries, seatLoaded, seat); Faithful(Next(s, e), NextTruth(truth, e))
  {
    var e := BoxFrame(entries, seatLoaded, seat);
    var c := Clear(s);
    assert Parsed(c.bays, e.parses[0]) == Parsed(truth, e.parses[0]);
    ApplyIsUndone(c.(bays := ParsedAll(c.bays, e.parses),
                     seatLoaded := seatLoaded, pathEmpty := false, current := SeatAfter(s, seat)));
  }

  // ---------------------------------------------------------------- what is shown

  lemma ApplyShows(s: Slots)
    ensures var a, c := Apply(s), Clear(Apply(s)).bays.statuses;
            && a.published == (a.seatLoaded && !a.pathEmpty)
            && (a.stamp >= 0 <==> a.published && Has(c, a.current))
            && |a.bays.statuses| == |c|
            && (forall i :: 0 <= i < |c| ==> a.bays.statuses[i] == if i == a.stamp then Loaded else c[i])
            && (a.stamp >= 0 ==> a.stamp == a.current && a.saved == c[a.stamp])
  {
  }

  /** After a frame or an optimistic write the seated slot, and no other, differs from what was
      parsed; and the published seat, the stamp and the aggregate agree. */
  lemma OnlyTheSeatIsStamped(kind: Kind, es: seq<Event>, e: Event)
    requires AllBelong(kind, es + [e]) && NoneLost(BOOT, es + [e]) && (e.Frame? || e.Optimistic?)
    ensures var s, truth := Run(BOOT, es + [e]), RunTruth(BOOT.bays, es + [e]).statuses;
            && s.published == (s.seatLoaded && !s.pathEmpty)
            && (s.stamp >= 0 <==> s.published && Has(truth, s.current))
            && |s.bays.statuses| == |truth|
            && (forall i :: 0 <= i < |truth| ==> s.bays.statuses[i] == if i == s.stamp then Loaded else truth[i])
            && (s.stamp >= 0 ==> s.stamp == s.current && s.saved == truth[s.stamp])
            && s.seatLoaded == e.seatLoaded
            && s.pathEmpty == (if e.Frame? then e.pathEmpty else Run(BOOT, es).pathEmpty)
            && s.current == (if e.Optimistic? then e.current
                             else if e.seat.At? then e.seat.slot
                             else Run(BOOT, es).current)
  {
    RunUndoesExactly(kind, BOOT, BOOT.bays, es + [e]);
    RunEnds(BOOT, es, e);
    var before := Run(BOOT, es);
    match e
    case Frame(resize, parses, seatLoaded, pathEmpty, seat) =>
      var c := Clear(before.(bays := Resized(before.bays, resize)));
      ApplyShows(c.(bays := ParsedAll(c.bays, parses),
                    seatLoaded := seatLoaded, pathEmpty := pathEmpty, current := SeatAfter(before, seat)));
    case Optimistic(seatLoaded, current) => ApplyShows(before.(seatLoaded := seatLoaded, current := current));
  }

  predicate Forgotten(s: Slots) { s.stamp < 0 ==> s.stamp == -1 && s.saved == Unknown }

  /** Where no stamp is outstanding nothing of it is remembered. */
  lemma {:induction false} NoStampNoMemory(s: Slots, es: seq<Event>)
    requires Forgotten(s)
    ensures Forgotten(Run(s, es)) && Forgotten(Clear(Run(s, es)))
    decreases |es|
  {
    if es != [] { NoStampNoMemory(Next(s, es[0]), es[1..]); }
  }

  /** An edit shows nothing new, except that it takes the stamp off a seated bay that reported
      itself empty, until the next frame. */
  lemma EditShowsExactly(es: seq<Event>, k: nat)
    requires AllBelong(Cfs, es) && NoneLost(BOOT, es)
    ensures var s := Run(BOOT, es); var n := Next(s, Edit(k));
            n == if Editable(s.bays, k) && k == s.stamp && Visible(s) && s.saved == Empty
                 then s.(bays := Put(s.bays, k, Empty)) else s
  {
    RunUndoesExactly(Cfs, BOOT, BOOT.bays, es);
    RunIsTold(BOOT.bays, es);
    var s, truth := Run(BOOT, es), RunTruth(BOOT.bays, es);
    if Editable(s.bays, k) {
      assert Presence(s.bays, k) == ReportsFilament(truth.statuses[k]);
      assert truth.statuses[k] == if k == s.stamp && Visible(s) then s.saved else s.bays.statuses[k];
      if !(k == s.stamp && Visible(s) && s.saved == Empty) {
        assert Painted(s.bays, k).statuses == s.bays.statuses;
      }
    }
  }

  lemma {:induction false} RunIsTold(b: Bays, es: seq<Event>)
    requires AllBelong(Cfs, es) && Told(b)
    ensures Told(RunTruth(b, es))
    decreases |es|
  {
    if es != [] {
      StaysTold(b, es[0]);
      RunIsTold(NextTruth(b, es[0]), es[1..]);
    }
  }

  lemma {:induction false} RunEnds(s: Slots, es: seq<Event>, e: Event)
    ensures Run(s, es + [e]) == Next(Run(s, es), e)
    decreases |es|
  {
    if es == [] {
      assert [e][1..] == [];
    } else {
      assert (es + [e])[1..] == es[1..] + [e];
      RunEnds(Next(s, es[0]), es[1..], e);
    }
  }

  lemma {:induction false} TruthEnds(b: Bays, es: seq<Event>, e: Event)
    ensures RunTruth(b, es + [e]) == NextTruth(RunTruth(b, es), e)
    decreases |es|
  {
    if es == [] {
      assert [e][1..] == [];
    } else {
      assert (es + [e])[1..] == es[1..] + [e];
      TruthEnds(NextTruth(b, es[0]), es[1..], e);
    }
  }

  // ---------------------------------------------------------------- the backend

  class Backend {
    var statuses: seq<Status>
    var absent: set<nat>
    var sensed: map<nat, bool>
    var stamp: int
    var saved: Status
    var seatLoaded: bool
    var pathEmpty: bool
    var current: int
    var published: bool

    ghost function View(): Slots
      reads this
    { Slots(Bays(statuses, absent, sensed), stamp, saved, seatLoaded, pathEmpty, current, published) }

    constructor ()
      ensures View() == BOOT
    {
      statuses, absent, sensed := [], {}, map[];
      stamp, saved, current := -1, Unknown, -1;
      seatLoaded, pathEmpty, published := false, false, false;
    }

    method ClearSeatedSlotStamp()
      modifies `statuses, `stamp, `saved
      ensures View() == Clear(old(View()))
    {
      if stamp < 0 { return; }
      if stamp < |statuses| && statuses[stamp] == Loaded { statuses := statuses[stamp := saved]; }
      stamp := -1;
      saved := Unknown;
    }

    method ApplySeatedSlotStamp() returns (changed: bool)
      modifies `statuses, `stamp, `saved, `published
      ensures View() == Apply(old(View()))
      ensures changed <==> published != old(published)
    {
      ClearSeatedSlotStamp();
      var was := published;
      published := seatLoaded && !pathEmpty;
      changed := published != was;
      if !published || current < 0 || current >= |statuses| { return; }
      stamp := current;
      saved := statuses[current];
      statuses := statuses[current := Loaded];
    }

    /** Reaches an absent box's bay as well. */
    method RepaintSlotFromLane(slot: nat)
      modifies `statuses
      ensures View() == Next(old(View()), LaneRepaint(slot))
    {
      if slot < |statuses| && slot in sensed {
        statuses := statuses[slot := Narrow(statuses[slot], sensed[slot])];
      }
    }

    method EditSlot(slot: nat) returns (accepted: bool)
      modifies `statuses
      ensures View() == Next(old(View()), Edit(slot))
      ensures accepted <==> Editable(old(View()).bays, slot)
    {
      accepted := slot < |statuses| && slot !in absent;
      if accepted { RepaintSlotFromLane(slot); }
    }
  }
}
