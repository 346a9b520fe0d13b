/** Telling the echo of our own spool-id write from another writer's change.

    A write to the firmware is asynchronous: until it lands, status frames keep naming the old
    id while the lane already declares the new one. The base backend remembers the pair and
    ends the expectation on the first frame that names anything positive but the old id. The
    lane model puts that against a firmware that applies writes in order, as late as it likes. */
module OwnWrite {
  datatype Expectation = Nothing | Pending(old_: int, new_: int)
  datatype Verdict = Holds | Rebound | Ejected
  datatype Settings = Settings(reportsIds: bool, keepOnEject: bool)

  // ---------------------------------------------------------------- the rules

  function Record(e: Expectation, newId: int, previous: int): Expectation {
    if newId <= 0 then Nothing
    else if e.Pending? && previous == e.new_ then Pending(e.old_, newId)
    else Pending(previous, newId)
  }

  predicate Ends(e: Expectation, firmwareId: int) {
    e.Pending? && (firmwareId == e.new_ || (firmwareId > 0 && firmwareId != e.old_))
  }

  function Consult(e: Expectation, firmwareId: int): Expectation {
    if Ends(e, firmwareId) then Nothing else e
  }

  /** The pair handed to the classifier: zeroes when nothing is expected. */
  function Pair(e: Expectation): (int, int) { if e.Pending? then (e.old_, e.new_) else (0, 0) }

  function Classify(g: Settings, declared: int, firmwareId: int, own: (int, int)): Verdict {
    if firmwareId > 0 && declared > 0 && firmwareId != declared
       && firmwareId != own.0 && firmwareId != own.1 then Rebound
    else if g.reportsIds && firmwareId <= 0 && declared > 0 && !g.keepOnEject then Ejected
    else Holds
  }

  /** What one lane knows, and where the firmware stands: `inFlight` holds our writes it has
      not applied, oldest first. */
  datatype Lane = Lane(
    declared: int, expected: Expectation, reported: int, firmware: int, inFlight: seq<int>)

  datatype Action = Edit(id: nat) | Land | Frame | Eject | Other(id: nat)

  /** The id painted on the lane, which an edit takes for the one firmware reported: the
      declared one, and firmware's own only where nothing is declared. */
  function Shown(l: Lane): int { if l.declared > 0 then l.declared else l.reported }

  function Read(g: Settings, l: Lane, firmwareId: int): (Verdict, Lane) {
    var e := Consult(l.expected, firmwareId);
    var v := Classify(g, l.declared, firmwareId, Pair(e));
    (v, l.(expected := e, reported := firmwareId, declared := if v == Holds then l.declared else 0))
  }

  function Next(g: Settings, l: Lane, a: Action): Lane {
    match a
    case Edit(id) =>
      l.(declared := id, expected := Record(l.expected, id, Shown(l)),
         inFlight := if id > 0 || Shown(l) > 0 then l.inFlight + [id] else l.inFlight)
    case Land => if l.inFlight == [] then l else l.(firmware := l.inFlight[0], inFlight := l.inFlight[1..])
    case Frame => Read(g, l, l.firmware).1
    case Eject => l.(firmware := 0)
    case Other(id) => l.(firmware := id)
  }

  function Run(g: Settings, l: Lane, acts: seq<Action>): Lane
    decreases |acts|
  {
    if acts == [] then l else Run(g, Next(g, l, acts[0]), acts[1..])
  }

  function Fresh(id: nat): Lane { Lane(0, Nothing, id, id, []) }

  // ---------------------------------------------------------------- one frame

  /** When a frame is taken for another writer's statement: it names a spool, the lane declares
      another, and it is not the stale id of a write still expected. */
  lemma ReboundExactly(g: Settings, l: Lane, firmwareId: int)
    ensures Read(g, l, firmwareId).0 == Rebound <==>
            firmwareId > 0 && l.declared > 0 && firmwareId != l.declared
            && !(l.expected.Pending? && firmwareId == l.expected.old_ && firmwareId != l.expected.new_)
  {
  }

  /** A frame reading `id` breaks no declaration. */
  predicate Harmless(g: Settings, old_: int, new_: int, echoed: bool, id: int) {
    if id <= 0 then !g.reportsIds || g.keepOnEject else id == new_ || (id == old_ && !echoed)
  }

  predicate AllHarmless(g: Settings, old_: int, new_: int, echoed: bool, ids: seq<int>) {
    forall i :: 0 <= i < |ids| ==> Harmless(g, old_, new_, echoed || new_ in ids[..i], ids[i])
  }

  function ReadAll(g: Settings, l: Lane, ids: seq<int>): Lane
    decreases |ids|
  {
    if ids == [] then l else ReadAll(g, Read(g, l, ids[0]).1, ids[1..])
  }

  lemma {:induction false} DroppedStaysDropped(g: Settings, l: Lane, ids: seq<int>)
    requires l.declared == 0
    ensures ReadAll(g, l, ids).declared == 0
    decreases |ids|
  {
    if ids != [] { DroppedStaysDropped(g, Read(g, l, ids[0]).1, ids[1..]); }
  }

  lemma HarmlessTail(g: Settings, old_: int, new_: int, echoed: bool, ids: seq<int>)
    requires ids != []
    ensures AllHarmless(g, old_, new_, echoed, ids) <==>
            Harmless(g, old_, new_, echoed, ids[0])
            && AllHarmless(g, old_, new_, echoed || ids[0] == new_, ids[1..])
  {
  }

  /** The declaration an edit filed survives a series of frames exactly when each names the id
      written, or the original id before the first echo, or no spool where that is not an
      eject. An id of the chain between the two is a third one, and breaks it. */
  lemma {:induction false} DeclarationSurvivesExactly(g: Settings, l: Lane, old_: int, ids: seq<int>)
    requires l.declared > 0
    requires l.expected == Nothing || l.expected == Pending(old_, l.declared)
    ensures ReadAll(g, l, ids).declared == l.declared <==>
            AllHarmless(g, old_, l.declared, l.expected == Nothing, ids)
    ensures ReadAll(g, l, ids).declared == l.declared || ReadAll(g, l, ids).declared == 0
    decreases |ids|
  {
    if ids != [] {
      var n := Read(g, l, ids[0]).1;
      HarmlessTail(g, old_, l.declared, l.expected == Nothing, ids);
      if n.declared == l.declared {
        if Harmless(g, old_, l.declared, l.expected == Nothing, ids[0]) {
          assert n.expected == Nothing <==> l.expected == Nothing || ids[0] == l.declared;
          DeclarationSurvivesExactly(g, n, old_, ids[1..]);
        }
      } else {
        DroppedStaysDropped(g, n, ids[1..]);
      }
    }
  }

  /** The expectation suppresses nothing once its echo was seen: it is spent by that frame. */
  lemma EchoIsSpentOnce(g: Settings, l: Lane, later: int)
    requires l.declared > 0 && l.expected.Pending? && l.expected.new_ == l.declared
    ensures var n := Read(g, l, l.declared).1;
            n.expected == Nothing && n.declared == l.declared
            && (Read(g, n, later).0 == Rebound <==> later > 0 && later != l.declared)
  {
  }

  // ---------------------------------------------------------------- a series of links

  function Edits(ids: seq<nat>): seq<Action> { seq(|ids|, i requires 0 <= i < |ids| => Edit(ids[i])) }

  /** The id in-flight frames go on naming: the one shown, unless that is itself a write of ours
      still expected. */
  function Original(l: Lane): int {
    if l.expected.Pending? && Shown(l) == l.expected.new_ then l.expected.old_ else Shown(l)
  }

  /** However many links are made one after another, the expectation runs from the original id to
      the last one, and the firmware has all of them to apply. */
  lemma {:induction false} ChainKeepsTheOriginal(g: Settings, l: Lane, ids: seq<nat>)
    requires ids != [] && forall id :: id in ids ==> id > 0
    ensures var last := ids[|ids| - 1];
            Run(g, l, Edits(ids)) ==
              Lane(last, Pending(Original(l), last), l.reported, l.firmware, l.inFlight + ids)
    decreases |ids|
  {
    var n := Next(g, l, Edit(ids[0]));
    assert ids[0] in ids && Edits(ids)[1..] == Edits(ids[1..]);
    assert n.inFlight + ids[1..] == l.inFlight + ids;
    if |ids| == 1 {
      assert Edits(ids[1..]) == [];
    } else {
      assert forall id :: id in ids[1..] ==> id in ids;
      ChainKeepsTheOriginal(g, n, ids[1..]);
    }
  }

  /** Our writes land and frames come; the user and other writers are quiet. */
  predicate Delivers(acts: seq<Action>) { forall a :: a in acts ==> a == Land || a == Frame }

  /** What the frames among `acts` read. */
  function Readings(firmware: int, inFlight: seq<int>, acts: seq<Action>): seq<int>
    decreases |acts|
  {
    if acts == [] then []
    else if acts[0] == Land && inFlight != [] then Readings(inFlight[0], inFlight[1..], acts[1..])
    else (if acts[0] == Frame then [firmware] else []) + Readings(firmware, inFlight, acts[1..])
  }

  lemma {:induction false} ReadAllIgnoresTheWire(g: Settings, l: Lane, m: Lane, ids: seq<int>)
    requires l.declared == m.declared && l.expected == m.expected
    ensures ReadAll(g, l, ids).declared == ReadAll(g, m, ids).declared
    decreases |ids|
  {
    if ids != [] { ReadAllIgnoresTheWire(g, Read(g, l, ids[0]).1, Read(g, m, ids[0]).1, ids[1..]); }
  }

  lemma {:induction false} DeliveryIsReadings(g: Settings, l: Lane, acts: seq<Action>)
    requires Delivers(acts)
    ensures Run(g, l, acts).declared == ReadAll(g, l, Readings(l.firmware, l.inFlight, acts)).declared
    decreases |acts|
  {
    if acts != [] {
      assert acts[0] in acts && forall a :: a in acts[1..] ==> a in acts;
      var n := Next(g, l, acts[0]);
      var rest := Readings(n.firmware, n.inFlight, acts[1..]);
      DeliveryIsReadings(g, n, acts[1..]);
      if acts[0] == Frame {
        assert ([l.firmware] + rest)[1..] == rest;
      } else {
        assert [] + rest == rest;
        ReadAllIgnoresTheWire(g, n, l, rest);
      }
    }
  }

  /** A chain of links made on any lane survives their delivery exactly when every frame reads the
      last id, or the original one before the last was first seen, or no spool where that is no
      eject. */
  lemma ChainSurvivesExactly(g: Settings, l: Lane, ids: seq<nat>, acts: seq<Action>)
    requires ids != [] && (forall id :: id in ids ==> id > 0) && Delivers(acts)
    ensures var last := ids[|ids| - 1];
            Run(g, Run(g, l, Edits(ids)), acts).declared == last <==>
              AllHarmless(g, Original(l), last, false, Readings(l.firmware, l.inFlight + ids, acts))
  {
    ChainKeepsTheOriginal(g, l, ids);
    var n := Run(g, l, Edits(ids));
    assert ids[|ids| - 1] in ids;
    DeliveryIsReadings(g, n, acts);
    DeclarationSurvivesExactly(g, n, Original(l), Readings(n.firmware, n.inFlight, acts));
  }

  // ---------------------------------------------------------------- one write at a time

  /** Nothing is in flight, and the last frame named what firmware holds. */
  predicate Settled(l: Lane) { l.inFlight == [] && l.reported == l.firmware }

  /** No other writer, and no edit while an earlier one is still under way. */
  predicate OneAtATime(g: Settings, l: Lane, acts: seq<Action>)
    decreases |acts|
  {
    acts == []
    || (!acts[0].Other? && (acts[0].Edit? ==> Settled(l)) && OneAtATime(g, Next(g, l, acts[0]), acts[1..]))
  }

  predicate Lone(l: Lane) {
    && l.declared >= 0 && l.reported >= 0 && l.firmware >= 0
    && (l.inFlight == [] || (|l.inFlight| == 1 && l.inFlight[0] >= 0))
    && (l.expected.Pending? ==> l.expected.new_ > 0 && l.expected.old_ >= 0)
    && (l.declared > 0 ==> Linked(l))
    && (l.declared == 0 && l.expected.Pending? ==> l.reported != l.expected.new_)
  }

  predicate Linked(l: Lane) {
    && (l.inFlight == [] || l.inFlight == [l.declared])
    && (l.firmware in {0, l.declared} || (l.expected.Pending? && l.firmware == l.expected.old_ && l.inFlight != []))
    && (l.expected.Pending? ==> l.expected.new_ == l.declared)
    && (l.expected.Pending? && l.reported == l.declared ==> l.expected.old_ == l.declared)
  }

  lemma StepKeepsLone(g: Settings, l: Lane, a: Action)
    requires Lone(l) && !a.Other? && (a.Edit? ==> Settled(l))
    ensures Lone(Next(g, l, a))
  {
  }

  /** The id of the last edit made, or `id` when there was none. */
  function LastEdit(id: int, acts: seq<Action>): int
    decreases |acts|
  {
    if acts == [] then id else LastEdit(if acts[0].Edit? then acts[0].id else id, acts[1..])
  }

  predicate Keeps(g: Settings) { !g.reportsIds || g.keepOnEject }

  lemma {:induction false} LoneRun(g: Settings, l: Lane, acts: seq<Action>)
    requires Lone(l) && OneAtATime(g, l, acts)
    ensures Lone(Run(g, l, acts))
    ensures Keeps(g) ==> Run(g, l, acts).declared == LastEdit(l.declared, acts)
    decreases |acts|
  {
    if acts != [] {
      StepKeepsLone(g, l, acts[0]);
      if acts[0] == Frame { ReboundExactly(g, l, l.firmware); }
      LoneRun(g, Next(g, l, acts[0]), acts[1..]);
    }
  }

  /** With at most one write of ours under way and no other writer, no frame is ever taken for a
      re-bind, however late the firmware applies the write and however often it empties the
      lane. Where an empty lane is not an eject, the lane always declares the last edit. */
  lemma OwnWritesAreNeverRebinds(g: Settings, id: nat, acts: seq<Action>)
    requires OneAtATime(g, Fresh(id), acts)
    ensures var l := Run(g, Fresh(id), acts);
            && Read(g, l, l.firmware).0 != Rebound
            && (Read(g, l, l.firmware).0 == Ejected <==> !Keeps(g) && l.firmware == 0 && l.declared > 0)
            && (Keeps(g) ==> l.declared == LastEdit(0, acts))
  {
    LoneRun(g, Fresh(id), acts);
    ReboundExactly(g, Run(g, Fresh(id), acts), Run(g, Fresh(id), acts).firmware);
  }

  // ---------------------------------------------------------------- what is seen

  lemma RunOne(g: Settings, l: Lane, a: Action, rest: seq<Action>)
    ensures Run(g, l, [a] + rest) == Run(g, Next(g, l, a), rest)
  {
  }

  /** Another writer's id, or an emptied lane, is seen by the next frame: the declaration goes unless
      the id is the declared one or the stale one of a write still expected, or an empty lane is no
      eject. */
  lemma OthersAreSeen(g: Settings, l: Lane, id: nat)
    requires l.declared > 0
    ensures Run(g, l, [Other(id), Frame]).reported == id && Run(g, l, [Eject, Frame]).reported == 0
    ensures id > 0 ==>
              (Run(g, l, [Other(id), Frame]).declared == l.declared <==>
               id == l.declared || (l.expected.Pending? && id == l.expected.old_ && id != l.expected.new_))
    ensures Run(g, l, [Eject, Frame]).declared == if Keeps(g) then l.declared else 0
  {
    RunOne(g, l, Other(id), [Frame]);
    RunOne(g, Next(g, l, Other(id)), Frame, []);
    RunOne(g, l, Eject, [Frame]);
    RunOne(g, Next(g, l, Eject), Frame, []);
  }

  /** An edit reaches the firmware; only an unlink of a lane that shows nothing sends nothing. */
  lemma EditsReachTheFirmware(g: Settings, l: Lane, id: nat)
    requires Settled(l)
    ensures id > 0 || l.declared > 0 ==> Run(g, l, [Edit(id), Land]).firmware == id
    ensures Next(g, l, Edit(id)).inFlight == [] <==> id == 0 && l.declared <= 0 && l.reported <= 0
  {
    RunOne(g, l, Edit(id), [Land]);
    RunOne(g, Next(g, l, Edit(id)), Land, []);
  }

  /** Over a series of frames, the expectation ends with the first that names the id written, or any
      spool but the original one, and not before. */
  lemma {:induction false} ExpectationEndsExactly(g: Settings, l: Lane, ids: seq<int>)
    requires l.expected.Pending?
    ensures ReadAll(g, l, ids).expected == Nothing <==>
            exists i :: 0 <= i < |ids| && (ids[i] == l.expected.new_ || (ids[i] > 0 && ids[i] != l.expected.old_))
    ensures ReadAll(g, l, ids).expected in {Nothing, l.expected}
    decreases |ids|
  {
    if ids != [] {
      var n := Read(g, l, ids[0]).1;
      if n.expected == Nothing {
        NothingStaysNothing(g, n, ids[1..]);
        assert ids[0] == l.expected.new_ || (ids[0] > 0 && ids[0] != l.expected.old_);
      } else {
        ExpectationEndsExactly(g, n, ids[1..]);
        if i :| 0 <= i < |ids[1..]|
                && (ids[1..][i] == l.expected.new_ || (ids[1..][i] > 0 && ids[1..][i] != l.expected.old_)) {
          assert ids[i + 1] == ids[1..][i];
        }
        if i :| 0 <= i < |ids| && (ids[i] == l.expected.new_ || (ids[i] > 0 && ids[i] != l.expected.old_)) {
          assert i > 0 && ids[1..][i - 1] == ids[i];
        }
      }
    }
  }

  lemma {:induction false} NothingStaysNothing(g: Settings, l: Lane, ids: seq<int>)
    requires l.expected == Nothing
    ensures ReadAll(g, l, ids).expected == Nothing
    decreases |ids|
  {
    if ids != [] { NothingStaysNothing(g, Read(g, l, ids[0]).1, ids[1..]); }
  }

  // ---------------------------------------------------------------- where it does not hold

  /** A second link made before the first one landed loses its declaration when a frame names
      the first: the id between is a third one. */
  lemma ChainBreaksOnItsMiddle(g: Settings)
    ensures Run(g, Fresh(42), [Edit(169), Edit(180), Land, Frame]).declared == 0
    ensures Run(g, Fresh(42), [Edit(169), Edit(180), Frame, Land, Land, Frame]).declared == 180
  {
  }

  /** Linking an empty lane where the firmware names ids and an eject clears: the first frame,
      which still reads no spool, drops the declaration just filed. */
  lemma LinkOfAnEmptyLaneIsEjected(g: Settings, id: nat)
    requires id > 0
    ensures Run(g, Fresh(0), [Edit(id), Frame]).declared == (if Keeps(g) then id else 0)
  {
    RunOne(g, Fresh(0), Edit(id), [Frame]);
    RunOne(g, Next(g, Fresh(0), Edit(id)), Frame, []);
  }

  // ---------------------------------------------------------------- the backend

  class Backend {
    var ownWrites: map<int, (int, int)>
    var declared: map<int, int>
    const settings: Settings

    constructor (settings: Settings)
      ensures ownWrites == map[] && declared == map[] && this.settings == settings
    {
      this.settings := settings;
      ownWrites, declared := map[], map[];
    }

    ghost function Expected(slot: int): Expectation
      reads `ownWrites
    { if slot in ownWrites then Pending(ownWrites[slot].0, ownWrites[slot].1) else Nothing }

    ghost function Declared(slot: int): int
      reads `declared
    { if slot in declared then declared[slot] else 0 }

    method RecordOwnSpoolWrite(slot: int, newId: int, previous: int)
      modifies `ownWrites
      ensures Expected(slot) == Record(old(Expected(slot)), newId, previous)
      ensures forall k :: k != slot ==> Expected(k) == old(Expected(k))
    {
      if newId <= 0 {
        ownWrites := ownWrites - {slot};
        return;
      }
      if slot in ownWrites && previous == ownWrites[slot].1 {
        ownWrites := ownWrites[slot := (ownWrites[slot].0, newId)];
        return;
      }
      ownWrites := ownWrites[slot := (previous, newId)];
    }

    method OwnWriteExpectation(slot: int, firmwareId: int) returns (pair: (int, int))
      modifies `ownWrites
      ensures Expected(slot) == Consult(old(Expected(slot)), firmwareId)
      ensures pair == Pair(Expected(slot))
      ensures forall k :: k != slot ==> Expected(k) == old(Expected(k))
    {
      if slot !in ownWrites { return (0, 0); }
      var oldId, newId := ownWrites[slot].0, ownWrites[slot].1;
      if firmwareId == newId || (firmwareId > 0 && firmwareId != oldId) {
        ownWrites := ownWrites - {slot};
        return (0, 0);
      }
      return (oldId, newId);
    }

    method ReconcileLaneBinding(slot: int, firmwareId: int) returns (verdict: Verdict)
      modifies this
      ensures forall l: Lane ::
                l.declared == old(Declared(slot)) && l.expected == old(Expected(slot)) ==>
                  verdict == Read(settings, l, firmwareId).0
                  && Declared(slot) == Read(settings, l, firmwareId).1.declared
                  && Expected(slot) == Read(settings, l, firmwareId).1.expected
      ensures forall k :: k != slot ==> Declared(k) == old(Declared(k)) && Expected(k) == old(Expected(k))
    {
      var pair := OwnWriteExpectation(slot, firmwareId);
      verdict := Classify(settings, if slot in declared then declared[slot] else 0, firmwareId, pair);
      if verdict != Holds { declared := declared - {slot}; }
    }
  }
}
