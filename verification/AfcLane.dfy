/** Lane records on AFC: what a lane's partial frames add up to, and where cutting shows.

    A lane's identity, sensors and temperatures are folded key by key, like a buffer's. Three
    readings are not: the status is worked out anew from what the frame itself says, and the two
    weights are admitted by what the record says at that moment. The lane here has no user
    declarations and no unlink marker, so the painted spool id is firmware's. */
module AfcLane {
  import opened Wrappers

  datatype Color = Observed(rgb: int) | NoColor | NoReading
  datatype Status = Empty | Available | Loaded

  /** Firmware's own account of the lane, as accumulated. */
  datatype Cache = Cache(
    color: Option<int>, material: Option<string>, spoolName: Option<string>, spoolId: Option<int>,
    brand: Option<string>)

  datatype Identity = Identity(
    color: Option<Color>, material: Option<string>, spoolName: Option<string>, spoolId: Clearable<int>,
    brand: Option<string>)

  datatype Sensors = Sensors(prep: bool, load: bool, bedTemp: int, nozzleTemp: int)

  datatype Readings = Readings(
    prep: Option<bool>, load: Option<bool>, bedTemp: Clearable<int>, nozzleTemp: Clearable<int>)

  /** What a frame says of where the filament is; `oddKey` is a prep or load key of another type. */
  datatype Place = Place(toolLoaded: Option<bool>, word: Option<string>, oddKey: bool)

  datatype Delta = Delta(
    identity: Identity, readings: Readings, place: Place, weight: Option<real>, initialWeight: Option<real>)

  datatype Lane = Lane(
    cache: Cache, linked: int, sensors: Sensors, remaining: Option<real>, total: Option<real>, status: Status)

  // ---------------------------------------------------------------- one frame

  function Text(old_: Option<string>, o: Option<string>): Option<string> {
    if o.None? then old_ else if o.value == "" then None else o
  }

  function Positive(c: Clearable<int>, old_: Option<int>): Option<int> {
    match c case Omitted => old_ case Cleared => None case Set(v) => if v > 0 then Some(v) else None
  }

  function Number(c: Clearable<int>, old_: int): int {
    match c case Omitted => old_ case Cleared => 0 case Set(v) => v
  }

  function Paint(c: Option<Color>, old_: Option<int>): Option<int> {
    match c
    case Some(Observed(rgb)) => Some(rgb)
    case Some(NoColor) => None
    case _ => old_
  }

  function ApplyIdentity(c: Cache, i: Identity): Cache {
    Cache(Paint(i.color, c.color), Text(c.material, i.material), Text(c.spoolName, i.spoolName),
          Positive(i.spoolId, c.spoolId), if i.brand.Some? then i.brand else c.brand)
  }

  function ApplyReadings(s: Sensors, r: Readings): Sensors {
    Sensors(Keep(s.prep, r.prep), Keep(s.load, r.load),
            Number(r.bedTemp, s.bedTemp), Number(r.nozzleTemp, s.nozzleTemp))
  }

  predicate Speaks(d: Delta) {
    d.place.toolLoaded.Some? || d.place.word.Some? || d.place.oddKey || d.readings.prep.Some? || d.readings.load.Some?
  }

  predicate Seats(p: Place) {
    p.toolLoaded == Some(true) || p.word == Some("Tooled") || p.word == Some("Tool Loaded")
  }

  function StatusOf(p: Place, s: Sensors): Status {
    if Seats(p) then Loaded else if p.word == Some("Loaded") || s.prep || s.load then Available else Empty
  }

  /** A zero beside neither material nor colour is unknown, not an empty spool. */
  predicate Bare(c: Cache) { c.material.None? && c.color.None? }

  function Remaining(old_: Option<real>, weight: Option<real>, c: Cache): Option<real> {
    if weight.None? then old_ else if weight.value == 0.0 && Bare(c) then None else weight
  }

  /** The full weight is taken only beside a link. */
  predicate Admits(linked: int, w: Option<real>) { linked > 0 && w.Some? && w.value > 0.0 }

  function Apply(l: Lane, d: Delta): Lane {
    var cache, sensors := ApplyIdentity(l.cache, d.identity), ApplyReadings(l.sensors, d.readings);
    var linked := Number(d.identity.spoolId, l.linked);
    Lane(cache, linked, sensors, Remaining(l.remaining, d.weight, cache),
         if Admits(linked, d.initialWeight) then d.initialWeight else l.total,
         if Speaks(d) then StatusOf(d.place, sensors) else l.status)
  }

  // ---------------------------------------------------------------- frames merge, key by key

  function LaterColor(first: Option<Color>, then_: Option<Color>): Option<Color> {
    if then_.None? || then_ == Some(NoReading) then (if first.None? then then_ else first) else then_
  }

  function MergeIdentity(a: Identity, b: Identity): Identity {
    Identity(LaterColor(a.color, b.color), Later(a.material, b.material), Later(a.spoolName, b.spoolName),
             LaterC(a.spoolId, b.spoolId), Later(a.brand, b.brand))
  }

  function MergeReadings(a: Readings, b: Readings): Readings {
    Readings(Later(a.prep, b.prep), Later(a.load, b.load),
             LaterC(a.bedTemp, b.bedTemp), LaterC(a.nozzleTemp, b.nozzleTemp))
  }

  function MergePlace(a: Place, b: Place): Place {
    Place(Later(a.toolLoaded, b.toolLoaded), Later(a.word, b.word), a.oddKey || b.oddKey)
  }

  /** The one frame that says what `a` and then `b` said. */
  function Merge(a: Delta, b: Delta): Delta {
    Delta(MergeIdentity(a.identity, b.identity), MergeReadings(a.readings, b.readings), MergePlace(a.place, b.place),
          Later(a.weight, b.weight), Later(a.initialWeight, b.initialWeight))
  }

  lemma IdentityMerges(c: Cache, a: Identity, b: Identity)
    ensures ApplyIdentity(ApplyIdentity(c, a), b) == ApplyIdentity(c, MergeIdentity(a, b))
  {
  }

  lemma ReadingsMerge(s: Sensors, a: Readings, b: Readings)
    ensures ApplyReadings(ApplyReadings(s, a), b) == ApplyReadings(s, MergeReadings(a, b))
  {
  }

  lemma LinkMerges(l: Lane, a: Delta, b: Delta)
    ensures Apply(Apply(l, a), b).linked == Apply(l, Merge(a, b)).linked
  {
  }

  function ApplyAll(l: Lane, ds: seq<Delta>): Lane
    decreases |ds|
  {
    if ds == [] then l else ApplyAll(Apply(l, ds[0]), ds[1..])
  }

  const SILENCE: Delta := Delta(
    Identity(None, None, None, Omitted, None), Readings(None, None, Omitted, Omitted),
    Place(None, None, false), None, None)

  function MergeAll(ds: seq<Delta>): Delta
    decreases |ds|
  {
    if ds == [] then SILENCE else Merge(ds[0], MergeAll(ds[1..]))
  }

  /** However a report is cut, the identity, the link, the sensors and the temperatures end up
      the same. */
  lemma {:induction false} IdentityAndSensorsSplit(l: Lane, ds: seq<Delta>)
    ensures var n, m := ApplyAll(l, ds), Apply(l, MergeAll(ds));
            n.cache == m.cache && n.linked == m.linked && n.sensors == m.sensors
    decreases |ds|
  {
    if ds != [] {
      var a, rest := ds[0], MergeAll(ds[1..]);
      IdentityAndSensorsSplit(Apply(l, a), ds[1..]);
      IdentityMerges(l.cache, a.identity, rest.identity);
      ReadingsMerge(l.sensors, a.readings, rest.readings);
      LinkMerges(l, a, rest);
    }
  }

  // ---------------------------------------------------------------- the last thing said

  /** The last frame's word on one key, if any frame has one. */
  function LastSaid<T>(ds: seq<Delta>, key: Delta -> Option<T>): Option<T>
    decreases |ds|
  {
    if ds == [] then None
    else
      var later := LastSaid(ds[1..], key);
      if later.Some? then later else key(ds[0])
  }

  predicate IsLastText(now: Option<string>, before: Option<string>, said: Option<string>) {
    match said case None => now == before case Some(x) => now == if x == "" then None else Some(x)
  }

  /** After any frames, the material and spool name are the last ones said, gone if that is empty;
      the brand is the last one said. */
  lemma {:induction false} TextsAreLastSaid(l: Lane, ds: seq<Delta>)
    ensures var n := ApplyAll(l, ds).cache;
            && IsLastText(n.material, l.cache.material, LastSaid(ds, (d: Delta) => d.identity.material))
            && IsLastText(n.spoolName, l.cache.spoolName, LastSaid(ds, (d: Delta) => d.identity.spoolName))
            && n.brand == (var said := LastSaid(ds, (d: Delta) => d.identity.brand);
                           if said.Some? then said else l.cache.brand)
    decreases |ds|
  {
    if ds != [] { TextsAreLastSaid(Apply(l, ds[0]), ds[1..]); }
  }

  function Word<T>(c: Clearable<T>, gone: T): Option<T> {
    match c case Omitted => None case Cleared => Some(gone) case Set(v) => Some(v)
  }

  /** The link is the last id said, 0 when that was null; the spool id is that link where positive;
      and the temperatures likewise. */
  lemma {:induction false} NumbersAreLastSaid(l: Lane, ds: seq<Delta>)
    ensures var n := ApplyAll(l, ds);
            var id := LastSaid(ds, (d: Delta) => Word(d.identity.spoolId, 0));
            var bed := LastSaid(ds, (d: Delta) => Word(d.readings.bedTemp, 0));
            var nozzle := LastSaid(ds, (d: Delta) => Word(d.readings.nozzleTemp, 0));
            && n.linked == (if id.Some? then id.value else l.linked)
            && n.cache.spoolId ==
                 (if id.None? then l.cache.spoolId else if id.value > 0 then Some(id.value) else None)
            && n.sensors.bedTemp == (if bed.Some? then bed.value else l.sensors.bedTemp)
            && n.sensors.nozzleTemp == (if nozzle.Some? then nozzle.value else l.sensors.nozzleTemp)
    decreases |ds|
  {
    if ds != [] { NumbersAreLastSaid(Apply(l, ds[0]), ds[1..]); }
  }

  /** The colour is the last one read, gone if that reading was of none; a frame with no reading
      says nothing. */
  lemma {:induction false} ColorIsLastSaid(l: Lane, ds: seq<Delta>)
    ensures var said := LastSaid(
              ds, (d: Delta) => if d.identity.color == Some(NoReading) then None else d.identity.color);
            ApplyAll(l, ds).cache.color ==
              if said.None? then l.cache.color else if said.value.Observed? then Some(said.value.rgb) else None
    decreases |ds|
  {
    if ds != [] { ColorIsLastSaid(Apply(l, ds[0]), ds[1..]); }
  }

  /** The switches are the last ones said, and a frame that speaks of the filament says it is at the
      toolhead, at the hub or a switch, or gone. */
  lemma {:induction false} SensorsAreLastSaid(l: Lane, ds: seq<Delta>)
    ensures var n := ApplyAll(l, ds).sensors;
            && n.prep == (var said := LastSaid(ds, (d: Delta) => d.readings.prep);
                          if said.Some? then said.value else l.sensors.prep)
            && n.load == (var said := LastSaid(ds, (d: Delta) => d.readings.load);
                          if said.Some? then said.value else l.sensors.load)
    decreases |ds|
  {
    if ds != [] { SensorsAreLastSaid(Apply(l, ds[0]), ds[1..]); }
  }

  lemma StatusIsRead(l: Lane, d: Delta)
    ensures var n, p := Apply(l, d), d.place;
            var speaks := p.toolLoaded.Some? || p.word.Some? || p.oddKey
                          || d.readings.prep.Some? || d.readings.load.Some?;
            var seated := p.toolLoaded == Some(true) || p.word in {Some("Tooled"), Some("Tool Loaded")};
            && (!speaks ==> n.status == l.status)
            && (speaks ==> (n.status == Loaded <==> seated))
            && (speaks && !seated ==>
                  (n.status == Available <==> p.word == Some("Loaded") || n.sensors.prep || n.sensors.load)
                  && n.status != Loaded)
  {
  }

  /** A weight is taken as it comes, but for a zero on a lane with neither material nor colour, which
      is no reading; a full weight only beside a link. */
  lemma WeightsAreTaken(l: Lane, d: Delta)
    ensures var n := Apply(l, d);
            && (d.weight.None? ==> n.remaining == l.remaining)
            && (d.weight.Some? ==>
                  n.remaining == if d.weight.value == 0.0 && n.cache.material.None? && n.cache.color.None?
                                 then None else d.weight)
            && (n.total != l.total ==>
                  n.linked > 0 && d.initialWeight.Some? && d.initialWeight.value > 0.0 && n.total == d.initialWeight)
            && (n.linked > 0 && d.initialWeight.Some? && d.initialWeight.value > 0.0 ==> n.total == d.initialWeight)
  {
  }

  // ---------------------------------------------------------------- where the cut shows

  /** The later frame speaks of the filament without repeating what put it at the toolhead. */
  predicate LosesSeat(a: Delta, b: Delta) {
    && Speaks(b) && !Seats(b.place)
    && ((b.place.toolLoaded.None? && a.place.toolLoaded == Some(true))
        || (b.place.word.None? && (a.place.word == Some("Tooled") || a.place.word == Some("Tool Loaded"))))
  }

  /** The same for filament at the hub, which only the status word told of. */
  predicate LosesHub(l: Lane, a: Delta, b: Delta) {
    var s := ApplyReadings(ApplyReadings(l.sensors, a.readings), b.readings);
    Speaks(b) && !Seats(b.place) && b.place.word.None? && a.place.word == Some("Loaded") && !s.prep && !s.load
  }

  /** A zero weight came before the colour or material that makes it a reading, or ends it. */
  predicate FlipsZero(l: Lane, a: Delta, b: Delta) {
    var early := ApplyIdentity(l.cache, a.identity);
    a.weight == Some(0.0) && b.weight.None? && Bare(early) != Bare(ApplyIdentity(early, b.identity))
  }

  /** A full weight came beside a link that the later frame makes or breaks. */
  predicate MovesTotal(l: Lane, a: Delta, b: Delta) {
    var early := Number(a.identity.spoolId, l.linked);
    var late := Number(b.identity.spoolId, early);
    && a.initialWeight.Some? && a.initialWeight.value > 0.0 && a.initialWeight != l.total
    && !Admits(late, b.initialWeight)
    && (if b.initialWeight.Some? then early > 0 else (early > 0) != (late > 0))
  }

  lemma StatusSplitsExactly(l: Lane, a: Delta, b: Delta)
    ensures Apply(Apply(l, a), b).status == Apply(l, Merge(a, b)).status <==> !LosesSeat(a, b) && !LosesHub(l, a, b)
  {
    ReadingsMerge(l.sensors, a.readings, b.readings);
    var s := ApplyReadings(l.sensors, MergeReadings(a.readings, b.readings));
    var p := MergePlace(a.place, b.place);
    if Speaks(b) {
      assert Seats(b.place) ==> Seats(p);
      assert Apply(Apply(l, a), b).status == StatusOf(b.place, s);
      assert Apply(l, Merge(a, b)).status == StatusOf(p, s);
    } else {
      var early := ApplyReadings(l.sensors, a.readings);
      assert p == a.place && s.prep == early.prep && s.load == early.load;
    }
  }

  lemma RemainingSplitsExactly(l: Lane, a: Delta, b: Delta)
    ensures Apply(Apply(l, a), b).remaining == Apply(l, Merge(a, b)).remaining <==> !FlipsZero(l, a, b)
  {
    IdentityMerges(l.cache, a.identity, b.identity);
  }

  lemma TotalSplitsExactly(l: Lane, a: Delta, b: Delta)
    ensures Apply(Apply(l, a), b).total == Apply(l, Merge(a, b)).total <==> !MovesTotal(l, a, b)
  {
    LinkMerges(l, a, b);
  }

  /** Two frames leave the lane as their one merged frame would exactly unless the second speaks
      of the filament without repeating the first, a zero weight and what makes it a reading are
      cut apart, or a full weight and the link it needs are. */
  lemma LaneSplitsExactly(l: Lane, a: Delta, b: Delta)
    ensures Apply(Apply(l, a), b) == Apply(l, Merge(a, b)) <==>
            !LosesSeat(a, b) && !LosesHub(l, a, b) && !FlipsZero(l, a, b) && !MovesTotal(l, a, b)
  {
    IdentityMerges(l.cache, a.identity, b.identity);
    ReadingsMerge(l.sensors, a.readings, b.readings);
    LinkMerges(l, a, b);
    StatusSplitsExactly(l, a, b);
    RemainingSplitsExactly(l, a, b);
    TotalSplitsExactly(l, a, b);
  }

  // ---------------------------------------------------------------- any number of frames

  lemma MergesAssociate(a: Delta, b: Delta, c: Delta)
    ensures Merge(Merge(a, b), c) == Merge(a, Merge(b, c))
  {
  }

  lemma {:induction false} MergeAllSplits(ds: seq<Delta>, k: nat)
    requires k <= |ds|
    ensures MergeAll(ds) == Merge(MergeAll(ds[..k]), MergeAll(ds[k..]))
    decreases k
  {
    if k == 0 {
      assert ds[0..] == ds;
    } else {
      assert ds[..k][1..] == ds[1..][..k - 1] && ds[1..][k - 1..] == ds[k..];
      MergeAllSplits(ds[1..], k - 1);
      MergesAssociate(ds[0], MergeAll(ds[1..][..k - 1]), MergeAll(ds[k..]));
    }
  }

  lemma {:induction false} ApplyAllSplits(l: Lane, ds: seq<Delta>, k: nat)
    requires k <= |ds|
    ensures ApplyAll(l, ds) == ApplyAll(ApplyAll(l, ds[..k]), ds[k..])
    decreases k
  {
    if k == 0 {
      assert ds[0..] == ds;
    } else {
      assert ds[..k][1..] == ds[1..][..k - 1] && ds[1..][k - 1..] == ds[k..];
      ApplyAllSplits(Apply(l, ds[0]), ds[1..], k - 1);
    }
  }

  predicate Weighs(d: Delta) { d.weight.Some? }

  /** How many frames there are up to the last that satisfies `p`; 0 when none does. */
  function UpToLast(ds: seq<Delta>, p: Delta -> bool): (n: nat)
    ensures n <= |ds| && (n > 0 ==> p(ds[n - 1]))
    ensures forall i :: n <= i < |ds| ==> !p(ds[i])
    decreases |ds|
  {
    if ds == [] then 0
    else if p(ds[|ds| - 1]) then |ds|
    else UpToLast(ds[..|ds| - 1], p)
  }

  lemma {:induction false} QuietFrames(l: Lane, ds: seq<Delta>)
    requires forall i :: 0 <= i < |ds| ==> !Speaks(ds[i])
    ensures ApplyAll(l, ds).status == l.status && !Speaks(MergeAll(ds))
    decreases |ds|
  {
    if ds != [] { QuietFrames(Apply(l, ds[0]), ds[1..]); }
  }

  lemma {:induction false} WeightlessFrames(l: Lane, ds: seq<Delta>)
    requires forall i :: 0 <= i < |ds| ==> !Weighs(ds[i])
    ensures ApplyAll(l, ds).remaining == l.remaining && MergeAll(ds).weight.None?
    decreases |ds|
  {
    if ds != [] { WeightlessFrames(Apply(l, ds[0]), ds[1..]); }
  }

  /** The last frame that speaks of the filament loses what the frames before it told. */
  predicate LosesStatus(l: Lane, ds: seq<Delta>) {
    var n := UpToLast(ds, Speaks);
    n > 0 && (LosesSeat(MergeAll(ds[..n - 1]), MergeAll(ds[n - 1..]))
              || LosesHub(l, MergeAll(ds[..n - 1]), MergeAll(ds[n - 1..])))
  }

  lemma LastSpeakerDecides(l: Lane, ds: seq<Delta>, i: nat)
    requires i < |ds| && Speaks(ds[i]) && forall j :: i < j < |ds| ==> !Speaks(ds[j])
    ensures ApplyAll(l, ds).status == Apply(Apply(l, MergeAll(ds[..i])), MergeAll(ds[i..])).status
  {
    var before, rest := ApplyAll(l, ds[..i]), ds[i..][1..];
    ApplyAllSplits(l, ds, i);
    QuietFrames(Apply(before, ds[i]), rest);
    IdentityAndSensorsSplit(l, ds[..i]);
    assert MergeAll(ds[i..]) == Merge(ds[i], MergeAll(rest));
  }

  lemma StatusCutExactly(l: Lane, ds: seq<Delta>)
    ensures ApplyAll(l, ds).status == Apply(l, MergeAll(ds)).status <==> !LosesStatus(l, ds)
  {
    var n := UpToLast(ds, Speaks);
    if n == 0 {
      QuietFrames(l, ds);
    } else {
      LastSpeakerDecides(l, ds, n - 1);
      MergeAllSplits(ds, n - 1);
      StatusSplitsExactly(l, MergeAll(ds[..n - 1]), MergeAll(ds[n - 1..]));
    }
  }

  /** What follows the last weight flips its zero. */
  predicate FlipsLastZero(l: Lane, ds: seq<Delta>) {
    var n := UpToLast(ds, Weighs);
    FlipsZero(l, MergeAll(ds[..n]), MergeAll(ds[n..]))
  }

  lemma LastWeightDecides(l: Lane, ds: seq<Delta>)
    requires ds == [] || Weighs(ds[|ds| - 1])
    ensures ApplyAll(l, ds).remaining == Apply(l, MergeAll(ds)).remaining
  {
    if ds != [] {
      var k := |ds| - 1;
      ApplyAllSplits(l, ds, k);
      MergeAllSplits(ds, k);
      IdentityAndSensorsSplit(l, ds);
      assert ds[k..] == [ds[k]] && ds[k..][1..] == [];
      assert ApplyAll(l, ds) == Apply(ApplyAll(l, ds[..k]), ds[k]);
      assert MergeAll(ds[k..]).weight == ds[k].weight;
    }
  }

  lemma RemainingCutExactly(l: Lane, ds: seq<Delta>)
    ensures ApplyAll(l, ds).remaining == Apply(l, MergeAll(ds)).remaining <==> !FlipsLastZero(l, ds)
  {
    var n := UpToLast(ds, Weighs);
    var a, b := MergeAll(ds[..n]), MergeAll(ds[n..]);
    ApplyAllSplits(l, ds, n);
    MergeAllSplits(ds, n);
    LastWeightDecides(l, ds[..n]);
    WeightlessFrames(ApplyAll(l, ds[..n]), ds[n..]);
    RemainingSplitsExactly(l, a, b);
  }

  /** How many frames there are up to the last whose full weight was taken when it came. */
  function UpToLastTaken(l: Lane, ds: seq<Delta>): (n: nat)
    ensures n <= |ds|
    decreases |ds|
  {
    if ds == [] then 0
    else if Admits(ApplyAll(l, ds).linked, ds[|ds| - 1].initialWeight) then |ds|
    else UpToLastTaken(l, ds[..|ds| - 1])
  }

  /** The full weight last taken is not what one frame would take: the one frame takes a later
      one, given before its link, or loses this one. */
  predicate MovesLastTotal(l: Lane, ds: seq<Delta>) {
    var n := UpToLastTaken(l, ds);
    var a, b := MergeAll(ds[..n]), MergeAll(ds[n..]);
    if Admits(Apply(l, MergeAll(ds)).linked, b.initialWeight) then Apply(l, a).total != b.initialWeight
    else MovesTotal(l, a, b)
  }

  lemma {:induction false} LastTakenDecides(l: Lane, ds: seq<Delta>)
    ensures var n := UpToLastTaken(l, ds); ApplyAll(l, ds).total == Apply(l, MergeAll(ds[..n])).total
    decreases |ds|
  {
    if ds != [] {
      var k := |ds| - 1;
      ApplyAllSplits(l, ds, k);
      assert ds[k..] == [ds[k]] && ds[k..][1..] == [];
      assert ApplyAll(l, ds) == Apply(ApplyAll(l, ds[..k]), ds[k]);
      if Admits(ApplyAll(l, ds).linked, ds[k].initialWeight) {
        IdentityAndSensorsSplit(l, ds);
        MergeAllSplits(ds, k);
        assert MergeAll(ds[k..]).initialWeight == ds[k].initialWeight;
        assert ds[..|ds|] == ds;
      } else {
        LastTakenDecides(l, ds[..k]);
        assert ds[..k][..UpToLastTaken(l, ds)] == ds[..UpToLastTaken(l, ds)];
      }
    }
  }

  lemma TotalCutExactly(l: Lane, ds: seq<Delta>)
    ensures ApplyAll(l, ds).total == Apply(l, MergeAll(ds)).total <==> !MovesLastTotal(l, ds)
  {
    var n := UpToLastTaken(l, ds);
    var a, b := MergeAll(ds[..n]), MergeAll(ds[n..]);
    LastTakenDecides(l, ds);
    MergeAllSplits(ds, n);
    LinkMerges(l, a, b);
    TotalSplitsExactly(l, a, b);
  }

  /** Any number of frames leave the whole lane as their one merged frame would exactly unless the
      last to speak of the filament loses what came before it, a zero weight is flipped by what
      follows it, or the full weight last taken is not the merged frame's. */
  lemma CutsAgreeExactly(l: Lane, ds: seq<Delta>)
    ensures ApplyAll(l, ds) == Apply(l, MergeAll(ds)) <==>
            !LosesStatus(l, ds) && !FlipsLastZero(l, ds) && !MovesLastTotal(l, ds)
  {
    IdentityAndSensorsSplit(l, ds);
    StatusCutExactly(l, ds);
    RemainingCutExactly(l, ds);
    TotalCutExactly(l, ds);
  }

  /** A lane at the toolhead whose prep sensor alone is reported next is shown as available. */
  lemma PrepAloneUnseats(l: Lane)
    ensures var seat := SILENCE.(place := Place(Some(true), None, false));
            var prep := SILENCE.(readings := Readings(Some(true), None, Omitted, Omitted));
            Apply(Apply(l, seat), prep).status == Available && Apply(l, Merge(seat, prep)).status == Loaded
  {
  }

  // ---------------------------------------------------------------- the backend

  class LaneRecord {
    var cache: Cache
    var linked: int
    var sensors: Sensors
    var remaining: Option<real>
    var total: Option<real>
    var status: Status

    ghost function View(): Lane
      reads this
    { Lane(cache, linked, sensors, remaining, total, status) }

    constructor (l: Lane)
      ensures View() == l
    {
      cache, linked, sensors, remaining, total, status := l.cache, l.linked, l.sensors, l.remaining, l.total, l.status;
    }

    method ApplyLaneIdentity(i: Identity)
      modifies `cache, `linked
      ensures cache == ApplyIdentity(old(cache), i) && linked == Number(i.spoolId, old(linked))
    {
      if i.color.Some? {
        match i.color.value
        case Observed(rgb) => cache := cache.(color := Some(rgb));
        case NoColor => cache := cache.(color := None);
        case NoReading =>
      }
      if i.material.Some? { cache := cache.(material := if i.material.value == "" then None else i.material); }
      if i.spoolName.Some? { cache := cache.(spoolName := if i.spoolName.value == "" then None else i.spoolName); }
      match i.spoolId {
        case Omitted =>
        case Cleared =>
          linked := 0;
          cache := cache.(spoolId := None);
        case Set(id) =>
          linked := id;
          cache := cache.(spoolId := if id > 0 then Some(id) else None);
      }
      if i.brand.Some? { cache := cache.(brand := i.brand); }
    }

    method ApplyLaneStatus(d: Delta)
      modifies this
      ensures View() == Apply(old(View()), d)
    {
      sensors := ApplyReadings(sensors, d.readings);
      ApplyLaneIdentity(d.identity);
      if d.weight.Some? {
        if d.weight.value == 0.0 && cache.material.None? && cache.color.None? {
          remaining := None;
        } else {
          remaining := d.weight;
        }
      }
      if linked > 0 && d.initialWeight.Some? && d.initialWeight.value > 0.0 { total := d.initialWeight; }
      if Speaks(d) { status := StatusOf(d.place, sensors); }
    }
  }
}
