/** Buffer readings on AFC: deltas folded into one record per buffer, and a view per unit.

    Moonraker forwards only the keys that changed, so a frame is a delta: an omitted key keeps
    its value, and for three of them JSON null means "gone". The record per buffer is the truth;
    each unit's reading is derived from it through the lanes the buffer serves. */
module AfcBuffer {
  import opened Wrappers

  datatype Motion = UnknownMotion | Advancing | Trailing

  datatype Health = Health(
    faultDetection: bool, distanceToFault: real, errorSensitivity: real, state: string, motion: Motion,
    activeLane: string, rotationDistance: real, faultTimer: real,
    multiplier: real, multiplierHigh: real, multiplierLow: real,
    smoothedFps: real, fpsReported: bool, fpsValue: real, setPoint: real)

  datatype Delta = Delta(
    faultDetection: Option<bool>, distanceToFault: Option<real>, errorSensitivity: Option<real>,
    state: Option<string>, activeLane: Clearable<string>, rotationDistance: Clearable<real>,
    faultTimer: Clearable<real>, multiplier: Option<real>, multiplierHigh: Option<real>,
    multiplierLow: Option<real>, smoothedFps: Option<real>, fpsValue: Option<real>, setPoint: Option<real>)

  const NOT_REPORTED: Health := Health(
    false, -1.0, 0.0, "", UnknownMotion, "", -1.0, -1.0, -1.0, -1.0, -1.0, -1.0, false, -1.0, -1.0)

  function MotionOf(state: string): Motion {
    if state == "Advancing" then Advancing else if state == "Trailing" then Trailing else UnknownMotion
  }

  function Apply(h: Health, d: Delta): Health {
    Health(
      Keep(h.faultDetection, d.faultDetection), Keep(h.distanceToFault, d.distanceToFault),
      Keep(h.errorSensitivity, d.errorSensitivity), Keep(h.state, d.state),
      if d.state.Some? then MotionOf(d.state.value) else h.motion,
      Reset(h.activeLane, d.activeLane, ""), Reset(h.rotationDistance, d.rotationDistance, -1.0),
      Reset(h.faultTimer, d.faultTimer, -1.0), Keep(h.multiplier, d.multiplier),
      Keep(h.multiplierHigh, d.multiplierHigh), Keep(h.multiplierLow, d.multiplierLow),
      Keep(h.smoothedFps, d.smoothedFps), h.fpsReported || d.smoothedFps.Some?,
      Keep(h.fpsValue, d.fpsValue), Keep(h.setPoint, d.setPoint))
  }

  // ---------------------------------------------------------------- deltas compose

  /** The one delta that says what `a` and then `b` said. */
  function Merge(a: Delta, b: Delta): Delta {
    Delta(
      Later(a.faultDetection, b.faultDetection), Later(a.distanceToFault, b.distanceToFault),
      Later(a.errorSensitivity, b.errorSensitivity), Later(a.state, b.state),
      LaterC(a.activeLane, b.activeLane), LaterC(a.rotationDistance, b.rotationDistance),
      LaterC(a.faultTimer, b.faultTimer), Later(a.multiplier, b.multiplier),
      Later(a.multiplierHigh, b.multiplierHigh), Later(a.multiplierLow, b.multiplierLow),
      Later(a.smoothedFps, b.smoothedFps), Later(a.fpsValue, b.fpsValue), Later(a.setPoint, b.setPoint))
  }

  const SILENCE: Delta := Delta(
    None, None, None, None, Omitted, Omitted, Omitted, None, None, None, None, None, None)

  function ApplyAll(h: Health, ds: seq<Delta>): Health
    decreases |ds|
  {
    if ds == [] then h else ApplyAll(Apply(h, ds[0]), ds[1..])
  }

  function MergeAll(ds: seq<Delta>): Delta
    decreases |ds|
  {
    if ds == [] then SILENCE else Merge(ds[0], MergeAll(ds[1..]))
  }

  /** Applying deltas is an action of merging them. */
  lemma ApplyMerges(h: Health, a: Delta, b: Delta)
    ensures Apply(Apply(h, a), b) == Apply(h, Merge(a, b))
  {
  }

  lemma {:induction false} FramesMerge(h: Health, ds: seq<Delta>)
    ensures ApplyAll(h, ds) == Apply(h, MergeAll(ds))
    decreases |ds|
  {
    if ds != [] {
      FramesMerge(Apply(h, ds[0]), ds[1..]);
      ApplyMerges(h, ds[0], MergeAll(ds[1..]));
    }
  }

  /** However a report is split into partial frames, the record ends up the same, from any
      starting record and from none. */
  lemma SplitReportsAgree(h: Health, one: seq<Delta>, other: seq<Delta>)
    requires MergeAll(one) == MergeAll(other)
    ensures ApplyAll(h, one) == ApplyAll(h, other)
  {
    FramesMerge(h, one);
    FramesMerge(h, other);
  }

  // ---------------------------------------------------------------- what a record says

  /** Every key the delta states is held as stated. */
  predicate Holds(h: Health, d: Delta) {
    && (d.faultDetection.Some? ==> h.faultDetection == d.faultDetection.value)
    && (d.distanceToFault.Some? ==> h.distanceToFault == d.distanceToFault.value)
    && (d.errorSensitivity.Some? ==> h.errorSensitivity == d.errorSensitivity.value)
    && (d.state.Some? ==> h.state == d.state.value)
    && (d.activeLane.Set? ==> h.activeLane == d.activeLane.value)
    && (d.rotationDistance.Set? ==> h.rotationDistance == d.rotationDistance.value)
    && (d.faultTimer.Set? ==> h.faultTimer == d.faultTimer.value)
    && (d.multiplier.Some? ==> h.multiplier == d.multiplier.value)
    && (d.multiplierHigh.Some? ==> h.multiplierHigh == d.multiplierHigh.value)
    && (d.multiplierLow.Some? ==> h.multiplierLow == d.multiplierLow.value)
    && (d.smoothedFps.Some? ==> h.fpsReported && h.smoothedFps == d.smoothedFps.value)
    && (d.fpsValue.Some? ==> h.fpsValue == d.fpsValue.value)
    && (d.setPoint.Some? ==> h.setPoint == d.setPoint.value)
  }

  predicate MotionMatches(h: Health) {
    && (h.motion == Advancing <==> h.state == "Advancing")
    && (h.motion == Trailing <==> h.state == "Trailing")
  }

  /** What a delta states is held. */
  lemma DeltaIsHeld(h: Health, d: Delta)
    ensures Holds(Apply(h, d), d)
  {
  }

  /** What a delta leaves out stays, and null is "not reported". */
  lemma SilenceAndNull(h: Health)
    ensures Apply(h, SILENCE) == h
    ensures Apply(h, SILENCE.(activeLane := Cleared, rotationDistance := Cleared, faultTimer := Cleared)) ==
            h.(activeLane := NOT_REPORTED.activeLane, rotationDistance := NOT_REPORTED.rotationDistance,
               faultTimer := NOT_REPORTED.faultTimer)
  {
  }

  lemma MotionStays(h: Health, d: Delta)
    requires MotionMatches(h)
    ensures MotionMatches(Apply(h, d))
  {
    assert d.state.Some? ==> Apply(h, d).state == d.state.value;
  }

  lemma {:induction false} MotionFollowsState(h: Health, ds: seq<Delta>)
    requires MotionMatches(h)
    ensures MotionMatches(ApplyAll(h, ds))
    decreases |ds|
  {
    if ds != [] {
      MotionStays(h, ds[0]);
      MotionFollowsState(Apply(h, ds[0]), ds[1..]);
    }
  }

  // ---------------------------------------------------------------- the view per unit

  /** `order` is the iteration order of the record map; `layout` the unit of each known lane. */
  datatype State = State(
    health: map<string, Health>, order: seq<string>, lanes: map<string, seq<string>>,
    layout: map<string, nat>, view: map<nat, Health>)

  /** A rebuild of fewer than two units does nothing: there is one, and it stays as it is. */
  datatype Event =
    | Buffer(name: string, lanes: Option<seq<string>>, delta: Delta, order: seq<string>)
    | Rebuild(units: nat, layout: map<string, nat>)
    | Initialize(layout: map<string, nat>)

  /** The first lane that belongs to a unit decides. */
  function FirstUnit(lanes: seq<string>, layout: map<string, nat>): Option<nat>
    decreases |lanes|
  {
    if lanes == [] then None
    else if lanes[0] in layout then Some(layout[lanes[0]])
    else FirstUnit(lanes[1..], layout)
  }

  function UnitOf(name: string, lanes: map<string, seq<string>>, layout: map<string, nat>): Option<nat> {
    if name in lanes then FirstUnit(lanes[name], layout) else None
  }

  function Attach(view: map<nat, Health>, s: State, name: string): map<nat, Health> {
    var unit := UnitOf(name, s.lanes, s.layout);
    if name in s.health && unit.Some? then view[unit.value := s.health[name]] else view
  }

  function AttachAll(view: map<nat, Health>, s: State, names: seq<string>): map<nat, Health>
    decreases |names|
  {
    if names == [] then view else AttachAll(Attach(view, s, names[0]), s, names[1..])
  }

  function Reattach(view: map<nat, Health>, s: State): State { s.(view := AttachAll(view, s, s.order)) }

  function Recorded(s: State, name: string, lanes: Option<seq<string>>, delta: Delta, order: seq<string>): State {
    var before := if name in s.health then s.health[name] else NOT_REPORTED;
    s.(health := s.health[name := Apply(before, delta)], order := order,
       lanes := if lanes.Some? then s.lanes[name := lanes.value] else s.lanes)
  }

  function Next(s: State, e: Event): State {
    match e
    case Buffer(name, lanes, delta, order) => Reattach(s.view, Recorded(s, name, lanes, delta, order))
    case Rebuild(units, layout) => if units <= 1 then s else Reattach(map[], s.(layout := layout))
    case Initialize(layout) => s.(layout := layout, view := map[])
  }

  /** The order of an event is an order of the map that the event leaves. */
  ghost predicate Ordered(s: State, e: Event) {
    e.Buffer? ==> forall b :: b in e.order <==> b in s.health || b == e.name
  }

  ghost predicate Valid(s: State) { forall b :: b in s.order <==> b in s.health }

  function Claims(s: State, b: string): Option<nat> {
    if b in s.health then UnitOf(b, s.lanes, s.layout) else None
  }

  ghost predicate Claimed(s: State, u: nat) { exists b :: b in s.health && Claims(s, b) == Some(u) }

  /** A unit shows a reading exactly if some buffer's lanes lead to it, and then that buffer's
      whole record: the re-derivation from the records. */
  ghost predicate Derived(s: State) {
    && (forall u :: u in s.view ==> exists b :: b in s.health && Claims(s, b) == Some(u) && s.view[u] == s.health[b])
    && (forall b :: b in s.health && Claims(s, b).Some? ==> Claims(s, b).value in s.view)
  }

  lemma {:induction false} AttachAllAt(view: map<nat, Health>, s: State, names: seq<string>, u: nat)
    requires forall b :: b in names ==> b in s.health
    ensures var v := AttachAll(view, s, names);
            if exists b :: b in names && Claims(s, b) == Some(u)
            then u in v && exists b :: b in names && Claims(s, b) == Some(u) && v[u] == s.health[b]
            else (u in v <==> u in view) && (u in v ==> v[u] == view[u])
    decreases |names|
  {
    if names != [] {
      var b0, rest := names[0], names[1..];
      assert forall b :: b in names <==> b == b0 || b in rest;
      AttachAllAt(Attach(view, s, b0), s, rest, u);
      if Claims(s, b0) == Some(u) {
        assert b0 in names && Attach(view, s, b0)[u] == s.health[b0];
      }
    }
  }

  lemma DerivedDomain(s: State, u: nat)
    ensures Derived(s) ==> (u in s.view <==> Claimed(s, u))
  {
  }

  lemma AttachedDomain(s: State, view: map<nat, Health>, u: nat)
    requires Valid(s)
    ensures u in AttachAll(view, s, s.order) <==> Claimed(s, u) || u in view
  {
    AttachAllAt(view, s, s.order, u);
    if Claimed(s, u) {
      var b :| b in s.health && Claims(s, b) == Some(u);
      assert b in s.order;
    }
  }

  lemma AttachedReading(s: State, view: map<nat, Health>, u: nat)
    requires Valid(s) && Claimed(s, u)
    ensures var n := Reattach(view, s);
            u in n.view && exists b :: b in n.health && Claims(n, b) == Some(u) && n.view[u] == n.health[b]
  {
    AttachAllAt(view, s, s.order, u);
    var c :| c in s.health && Claims(s, c) == Some(u);
    assert c in s.order;
    var v := AttachAll(view, s, s.order);
    var b :| b in s.order && Claims(s, b) == Some(u) && v[u] == s.health[b];
    assert Claims(Reattach(view, s), b) == Some(u);
  }

  /** What re-attaching leaves behind: everything as derived, except readings of units that no
      buffer leads to any more. */
  lemma ReattachedExactly(s: State, view: map<nat, Health>)
    requires Valid(s)
    ensures var n := Reattach(view, s);
            Derived(n) <==> forall u :: u in view ==> Claimed(s, u)
  {
    var n := Reattach(view, s);
    SameClaims(s, n);
    forall u: nat ensures u in n.view <==> Claimed(n, u) || u in view { AttachedDomain(s, view, u); }
    forall u: nat | Claimed(s, u)
      ensures u in n.view && exists b :: b in n.health && Claims(n, b) == Some(u) && n.view[u] == n.health[b]
    {
      AttachedReading(s, view, u);
    }
    if u :| u in view && !Claimed(s, u) {
      DerivedDomain(n, u);
    } else {
      forall b | b in n.health && Claims(n, b).Some? ensures Claims(n, b).value in n.view {
        assert Claimed(n, Claims(n, b).value);
      }
    }
  }

  /** The lanes of a buffer, as this frame leaves them, still lead somewhere for every unit that
      shows a reading; a rebuild of one unit found nobody left; and no record is waiting when the
      lanes are first laid out. */
  ghost predicate LeavesNobody(s: State, e: Event) {
    match e
    case Buffer(_, _, _, _) => forall u :: u in s.view ==> Claimed(Next(s, e), u)
    case Rebuild(units, _) => units <= 1 ==> Derived(s)
    case Initialize(layout) => forall b :: b in s.health ==> UnitOf(b, s.lanes, layout).None?
  }

  /** The unit view equals the re-derivation after a step exactly if the step leaves nobody. */
  lemma StepDerivedExactly(s: State, e: Event)
    requires Valid(s) && Ordered(s, e)
    ensures Valid(Next(s, e)) && (Derived(Next(s, e)) <==> LeavesNobody(s, e))
  {
    match e
    case Buffer(name, lanes, delta, order) =>
      var m := Recorded(s, name, lanes, delta, order);
      ReattachedExactly(m, s.view);
      SameClaims(m, Next(s, e));
    case Rebuild(units, layout) => if units > 1 { ReattachedExactly(s.(layout := layout), map[]); }
    case Initialize(layout) =>
      assert forall b :: b in s.health ==> Claims(Next(s, e), b) == UnitOf(b, s.lanes, layout);
  }

  lemma SameClaims(m: State, n: State)
    requires m.health == n.health && m.lanes == n.lanes && m.layout == n.layout
    ensures forall u :: Claimed(m, u) <==> Claimed(n, u)
  {
  }

  lemma {:induction false} AttachAllIgnoresView(view: map<nat, Health>, m: State, n: State, names: seq<string>)
    requires m.health == n.health && m.lanes == n.lanes && m.layout == n.layout
    ensures AttachAll(view, m, names) == AttachAll(view, n, names)
    decreases |names|
  {
    if names != [] { AttachAllIgnoresView(Attach(view, m, names[0]), m, n, names[1..]); }
  }

  function Run(s: State, es: seq<Event>): State
    decreases |es|
  {
    if es == [] then s else Run(Next(s, es[0]), es[1..])
  }

  ghost predicate AllOrdered(s: State, es: seq<Event>)
    decreases |es|
  {
    es == [] || (Ordered(s, es[0]) && AllOrdered(Next(s, es[0]), es[1..]))
  }

  lemma {:induction false} RunStaysValid(s: State, es: seq<Event>)
    requires Valid(s) && AllOrdered(s, es)
    ensures Valid(Run(s, es))
    decreases |es|
  {
    if es != [] {
      StepDerivedExactly(s, es[0]);
      RunStaysValid(Next(s, es[0]), es[1..]);
    }
  }

  const NOTHING: State := State(map[], [], map[], map[], map[])

  /** Whatever came before, a rebuild of two or more units leaves exactly the derived view, and so
      does any frame after which every unit that showed a reading is still led to. */
  lemma ViewIsDerived(es: seq<Event>, e: Event)
    requires AllOrdered(NOTHING, es) && Ordered(Run(NOTHING, es), e)
    ensures Derived(Next(Run(NOTHING, es), e)) <==> LeavesNobody(Run(NOTHING, es), e)
  {
    RunStaysValid(NOTHING, es);
    StepDerivedExactly(Run(NOTHING, es), e);
  }

  ghost predicate OneBufferToAUnit(s: State) {
    forall x, y ::
      x in s.health && y in s.health && Claims(s, x).Some? && Claims(s, x) == Claims(s, y) ==> x == y
  }

  lemma OneBufferStands(a: State, b: State)
    requires a.health == b.health && a.lanes == b.lanes && a.layout == b.layout && OneBufferToAUnit(a)
    ensures OneBufferToAUnit(b)
  {
    forall x ensures Claims(a, x) == Claims(b, x) { }
  }

  lemma ShownAlike(a: State, b: State, u: nat)
    requires a.health == b.health && a.lanes == b.lanes && a.layout == b.layout
    requires Derived(a) && Derived(b) && OneBufferToAUnit(a) && u in a.view
    ensures u in b.view && a.view[u] == b.view[u]
  {
    var x :| x in a.health && Claims(a, x) == Some(u) && a.view[u] == a.health[x];
    assert Claims(b, x) == Some(u);
    var y :| y in b.health && Claims(b, y) == Some(u) && b.view[u] == b.health[y];
    assert Claims(a, y) == Some(u);
  }

  lemma ViewsAgree(a: State, b: State)
    requires a.health == b.health && a.lanes == b.lanes && a.layout == b.layout
    requires Derived(a) && Derived(b) && OneBufferToAUnit(a)
    ensures forall u :: u in a.view ==> u in b.view && a.view[u] == b.view[u]
  {
    forall u | u in a.view ensures u in b.view && a.view[u] == b.view[u] { ShownAlike(a, b, u); }
  }

  /** What the frames of a run said of one buffer. */
  function Said(es: seq<Event>, name: string): seq<Delta>
    decreases |es|
  {
    if es == [] then []
    else (if es[0].Buffer? && es[0].name == name then [es[0].delta] else []) + Said(es[1..], name)
  }

  lemma {:induction false} RecordFrom(s: State, es: seq<Event>, name: string)
    ensures var n, ds := Run(s, es), Said(es, name);
            && (name in n.health <==> name in s.health || ds != [])
            && (name in n.health ==>
                  n.health[name] == ApplyAll(if name in s.health then s.health[name] else NOT_REPORTED, ds))
    decreases |es|
  {
    if es != [] {
      RecordStep(s, es[0], name);
      RecordFrom(Next(s, es[0]), es[1..], name);
      var rest := Said(es[1..], name);
      if es[0].Buffer? && es[0].name == name {
        assert ([es[0].delta] + rest)[1..] == rest;
      } else {
        assert [] + rest == rest;
      }
    }
  }

  lemma RecordStep(s: State, e: Event, name: string)
    ensures var n := Next(s, e);
            if e.Buffer? && e.name == name
            then name in n.health
                 && n.health[name] == Apply(if name in s.health then s.health[name] else NOT_REPORTED, e.delta)
            else (name in n.health <==> name in s.health) && (name in s.health ==> n.health[name] == s.health[name])
  {
  }

  /** After any run a buffer has a record exactly if some frame named it, and the record is what all
      its frames said, put together, rebuilds or not; and its motion is the one its state names. */
  lemma RecordIsWhatWasSaid(es: seq<Event>, name: string)
    ensures var n, ds := Run(NOTHING, es), Said(es, name);
            && (name in n.health <==> ds != [])
            && (name in n.health ==>
                  n.health[name] == Apply(NOT_REPORTED, MergeAll(ds)) && MotionMatches(n.health[name]))
  {
    RecordFrom(NOTHING, es, name);
    FramesMerge(NOT_REPORTED, Said(es, name));
    MotionFollowsState(NOT_REPORTED, Said(es, name));
  }

  /** With one buffer to a unit the derived view is a function of the records alone: neither the
      iteration order nor the way the frames were cut shows in it. */
  lemma DerivedViewIsUnique(a: State, b: State)
    requires a.health == b.health && a.lanes == b.lanes && a.layout == b.layout
    requires Derived(a) && Derived(b) && OneBufferToAUnit(a)
    ensures a.view == b.view
  {
    OneBufferStands(a, b);
    ViewsAgree(a, b);
    ViewsAgree(b, a);
  }

  /** A buffer that moves to another unit leaves its old reading on the first one until the
      units are rebuilt. */
  lemma MovedBufferLeavesItsReading(h: Delta)
    ensures var es := [Rebuild(2, map["lane1" := 0, "lane2" := 1]), Buffer("b", Some(["lane1"]), h, ["b"])];
            var s := Run(NOTHING, es);
            !Derived(Next(s, Buffer("b", Some(["lane2"]), SILENCE, ["b"])))
  {
    var es := [Rebuild(2, map["lane1" := 0, "lane2" := 1]), Buffer("b", Some(["lane1"]), h, ["b"])];
    var s0 := Next(NOTHING, es[0]);
    assert es[1..] == [es[1]] && es[1..][1..] == [];
    var s := Next(s0, es[1]);
    assert Run(NOTHING, es) == Run(s0, es[1..]) == Run(s, []) == s;
    assert ["b"][1..] == [];
    assert s.view == map[0 := s.health["b"]];
    var e := Buffer("b", Some(["lane2"]), SILENCE, ["b"]);
    var n := Next(s, e);
    StepDerivedExactly(s, e);
    assert n.health.Keys == {"b"} && Claims(n, "b") == Some(1);
    assert !Claimed(n, 0);
    assert 0 in s.view;
  }

  // ---------------------------------------------------------------- the backend

  class Backend {
    var health: map<string, Health>
    var order: seq<string>
    var lanes: map<string, seq<string>>
    var layout: map<string, nat>
    var view: map<nat, Health>

    ghost function View(): State
      reads this
    { State(health, order, lanes, layout, view) }

    constructor ()
      ensures View() == NOTHING
    {
      health, order, lanes, layout, view := map[], [], map[], map[], map[];
    }

    method FindUnit(name: string) returns (unit: Option<nat>)
      ensures unit == UnitOf(name, lanes, layout)
    {
      if name !in lanes { return None; }
      var ls := lanes[name];
      for i := 0 to |ls|
        invariant FirstUnit(ls, layout) == FirstUnit(ls[i..], layout)
      {
        if ls[i] in layout { return Some(layout[ls[i]]); }
        assert ls[i..][1..] == ls[i + 1..];
      }
      return None;
    }

    method ApplyBufferHealthToUnits()
      requires Valid(View())
      modifies `view
      ensures View() == Reattach(old(view), old(View()))
    {
      ghost var s := View();
      for i := 0 to |order|
        invariant View() == s.(view := view)
        invariant AttachAll(s.view, s, order) == AttachAll(view, s, order[i..])
      {
        var name := order[i];
        assert order[i..][0] == name && order[i..][1..] == order[i + 1..];
        var unit := FindUnit(name);
        if name in health && unit.Some? { view := view[unit.value := health[name]]; }
      }
    }

    /** `newOrder` is the iteration order once the record exists. */
    method ApplyBuffer(name: string, newLanes: Option<seq<string>>, delta: Delta, newOrder: seq<string>)
      requires Valid(View()) && Ordered(View(), Buffer(name, newLanes, delta, newOrder))
      modifies this
      ensures View() == Next(old(View()), Buffer(name, newLanes, delta, newOrder))
    {
      if newLanes.Some? { lanes := lanes[name := newLanes.value]; }
      var before := if name in health then health[name] else NOT_REPORTED;
      health := health[name := Apply(before, delta)];
      order := newOrder;
      ghost var v, s := view, View();
      ApplyBufferHealthToUnits();
      AttachAllIgnoresView(v, s, Recorded(old(View()), name, newLanes, delta, newOrder), newOrder);
    }

    method ReorganizeSlots(units: nat, newLayout: map<string, nat>)
      requires Valid(View())
      modifies this
      ensures View() == Next(old(View()), Rebuild(units, newLayout))
    {
      if units <= 1 { return; }
      layout := newLayout;
      view := map[];
      ghost var s := View();
      ApplyBufferHealthToUnits();
      AttachAllIgnoresView(map[], s, old(View()).(layout := newLayout), order);
    }
  }
}
