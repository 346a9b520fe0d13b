/** The fork firmware's print map: `BOX_PRINT_MAP MAP=<tool>:<slot>,...` for the next print.

    The backend builds the text from the tools a file uses and the user's remap, refuses a remap
    no bay can feed, and clears the pending map when there is nothing to send. The firmware keeps
    a map for the next print it loads. `std::set` and `std::map` iterate in key order, so an
    ordered map is a strictly ascending sequence of pairs here. */
module CfsPrintMap {
  import opened Wrappers

  type Pair = (int, int)

  const CLEAR := "BOX_PRINT_MAP MAP="

  // ---------------------------------------------------------------- ordered maps

  predicate Ascending(es: seq<Pair>) { forall i, j :: 0 <= i < j < |es| ==> es[i].0 < es[j].0 }

  predicate AscendingInts(s: seq<int>) { forall i, j :: 0 <= i < j < |s| ==> s[i] < s[j] }

  function ToMap(es: seq<Pair>): map<int, int>
    decreases |es|
  {
    if es == [] then map[] else ToMap(es[1..])[es[0].0 := es[0].1]
  }

  /** Assignment through the subscript of an ordered map. */
  function Assign(es: seq<Pair>, k: int, v: int): seq<Pair>
    decreases |es|
  {
    if es == [] || k < es[0].0 then [(k, v)] + es
    else if k == es[0].0 then [(k, v)] + es[1..]
    else [es[0]] + Assign(es[1..], k, v)
  }

  lemma {:induction false} KeysOf(es: seq<Pair>, k: int)
    ensures k in ToMap(es) <==> exists i :: 0 <= i < |es| && es[i].0 == k
    decreases |es|
  {
    if es != [] {
      KeysOf(es[1..], k);
      if k in ToMap(es[1..]) { var i :| 0 <= i < |es[1..]| && es[1..][i].0 == k; assert es[i + 1].0 == k; }
      if i :| 0 <= i < |es| && es[i].0 == k { if i > 0 { assert es[1..][i - 1].0 == k; } }
    }
  }

  lemma {:induction false} AssignAddsOne(es: seq<Pair>, k: int, v: int)
    ensures forall p :: p in Assign(es, k, v) ==> p == (k, v) || p in es
    decreases |es|
  {
    if es != [] && k > es[0].0 { AssignAddsOne(es[1..], k, v); }
  }

  lemma {:induction false} AssignUpdates(es: seq<Pair>, k: int, v: int)
    ensures ToMap(Assign(es, k, v)) == ToMap(es)[k := v]
    decreases |es|
  {
    if es == [] || k < es[0].0 {
      assert ([(k, v)] + es)[1..] == es;
    } else if k == es[0].0 {
      assert ([(k, v)] + es[1..])[1..] == es[1..];
    } else {
      AssignUpdates(es[1..], k, v);
      assert ([es[0]] + Assign(es[1..], k, v))[1..] == Assign(es[1..], k, v);
    }
  }

  lemma PrependAscends(e: Pair, rest: seq<Pair>)
    requires Ascending(rest) && forall j :: 0 <= j < |rest| ==> e.0 < rest[j].0
    ensures Ascending([e] + rest)
  {
  }

  lemma AssignStaysAbove(es: seq<Pair>, k: int, v: int)
    requires Ascending(es) && es != [] && k > es[0].0 && Ascending(Assign(es[1..], k, v))
    ensures Ascending(Assign(es, k, v))
  {
    var rest := Assign(es[1..], k, v);
    AssignAddsOne(es[1..], k, v);
    forall j | 0 <= j < |rest| ensures es[0].0 < rest[j].0 {
      assert rest[j] in rest;
      if rest[j] != (k, v) { assert rest[j] in es[1..]; }
    }
    PrependAscends(es[0], rest);
  }

  lemma {:induction false} AssignStaysAscending(es: seq<Pair>, k: int, v: int)
    requires Ascending(es)
    ensures Ascending(Assign(es, k, v))
    decreases |es|
  {
    if es != [] && k > es[0].0 {
      AssignStaysAscending(es[1..], k, v);
      AssignStaysAbove(es, k, v);
    }
  }

  // ---------------------------------------------------------------- what is routed

  predicate Named(tools: set<int>, tool: int) { tools == {} || tool in tools }

  /** The tools of `some` at their own slots, under the remap's valid entries for tools that a map
      for `all` may name. */
  function Wanted(all: set<int>, some: set<int>, remap: map<int, int>): map<int, int> {
    map t | t in some + remap.Keys && t >= 0 && (t in some || (Named(all, t) && remap[t] >= 0)) ::
      if t in remap && remap[t] >= 0 then remap[t] else t
  }

  /** The map's contents. */
  function Routed(tools: set<int>, remap: map<int, int>): map<int, int> { Wanted(tools, tools, remap) }

  /** An entry the map carries that moves a tool off its own slot. */
  predicate Carried(tools: set<int>, tool: int, slot: int) {
    tool >= 0 && slot >= 0 && slot != tool && Named(tools, tool)
  }

  predicate Moves(tools: set<int>, remap: map<int, int>) { exists t :: t in remap && Carried(tools, t, remap[t]) }

  predicate NothingToMap(tools: set<int>, remap: map<int, int>) {
    Routed(tools, remap) == map[] || (tools == {} && !Moves(tools, remap))
  }

  /** What the machine can feed: bays the firmware knows, in boxes that answer. */
  datatype Bays = Bays(known: set<int>, disconnected: set<int>)

  predicate Refuses(bays: Bays, tools: set<int>, remap: map<int, int>) {
    exists t :: t in remap && Carried(tools, t, remap[t])
                && (remap[t] !in bays.known || remap[t] in bays.disconnected)
  }

  /** Whatever is refused for would have been in the map, off its own slot. */
  lemma RefusalIsOfACarriedEntry(bays: Bays, tools: set<int>, remap: map<int, int>)
    requires Refuses(bays, tools, remap)
    ensures exists t :: t in Routed(tools, remap) && Routed(tools, remap)[t] != t
                        && (Routed(tools, remap)[t] !in bays.known || Routed(tools, remap)[t] in bays.disconnected)
    ensures !NothingToMap(tools, remap)
  {
    var t :| t in remap && Carried(tools, t, remap[t]) && (remap[t] !in bays.known || remap[t] in bays.disconnected);
    assert t in Routed(tools, remap) && Routed(tools, remap)[t] == remap[t];
  }

  // ---------------------------------------------------------------- text

  predicate IsDigit(c: char) { '0' <= c <= '9' }

  function Digits(n: nat): (s: string)
    ensures |s| > 0 && forall i :: 0 <= i < |s| ==> IsDigit(s[i])
  {
    if n < 10 then ['0' + n as char] else Digits(n / 10) + ['0' + (n % 10) as char]
  }

  function ReadNat(s: string): Option<nat>
    decreases |s|
  {
    if s == [] || !IsDigit(s[|s| - 1]) then None
    else
      var d := (s[|s| - 1] - '0') as nat;
      if |s| == 1 then Some(d)
      else match ReadNat(s[..|s| - 1]) case None => None case Some(n) => Some(10 * n + d)
  }

  lemma {:induction false} DigitsReadBack(n: nat)
    ensures ReadNat(Digits(n)) == Some(n)
  {
    if n >= 10 {
      var s := Digits(n);
      assert s[..|s| - 1] == Digits(n / 10);
      DigitsReadBack(n / 10);
    }
  }

  predicate NonNegative(es: seq<Pair>) { forall i :: 0 <= i < |es| ==> es[i].0 >= 0 && es[i].1 >= 0 }

  function Entry(e: Pair): string
    requires e.0 >= 0 && e.1 >= 0
  {
    Digits(e.0) + ":" + Digits(e.1)
  }

  function Tail(es: seq<Pair>): string
    requires NonNegative(es)
    decreases |es|
  {
    if es == [] then "" else "," + Entry(es[0]) + Tail(es[1..])
  }

  function Text(es: seq<Pair>): string
    requires NonNegative(es)
  {
    if es == [] then "" else Entry(es[0]) + Tail(es[1..])
  }

  /** Where `c` first stands in `s`, or the length of `s`. */
  function Find(s: string, c: char): (i: nat)
    ensures i <= |s| && (i < |s| ==> s[i] == c) && forall k :: 0 <= k < i ==> s[k] != c
    decreases |s|
  {
    if s == [] || s[0] == c then 0 else 1 + Find(s[1..], c)
  }

  lemma FoundAt(s: string, c: char, i: nat)
    requires i <= |s| && (i < |s| ==> s[i] == c) && forall k :: 0 <= k < i ==> s[k] != c
    ensures Find(s, c) == i
  {
  }

  function ReadEntry(s: string): Option<Pair> {
    var i := Find(s, ':');
    if i == |s| then None
    else match (ReadNat(s[..i]), ReadNat(s[i + 1..]))
      case (Some(t), Some(k)) => Some((t, k))
      case _ => None
  }

  /** The reader of the MAP= parameter: entries between commas, none of them empty. */
  function Read(s: string): Option<seq<Pair>>
    decreases |s|
  {
    var i := Find(s, ',');
    match ReadEntry(s[..i])
    case None => None
    case Some(e) =>
      if i == |s| then Some([e])
      else match Read(s[i + 1..]) case None => None case Some(es) => Some([e] + es)
  }

  lemma EntryReadsBack(e: Pair)
    requires e.0 >= 0 && e.1 >= 0
    ensures ReadEntry(Entry(e)) == Some(e) && NoComma(Entry(e))
  {
    var s, i := Entry(e), |Digits(e.0)|;
    assert s[..i] == Digits(e.0) && s[i] == ':' && s[i + 1..] == Digits(e.1);
    FoundAt(s, ':', i);
    DigitsReadBack(e.0);
    DigitsReadBack(e.1);
  }

  predicate NoComma(s: string) { forall k :: 0 <= k < |s| ==> s[k] != ',' }

  lemma ReadLast(head: string, e: Pair)
    requires NoComma(head) && ReadEntry(head) == Some(e)
    ensures Read(head) == Some([e])
  {
    FoundAt(head, ',', |head|);
    assert head[..|head|] == head;
  }

  lemma ReadMore(head: string, e: Pair, tail: string, es: seq<Pair>)
    requires NoComma(head) && ReadEntry(head) == Some(e) && Read(tail) == Some(es)
    ensures Read(head + "," + tail) == Some([e] + es)
  {
    var s, n := head + "," + tail, |head|;
    FoundAt(s, ',', n);
    assert s[..n] == head && s[n + 1..] == tail;
  }

  lemma Regroup(a: string, b: string, c: string, d: string)
    ensures a + (b + c + d) == a + b + (c + d)
  {
  }

  lemma TextOfMore(es: seq<Pair>)
    requires NonNegative(es) && |es| > 1
    ensures Text(es) == Entry(es[0]) + "," + Text(es[1..])
  {
    var rest := es[1..];
    Regroup(Entry(es[0]), ",", Entry(rest[0]), Tail(rest[1..]));
  }

  lemma {:induction false} TextReadsBack(es: seq<Pair>)
    requires NonNegative(es) && es != []
    ensures Read(Text(es)) == Some(es)
    decreases |es|
  {
    var e, rest := es[0], es[1..];
    EntryReadsBack(e);
    assert es == [e] + rest;
    if rest == [] {
      assert Text(es) == Entry(e) && es == [e];
      ReadLast(Entry(e), e);
    } else {
      TextOfMore(es);
      TextReadsBack(rest);
      ReadMore(Entry(e), e, Text(rest), rest);
    }
  }

  lemma {:induction false} TailPush(es: seq<Pair>, e: Pair)
    requires NonNegative(es) && e.0 >= 0 && e.1 >= 0
    ensures NonNegative(es + [e]) && Tail(es + [e]) == Tail(es) + "," + Entry(e)
    decreases |es|
  {
    if es == [] {
      assert (es + [e])[1..] == [];
    } else {
      assert (es + [e])[1..] == es[1..] + [e];
      TailPush(es[1..], e);
    }
  }

  lemma TextPush(es: seq<Pair>, n: nat)
    requires NonNegative(es) && n < |es|
    ensures Text(es[..n + 1]) == Text(es[..n]) + (if n == 0 then "" else ",") + Entry(es[n])
  {
    if n > 0 {
      assert es[..n + 1][1..] == es[1..n] + [es[n]] && es[..n][1..] == es[1..n];
      TailPush(es[1..n], es[n]);
    }
  }

  // ---------------------------------------------------------------- the backend

  function AsSet(s: seq<int>): set<int> { set x | x in s }

  lemma {:induction false} ValueAt(es: seq<Pair>, k: nat)
    requires Ascending(es) && k < |es|
    ensures es[k].0 in ToMap(es) && ToMap(es)[es[k].0] == es[k].1
    decreases |es|
  {
    if k > 0 { ValueAt(es[1..], k - 1); }
  }

  lemma {:induction false} ToMapPush(es: seq<Pair>, n: nat)
    requires Ascending(es) && n < |es|
    ensures es[n].0 !in ToMap(es[..n]) && ToMap(es[..n + 1]) == ToMap(es[..n])[es[n].0 := es[n].1]
    decreases |es|
  {
    if n == 0 {
      assert es[..1][1..] == [];
    } else {
      assert es[..n + 1][1..] == es[1..][..n] && es[..n][1..] == es[1..][..n - 1];
      ToMapPush(es[1..], n - 1);
    }
  }

  lemma AssignKeeps(es: seq<Pair>, k: int, v: int)
    requires Ascending(es) && NonNegative(es) && k >= 0 && v >= 0
    ensures Ascending(Assign(es, k, v)) && NonNegative(Assign(es, k, v))
    ensures ToMap(Assign(es, k, v)) == ToMap(es)[k := v]
  {
    AssignUpdates(es, k, v);
    AssignStaysAscending(es, k, v);
    AssignAddsOne(es, k, v);
    var a := Assign(es, k, v);
    forall i | 0 <= i < |a| ensures a[i].0 >= 0 && a[i].1 >= 0 { assert a[i] in a; }
  }

  lemma WantedTool(all: set<int>, some: set<int>, tool: int)
    ensures Wanted(all, some + {tool}, map[]) ==
            if tool >= 0 then Wanted(all, some, map[])[tool := tool] else Wanted(all, some, map[])
  {
  }

  lemma WantedRemap(all: set<int>, m: map<int, int>, tool: int, slot: int)
    requires tool !in m
    ensures Wanted(all, all, m[tool := slot]) ==
            if tool >= 0 && slot >= 0 && Named(all, tool) then Wanted(all, all, m)[tool := slot]
            else Wanted(all, all, m)
  {
  }

  /** The map under the remap's first `j` entries. */
  predicate Remapped(all: set<int>, remap: seq<Pair>, j: nat, resolved: seq<Pair>)
    requires j <= |remap|
  {
    Ascending(resolved) && NonNegative(resolved) && ToMap(resolved) == Wanted(all, all, ToMap(remap[..j]))
  }

  predicate CarriedBefore(all: set<int>, remap: seq<Pair>, j: nat)
    requires j <= |remap|
  {
    exists k :: 0 <= k < j && Carried(all, remap[k].0, remap[k].1)
  }

  lemma CarriedStep(all: set<int>, remap: seq<Pair>, j: nat)
    requires j < |remap|
    ensures CarriedBefore(all, remap, j + 1) <==>
            CarriedBefore(all, remap, j) || Carried(all, remap[j].0, remap[j].1)
  {
  }

  lemma RemapStep(all: set<int>, remap: seq<Pair>, j: nat, resolved: seq<Pair>)
    requires Ascending(remap) && j < |remap| && Remapped(all, remap, j, resolved)
    ensures var (tool, slot) := remap[j];
            var n := if tool >= 0 && slot >= 0 && Named(all, tool) then Assign(resolved, tool, slot) else resolved;
            Remapped(all, remap, j + 1, n)
  {
    var (tool, slot) := remap[j];
    ToMapPush(remap, j);
    WantedRemap(all, ToMap(remap[..j]), tool, slot);
    if tool >= 0 && slot >= 0 && Named(all, tool) { AssignKeeps(resolved, tool, slot); }
  }

  /** Routes the tools through the remap, as an ordered map. */
  method Resolve(tools: seq<int>, remap: seq<Pair>) returns (resolved: seq<Pair>, remapped: bool)
    requires AscendingInts(tools) && Ascending(remap)
    ensures Ascending(resolved) && NonNegative(resolved)
    ensures ToMap(resolved) == Routed(AsSet(tools), ToMap(remap))
    ensures remapped <==> Moves(AsSet(tools), ToMap(remap))
  {
    var own := OwnSlots(tools);
    assert remap[..0] == [];
    resolved, remapped := ApplyRemap(tools, remap, own);
    assert remap[..|remap|] == remap;
    MovesIs(tools, remap);
  }

  lemma NamedIs(tools: seq<int>, tool: int)
    ensures Named(AsSet(tools), tool) <==> |tools| == 0 || tool in tools
  {
    if |tools| > 0 { assert tools[0] in AsSet(tools); }
  }

  method ApplyRemap(tools: seq<int>, remap: seq<Pair>, own: seq<Pair>) returns (resolved: seq<Pair>, remapped: bool)
    requires Ascending(remap) && Remapped(AsSet(tools), remap, 0, own)
    ensures Remapped(AsSet(tools), remap, |remap|, resolved)
    ensures remapped <==> CarriedBefore(AsSet(tools), remap, |remap|)
  {
    ghost var all := AsSet(tools);
    resolved, remapped := own, false;
    for j := 0 to |remap|
      invariant Remapped(all, remap, j, resolved)
      invariant remapped <==> CarriedBefore(all, remap, j)
    {
      var (tool, slot) := remap[j];
      CarriedStep(all, remap, j);
      RemapStep(all, remap, j, resolved);
      NamedIs(tools, tool);
      if tool >= 0 && slot >= 0 && (|tools| == 0 || tool in tools) {
        resolved := Assign(resolved, tool, slot);
        remapped := remapped || slot != tool;
      }
    }
  }

  method OwnSlots(tools: seq<int>) returns (resolved: seq<Pair>)
    requires AscendingInts(tools)
    ensures Ascending(resolved) && NonNegative(resolved)
    ensures ToMap(resolved) == Wanted(AsSet(tools), AsSet(tools), map[])
  {
    ghost var all := AsSet(tools);
    resolved := [];
    for i := 0 to |tools|
      invariant Ascending(resolved) && NonNegative(resolved)
      invariant ToMap(resolved) == Wanted(all, AsSet(tools[..i]), map[])
    {
      assert AsSet(tools[..i + 1]) == AsSet(tools[..i]) + {tools[i]};
      WantedTool(all, AsSet(tools[..i]), tools[i]);
      if tools[i] >= 0 {
        AssignKeeps(resolved, tools[i], tools[i]);
        resolved := Assign(resolved, tools[i], tools[i]);
      }
    }
    assert tools[..|tools|] == tools;
  }

  method PrintMapGcode(tools: seq<int>, remap: seq<Pair>) returns (gcode: string)
    requires AscendingInts(tools) && Ascending(remap)
    ensures var routed := Routed(AsSet(tools), ToMap(remap));
            if NothingToMap(AsSet(tools), ToMap(remap)) then gcode == ""
            else |gcode| > |CLEAR| && gcode[..|CLEAR|] == CLEAR
                 && exists es :: Read(gcode[|CLEAR|..]) == Some(es) && Ascending(es) && ToMap(es) == routed
  {
    if |tools| > 0 { assert tools[0] in AsSet(tools); }
    var resolved, remapped := Resolve(tools, remap);
    if |resolved| == 0 || (|tools| == 0 && !remapped) { return ""; }
    assert resolved[0].0 in ToMap(resolved);
    gcode := WriteMap(resolved);
  }

  method WriteMap(resolved: seq<Pair>) returns (gcode: string)
    requires NonNegative(resolved) && resolved != []
    ensures |gcode| > |CLEAR| && gcode[..|CLEAR|] == CLEAR && Read(gcode[|CLEAR|..]) == Some(resolved)
  {
    var text := "";
    for i := 0 to |resolved|
      invariant text == Text(resolved[..i])
      invariant i == 0 <==> text == ""
    {
      TextPush(resolved, i);
      text := text + (if text == "" then "" else ",") + Entry(resolved[i]);
    }
    assert resolved[..|resolved|] == resolved;
    TextReadsBack(resolved);
    gcode := CLEAR + text;
    assert gcode[|CLEAR|..] == text;
  }

  lemma MovesIs(tools: seq<int>, remap: seq<Pair>)
    requires Ascending(remap)
    ensures Moves(AsSet(tools), ToMap(remap)) <==> CarriedBefore(AsSet(tools), remap, |remap|)
  {
    if k :| 0 <= k < |remap| && Carried(AsSet(tools), remap[k].0, remap[k].1) { ValueAt(remap, k); }
    if t :| t in ToMap(remap) && Carried(AsSet(tools), t, ToMap(remap)[t]) {
      KeysOf(remap, t);
      var k :| 0 <= k < |remap| && remap[k].0 == t;
      ValueAt(remap, k);
    }
  }

  method CheckPreprintRemap(bays: Bays, tools: seq<int>, remap: seq<Pair>) returns (refused: bool)
    requires AscendingInts(tools) && Ascending(remap)
    ensures refused <==> Refuses(bays, AsSet(tools), ToMap(remap))
  {
    for j := 0 to |remap|
      invariant forall k :: 0 <= k < j && Carried(AsSet(tools), remap[k].0, remap[k].1) ==>
                  remap[k].1 in bays.known && remap[k].1 !in bays.disconnected
    {
      var (tool, slot) := remap[j];
      ValueAt(remap, j);
      if |tools| > 0 { assert tools[0] in AsSet(tools); }
      if tool < 0 || slot < 0 || slot == tool || !(|tools| == 0 || tool in tools) { continue; }
      if slot !in bays.known { return true; }
      if slot in bays.disconnected { return true; }
    }
    if t :| t in ToMap(remap) && Carried(AsSet(tools), t, ToMap(remap)[t]) {
      KeysOf(remap, t);
    }
    assert !Refuses(bays, AsSet(tools), ToMap(remap)) by {
      if t :| t in ToMap(remap) && Carried(AsSet(tools), t, ToMap(remap)[t])
              && (ToMap(remap)[t] !in bays.known || ToMap(remap)[t] in bays.disconnected) {
        KeysOf(remap, t);
        var k :| 0 <= k < |remap| && remap[k].0 == t;
        ValueAt(remap, k);
      }
    }
    return false;
  }

  /** The text that goes out ahead of a start. */
  ghost predicate Announces(fork: bool, bays: Bays, tools: set<int>, remap: map<int, int>, gcode: string) {
    if !fork then gcode == ""
    else if Refuses(bays, tools, remap) || NothingToMap(tools, remap) then gcode == CLEAR
    else |gcode| > |CLEAR| && gcode[..|CLEAR|] == CLEAR
         && exists es :: Read(gcode[|CLEAR|..]) == Some(es) && Ascending(es) && ToMap(es) == Routed(tools, remap)
  }

  method BuildPreprintGcode(fork: bool, bays: Bays, tools: seq<int>, remap: seq<Pair>) returns (gcode: string)
    requires AscendingInts(tools) && Ascending(remap)
    ensures Announces(fork, bays, AsSet(tools), ToMap(remap), gcode)
  {
    if !fork { return ""; }
    var refused := CheckPreprintRemap(bays, tools, remap);
    if refused { return CLEAR; }
    gcode := PrintMapGcode(tools, remap);
    if gcode == "" { gcode := CLEAR; }
  }

  // ---------------------------------------------------------------- over many starts

  /** The map kept for the next print loaded, and the map of the print under way. */
  datatype Firmware = Firmware(pending: Option<map<int, int>>, inForce: Option<map<int, int>>)

  function Receive(pending: Option<map<int, int>>, gcode: string): Option<map<int, int>> {
    if gcode == CLEAR then None
    else if !(CLEAR < gcode) then pending
    else match Read(gcode[|CLEAR|..]) case Some(es) => Some(ToMap(es)) case None => pending
  }

  /** One start from this screen. `received` is whether the text reached the firmware, `answered`
      whether its success came back, `loads` whether the print then loaded. */
  datatype Start = Start(
    fork: bool, bays: Bays, tools: set<int>, remap: map<int, int>, gcode: string,
    received: bool, answered: bool, loads: bool)

  ghost predicate Genuine(s: Start) {
    Announces(s.fork, s.bays, s.tools, s.remap, s.gcode) && (s.answered ==> s.received)
  }

  function Load(f: Firmware): Firmware { Firmware(None, f.pending) }

  predicate Prints(s: Start) {
    s.loads && !Refuses(s.bays, s.tools, s.remap) && (s.gcode == "" || s.answered)
  }

  /** A refusal stops the start before anything is sent, and a text not answered stops it after. */
  function AfterStart(f: Firmware, s: Start): Firmware {
    if Refuses(s.bays, s.tools, s.remap) then f
    else
      var sent := if s.gcode != "" && s.received then f.(pending := Receive(f.pending, s.gcode)) else f;
      if Prints(s) then Load(sent) else sent
  }

  /** The start's own map, or none when it has nothing to say. */
  function Own(s: Start): Option<map<int, int>> {
    if !s.fork || NothingToMap(s.tools, s.remap) then None else Some(Routed(s.tools, s.remap))
  }

  /** Whatever earlier starts left pending, the map in force for a print started here (not refused,
      its text if any answered, and then loaded) is that start's own or none: always with map
      support, and without it exactly if nothing is pending. */
  lemma MapInForceIsItsOwn(f: Firmware, s: Start)
    requires Genuine(s) && !Refuses(s.bays, s.tools, s.remap) && (s.gcode == "" || s.answered) && s.loads
    ensures AfterStart(f, s).inForce == Own(s) <==> s.fork || f.pending == None
    ensures AfterStart(f, s).pending == None
  {
  }

  /** A start that is refused, gets no answer to its text, or does not load leaves the map of the
      print under way alone. */
  lemma FailedStartsTouchNoPrint(f: Firmware, s: Start)
    requires Genuine(s) && (Refuses(s.bays, s.tools, s.remap) || (s.gcode != "" && !s.answered) || !s.loads)
    ensures AfterStart(f, s).inForce == f.inForce
    ensures AfterStart(f, s).pending == f.pending || AfterStart(f, s).pending == Own(s)
  {
  }

  function AfterStarts(f: Firmware, ss: seq<Start>): Firmware
    decreases |ss|
  {
    if ss == [] then f else AfterStarts(AfterStart(f, ss[0]), ss[1..])
  }

  function OwnOfLast(first: Option<map<int, int>>, ss: seq<Start>): Option<map<int, int>>
    decreases |ss|
  {
    if ss == [] then first else OwnOfLast(if Prints(ss[0]) then Own(ss[0]) else first, ss[1..])
  }

  /** Over any sequence of starts the map in force is the last printing start's own, however many
      starts between failed to load, lost their answer or were refused. */
  lemma {:induction false} NoStaleMap(f: Firmware, ss: seq<Start>)
    requires forall i :: 0 <= i < |ss| ==> Genuine(ss[i]) && ss[i].fork
    ensures AfterStarts(f, ss).inForce == OwnOfLast(f.inForce, ss)
    decreases |ss|
  {
    if ss != [] {
      assert Genuine(ss[0]) && ss[0].fork;
      if Prints(ss[0]) { MapInForceIsItsOwn(f, ss[0]); } else { FailedStartsTouchNoPrint(f, ss[0]); }
      NoStaleMap(AfterStart(f, ss[0]), ss[1..]);
    }
  }

  lemma {:induction false} AfterStartsEnds(f: Firmware, ss: seq<Start>, s: Start)
    ensures AfterStarts(f, ss + [s]) == AfterStart(AfterStarts(f, ss), s)
    decreases |ss|
  {
    if ss != [] {
      assert (ss + [s])[1..] == ss[1..] + [s];
      AfterStartsEnds(AfterStart(f, ss[0]), ss[1..], s);
    }
  }

  /** The start's text reached the firmware, whether or not its answer came back. */
  predicate Reached(s: Start) { s.received && !Refuses(s.bays, s.tools, s.remap) }

  /** The last start whose text reached the firmware; -1 when none did. */
  function LastReached(ss: seq<Start>): (i: int)
    ensures -1 <= i < |ss|
    ensures i >= 0 ==> Reached(ss[i])
    ensures forall j :: i < j < |ss| ==> !Reached(ss[j])
    decreases |ss|
  {
    if ss == [] then -1
    else if Reached(ss[|ss| - 1]) then |ss| - 1
    else LastReached(ss[..|ss| - 1])
  }

  /** A print loaded from elsewhere after any starts takes the map of the last start whose text
      reached the firmware, unless that one printed: the clearing is this screen's. */
  lemma {:induction false} ElsewhereTakesExactly(f: Firmware, ss: seq<Start>)
    requires forall i :: 0 <= i < |ss| ==> Genuine(ss[i]) && ss[i].fork
    ensures var i := LastReached(ss);
            Load(AfterStarts(f, ss)).inForce ==
              if i < 0 then f.pending else if Prints(ss[i]) then None else Own(ss[i])
    decreases |ss|
  {
    if ss != [] {
      var before, s := ss[..|ss| - 1], ss[|ss| - 1];
      assert ss == before + [s];
      assert Genuine(s) && s.fork;
      ElsewhereTakesExactly(f, before);
      AfterStartsEnds(f, before, s);
      if Prints(s) { MapInForceIsItsOwn(AfterStarts(f, before), s); }
    }
  }

  /** A start that sends tool 0 to bay 1 and whose answer is lost: the next print loaded from
      elsewhere has tool 0 fed by bay 1. */
  lemma ElsewhereTakesTheLeftover()
    ensures var s := Start(true, Bays({0, 1}, {}), {0}, map[0 := 1], CLEAR + Text([(0, 1)]), true, false, true);
            Genuine(s) && !Prints(s)
            && Load(AfterStarts(Firmware(None, None), [s])).inForce == Some(map[0 := 1])
  {
    var es := [(0, 1)];
    var s := Start(true, Bays({0, 1}, {}), {0}, map[0 := 1], CLEAR + Text(es), true, false, true);
    TextReadsBack(es);
    assert s.gcode[|CLEAR|..] == Text(es) && s.gcode[..|CLEAR|] == CLEAR;
    assert ToMap(es) == map[0 := 1] == Routed(s.tools, s.remap);
    assert Genuine(s);
    ElsewhereTakesExactly(Firmware(None, None), [s]);
  }
}
