// Text typed as UTF-16 code units through VK_PACKET.
module KeyboardPackets {
  import opened Optional
  import opened Keysyms
  import opened KeyboardWin32

  // ---- UTF-16, as RFC 2781 defines it ----

  predicate Scalar(ucs: nat) { ucs <= 0x10ffff && !Surrogate(ucs) }

  // Section 2.1.
  function Encode(ucs: nat): seq<nat>
    requires Scalar(ucs)
  {
    if ucs < 0x1_0000 then [ucs]
    else [0xd800 + (ucs - 0x1_0000) / 0x400, 0xdc00 + (ucs - 0x1_0000) % 0x400]
  }

  function EncodeAll(text: seq<nat>): seq<nat>
    requires forall i :: 0 <= i < |text| ==> Scalar(text[i])
  {
    if text == [] then [] else Encode(text[0]) + EncodeAll(text[1..])
  }

  // Section 2.2, where a unit that is in error is dropped.
  function Decode(units: seq<nat>): seq<nat> {
    if units == [] then []
    else if High(units[0]) && |units| > 1 && Low(units[1]) then
      [0x1_0000 + (units[0] - 0xd800) * 0x400 + (units[1] - 0xdc00)] + Decode(units[2..])
    else if Surrogate(units[0]) then Decode(units[1..])
    else [units[0]] + Decode(units[1..])
  }

  lemma {:induction false} DecodeEncoded(text: seq<nat>)
    requires forall i :: 0 <= i < |text| ==> Scalar(text[i])
    ensures Decode(EncodeAll(text)) == text
  {
    if text != [] {
      var first, rest := Encode(text[0]), EncodeAll(text[1..]);
      DecodeEncoded(text[1..]);
      assert (first + rest)[|first|..] == rest;
    }
  }

  // ---- The messages ----

  // What the system translates one unit to, whatever the modifiers.
  function UnitSymbol(tab: Tables, unit: nat): nat {
    if Surrogate(unit) then unit + 0x0100_0000 else Ucs2Keysym(tab, unit)
  }

  predicate Packet(tab: Tables, e: Input, unit: nat) {
    && e.KeyDown? && e.key.vKey == VK_PACKET && e.key.scan != SCAN_FAKE && unit < 0x1_0000
    && e.key.symbol == UnitSymbol(tab, unit) && e.key.retried == UnitSymbol(tab, unit)
  }

  // Messages that may come between the units.
  predicate Between(e: Input) {
    e.Mouse? || e.Other? || e.Timeout? || (e.KeyUp? && e.key.vKey == VK_PACKET)
  }

  // These messages bring these units.
  ghost predicate Typed(tab: Tables, es: seq<Input>, units: seq<nat>)
    decreases |es|
  {
    if es == [] then units == []
    else if Between(es[0]) then Typed(tab, es[1..], units)
    else units != [] && Packet(tab, es[0], units[0]) && Typed(tab, es[1..], units[1..])
  }

  function PressOf(o: Output): seq<nat> {
    if o.Press? then [o.symbol] else []
  }

  // The symbols pressed.
  function Pressed(out: seq<Output>): seq<nat> {
    if out == [] then [] else PressOf(out[0]) + Pressed(out[1..])
  }

  lemma Regroup(a: seq<nat>, b: seq<nat>, c: seq<nat>)
    ensures a + (b + c) == (a + b) + c && |a + b| == |a| + |b|
  {
  }

  lemma PressedUnfold(out: seq<Output>, rest: seq<Output>)
    requires out != [] && out[1..] == rest
    ensures Pressed(out) == PressOf(out[0]) + Pressed(rest)
  {
  }

  lemma {:induction false} PressedConcat(a: seq<Output>, b: seq<Output>)
    ensures Pressed(a + b) == Pressed(a) + Pressed(b)
  {
    if a == [] {
      assert a + b == b;
    } else {
      var rest := a[1..];
      PressedConcat(rest, b);
      PressedStep(a, b);
      hide Pressed, PressOf;
      Regroup(PressOf(a[0]), Pressed(rest), Pressed(b));
    }
  }

  lemma PressedStep(a: seq<Output>, b: seq<Output>)
    requires a != []
    ensures Pressed(a) == PressOf(a[0]) + Pressed(a[1..])
    ensures Pressed(a + b) == PressOf(a[0]) + Pressed(a[1..] + b)
  {
    hide Pressed, PressOf;
    var ab := a + b;
    assert ab[0] == a[0] && ab[1..] == a[1..] + b;
    PressedUnfold(a, a[1..]);
    PressedUnfold(ab, a[1..] + b);
  }

  function Symbols(tab: Tables, text: seq<nat>): seq<nat> {
    seq(|text|, i requires 0 <= i < |text| => Ucs2Keysym(tab, text[i]))
  }

  // A character past 16 bits that has no symbol of its own. Its last unit is tried again
  // alone, and that unit's mark is delivered as if it were a symbol.
  predicate Unsymbolised(ucs: nat) {
    ucs >= 0x1_0000 && PrivateUse(ucs)
  }

  // What each character of the text turns into.
  function Delivered(tab: Tables, ucs: nat): nat {
    if Unsymbolised(ucs) then 0x0100_dc00 + (ucs - 0x1_0000) % 0x400 else Ucs2Keysym(tab, ucs)
  }

  function AllDelivered(tab: Tables, text: seq<nat>): seq<nat> {
    seq(|text|, i requires 0 <= i < |text| => Delivered(tab, text[i]))
  }

  lemma AboveTables(tab: Tables, ucs: nat)
    requires WellFormed(tab) && ucs >= 0x1_0000
    ensures Ucs2Keysym(tab, ucs) == if PrivateUse(ucs) || ucs > 0x10ffff then NO_SYMBOL else ucs + 0x0100_0000
  {
    FirstSymMissing(tab.normal, ucs);
    FirstSymMissing(tab.dead, ucs);
  }

  // ---- The machine is the decoder ----

  // The remembered unit, put back in front of those still to come.
  function Pending(high: nat): (units: seq<nat>) {
    if high == 0 then [] else [high]
  }

  ghost predicate CoreInv(c: Core) {
    c.high == 0 || High(c.high)
  }

  // What one unit adds to the text, given what is remembered.
  function Character(high: nat, unit: nat): seq<nat> {
    if High(unit) then []
    else if !Low(unit) then [unit]
    else if high == 0 then []
    else [Combine(high, unit)]
  }

  lemma DecodeOne(high: nat, unit: nat, rest: seq<nat>)
    requires high == 0 || High(high)
    ensures Decode(Pending(high) + [unit] + rest) ==
      Character(high, unit) + Decode(Pending(if High(unit) then unit else 0) + rest)
  {
    var units := [unit] + rest;
    assert units[1..] == rest;
    var all := Pending(high) + [unit] + rest;
    if high == 0 {
      assert all == units;
      if High(unit) {
        assert Pending(unit) + rest == units;
      } else {
        assert Pending(0) + rest == rest;
      }
    } else {
      assert all[1..] == units;
      assert all[0] == high && all[1] == unit;
      assert all[2..] == rest;
      if High(unit) {
        assert Pending(unit) + rest == units;
      } else {
        assert Pending(0) + rest == rest;
      }
    }
  }

  // A unit that is no surrogate is not mistaken for one.
  lemma OrdinaryUnit(tab: Tables, unit: nat)
    requires WellFormed(tab) && unit < 0x1_0000 && !Surrogate(unit)
    ensures !SurrogateSymbol(UnitSymbol(tab, unit))
  {
    if SurrogateSymbol(Ucs2Keysym(tab, unit)) {
      RoundTrip(tab, unit);
    }
  }

  // A packet press goes all the way through with its symbol, or waits, or is dropped.
  lemma PacketEffect(tab: Tables, c: Core, e: Input, unit: nat)
    requires Packet(tab, e, unit)
    ensures var a, p := Assemble(tab, c.high, e.key), Plain(tab, c, e);
      && !p.arms && p.core == c.(high := a.high)
      && p.out == if a.symbol.None? then [] else
        KeyOut(SCAN_VK_PACKET, if a.symbol.value == NO_SYMBOL then UnitSymbol(tab, unit) else a.symbol.value)
  {
    hide Assemble, KeyOut, UnitSymbol;
    assert Patched(e.key) == e.key;
    assert SystemCode(e.key) == SCAN_VK_PACKET;
  }

  lemma OrdinaryAssembled(tab: Tables, high: nat, k: Key, unit: nat)
    requires WellFormed(tab) && k.symbol == UnitSymbol(tab, unit) && unit < 0x1_0000 && !Surrogate(unit)
    ensures Assemble(tab, high, k) == Assembled(0, Some(UnitSymbol(tab, unit)))
    ensures AllDelivered(tab, Character(high, unit)) == [UnitSymbol(tab, unit)]
  {
    hide Ucs2Keysym, WellFormed;
    OrdinaryUnit(tab, unit);
  }

  lemma LowAssembled(tab: Tables, high: nat, k: Key, unit: nat)
    requires WellFormed(tab) && k.vKey == VK_PACKET && k.symbol == UnitSymbol(tab, unit) && Low(unit) && High(high)
    ensures var ucs := Combine(high, unit);
      && Assemble(tab, high, k) == Assembled(0, Some(Ucs2Keysym(tab, ucs)))
      && AllDelivered(tab, Character(high, unit)) ==
           [if Ucs2Keysym(tab, ucs) == NO_SYMBOL then UnitSymbol(tab, unit) else Ucs2Keysym(tab, ucs)]
  {
    hide Ucs2Keysym, WellFormed;
    AboveTables(tab, Combine(high, unit));
  }

  lemma NothingAssembled(tab: Tables, high: nat, k: Key, unit: nat)
    requires k.vKey == VK_PACKET && k.symbol == UnitSymbol(tab, unit) && Surrogate(unit) && (High(unit) || high == 0)
    ensures Assemble(tab, high, k) == Assembled(if High(unit) then unit else 0, None)
    ensures AllDelivered(tab, Character(high, unit)) == []
  {
    hide Ucs2Keysym;
  }

  lemma PacketOut(tab: Tables, c: Core, e: Input, unit: nat)
    requires WellFormed(tab) && CoreInv(c) && Packet(tab, e, unit)
    ensures var p := Plain(tab, c, e);
      !p.arms && p.core == c.(high := if High(unit) then unit else 0)
      && Pressed(p.out) == AllDelivered(tab, Character(c.high, unit))
  {
    hide Ucs2Keysym, KeyOut, Plain, Assemble, AllDelivered, Character, UnitSymbol, WellFormed;
    PacketEffect(tab, c, e, unit);
    if !Surrogate(unit) {
      OrdinaryAssembled(tab, c.high, e.key, unit);
      OnePress(SCAN_VK_PACKET, UnitSymbol(tab, unit));
    } else if Low(unit) && c.high != 0 {
      LowAssembled(tab, c.high, e.key, unit);
      var symbol := Ucs2Keysym(tab, Combine(c.high, unit));
      OnePress(SCAN_VK_PACKET, if symbol == NO_SYMBOL then UnitSymbol(tab, unit) else symbol);
    } else {
      NothingAssembled(tab, c.high, e.key, unit);
    }
  }

  lemma OnePress(system: nat, symbol: nat)
    ensures Pressed(KeyOut(system, symbol)) == [symbol]
  {
    var p, r := Press(system, Translated(system), symbol), Release(system);
    assert [r][1..] == [] && [r, r][1..] == [r];
    assert Pressed([r]) == [] && Pressed([r, r]) == [];
    var rest := KeyOut(system, symbol)[1..];
    assert rest == [] || rest == [r] || rest == [r, r];
  }

  lemma AllDeliveredConcat(tab: Tables, a: seq<nat>, b: seq<nat>)
    ensures AllDelivered(tab, a + b) == AllDelivered(tab, a) + AllDelivered(tab, b)
  {
  }

  // While nothing is withheld, a step says what the plain keyboard says.
  lemma UnarmedStep(tab: Tables, s: State, e: Input)
    requires Inv(s) && !s.armed && !Plain(tab, s.core, e).arms
    ensures var r := Step(tab, s, e);
      Inv(r.state) && !r.state.armed && r.state.core == Plain(tab, s.core, e).core && r.out == Plain(tab, s.core, e).out
  {
    hide Plain, Step;
    StepIsPlain(tab, s, e);
    StepKeepsInv(tab, s, e);
  }

  // From any moment of a run without a withheld Ctrl.
  lemma {:induction false} PressedIsDecoded(tab: Tables, s: State, es: seq<Input>, units: seq<nat>)
    requires WellFormed(tab) && Inv(s) && !s.armed && CoreInv(s.core) && Typed(tab, es, units)
    ensures Pressed(Run(tab, s, es).out) == AllDelivered(tab, Decode(Pending(s.core.high) + units))
    decreases |es|
  {
    hide Plain, Step, Decode, AllDelivered, WellFormed, Packet, Between, Pressed, Run, Character;
    if es == [] {
      assert Pending(s.core.high) + units == Pending(s.core.high);
      NothingTyped(tab, s);
    } else {
      var e := es[0];
      RunPressesFirst(tab, s, es);
      if Between(e) {
        BetweenIsQuiet(tab, s.core, e);
        UnarmedStep(tab, s, e);
        PressedIsDecoded(tab, Step(tab, s, e).state, es[1..], units);
      } else {
        PacketOut(tab, s.core, e, units[0]);
        UnarmedStep(tab, s, e);
        PressedIsDecoded(tab, Step(tab, s, e).state, es[1..], units[1..]);
        DeliveredFirst(tab, s.core.high, units);
      }
    }
  }

  lemma RunPressesFirst(tab: Tables, s: State, es: seq<Input>)
    requires es != []
    ensures var r := Step(tab, s, es[0]);
      Pressed(Run(tab, s, es).out) == Pressed(r.out) + Pressed(Run(tab, r.state, es[1..]).out)
  {
    hide Step;
    var r := Step(tab, s, es[0]);
    PressedConcat(r.out, Run(tab, r.state, es[1..]).out);
  }

  lemma DeliveredFirst(tab: Tables, high: nat, units: seq<nat>)
    requires (high == 0 || High(high)) && units != []
    ensures AllDelivered(tab, Decode(Pending(high) + units)) ==
      AllDelivered(tab, Character(high, units[0]))
      + AllDelivered(tab, Decode(Pending(if High(units[0]) then units[0] else 0) + units[1..]))
  {
    hide AllDelivered, Decode;
    DecodeOne(high, units[0], units[1..]);
    assert Pending(high) + units == Pending(high) + [units[0]] + units[1..];
    AllDeliveredConcat(tab, Character(high, units[0]),
      Decode(Pending(if High(units[0]) then units[0] else 0) + units[1..]));
  }

  lemma NothingTyped(tab: Tables, s: State)
    requires CoreInv(s.core)
    ensures Pressed(Run(tab, s, []).out) == AllDelivered(tab, Decode(Pending(s.core.high)))
  {
    DecodePending(s.core.high);
  }

  lemma DecodePending(high: nat)
    requires high == 0 || High(high)
    ensures Decode(Pending(high)) == []
  {
  }

  lemma BetweenIsQuiet(tab: Tables, c: Core, e: Input)
    requires Between(e)
    ensures Plain(tab, c, e) == Effect(c, [], false) && Pressed(Plain(tab, c, e).out) == []
  {
  }

  // Whatever the units, what is pressed is what their decoding turns into.
  lemma TypedIsDecoded(tab: Tables, es: seq<Input>, units: seq<nat>)
    requires WellFormed(tab) && Typed(tab, es, units)
    ensures Pressed(Run(tab, INITIAL, es).out) == AllDelivered(tab, Decode(units))
  {
    PressedIsDecoded(tab, INITIAL, es, units);
    assert Pending(0) + units == units;
  }

  // It is the symbols of the decoded text exactly when no decoded character past 16 bits is
  // for private use.
  lemma SymbolsIffSymbolised(tab: Tables, es: seq<Input>, units: seq<nat>)
    requires WellFormed(tab) && Typed(tab, es, units)
    ensures Pressed(Run(tab, INITIAL, es).out) == Symbols(tab, Decode(units)) <==>
      forall i :: 0 <= i < |Decode(units)| ==> !Unsymbolised(Decode(units)[i])
  {
    var text := Decode(units);
    TypedIsDecoded(tab, es, units);
    forall i | 0 <= i < |text|
      ensures Delivered(tab, text[i]) == Ucs2Keysym(tab, text[i]) <==> !Unsymbolised(text[i])
    {
      if Unsymbolised(text[i]) {
        AboveTables(tab, text[i]);
      }
    }
    if AllDelivered(tab, text) == Symbols(tab, text) {
      forall i | 0 <= i < |text| ensures !Unsymbolised(text[i]) {
        assert AllDelivered(tab, text)[i] == Symbols(tab, text)[i];
      }
    }
  }

  // The units of U+F0000.
  const PRIVATE: seq<nat> := [0xdb80, 0xdc00]

  function PacketOf(tab: Tables, unit: nat): Input {
    KeyDown(Key(VK_PACKET, 0, false, 0, UnitSymbol(tab, unit), UnitSymbol(tab, unit), 0, false))
  }

  // It happens: typing U+F0000 presses its last unit's mark, where the character has no symbol.
  lemma PrivateUseMarked(tab: Tables)
    requires WellFormed(tab)
    ensures var es := [PacketOf(tab, PRIVATE[0]), PacketOf(tab, PRIVATE[1])];
      && Typed(tab, es, PRIVATE) && Decode(PRIVATE) == [0xf0000]
      && Pressed(Run(tab, INITIAL, es).out) == [0x0100_dc00] && Symbols(tab, [0xf0000]) == [NO_SYMBOL]
  {
    hide Ucs2Keysym, Run, Pressed;
    var a, b := PacketOf(tab, PRIVATE[0]), PacketOf(tab, PRIVATE[1]);
    assert [a, b][1..] == [b] && [b][1..] == [] && PRIVATE[1..] == [PRIVATE[1]] && PRIVATE[1..][1..] == [];
    assert Typed(tab, [b], PRIVATE[1..]);
    assert Decode(PRIVATE) == [0xf0000] by { assert PRIVATE[2..] == []; }
    TypedIsDecoded(tab, [a, b], PRIVATE);
    AboveTables(tab, 0xf0000);
  }

  lemma HighUnitWaits(tab: Tables)
    ensures var r := Step(tab, INITIAL, PacketOf(tab, 0xd83d));
      r == Reply(State(Core(0xd83d, false, false), false, 0, 0), [])
  {
    hide Ucs2Keysym;
  }

  lemma HighUnitStays(tab: Tables, s: State)
    requires s == State(Core(0xd83d, false, false), false, 0, 0)
    ensures Step(tab, s, Reset) == Reply(s, [])
  {
  }

  lemma ResetStays(tab: Tables, s: State)
    requires Inv(s) && !s.armed && CoreInv(s.core)
    ensures var r := Step(tab, s, Reset);
      Inv(r.state) && !r.state.armed && r.state.core.high == s.core.high && r.out == []
  {
  }

  // From any moment of a run without a withheld Ctrl.
  lemma {:induction false} PressedAcross(tab: Tables, s: State, es: seq<Input>, units: seq<nat>, more: seq<Input>,
      others: seq<nat>)
    requires WellFormed(tab) && Inv(s) && !s.armed && CoreInv(s.core)
    requires Typed(tab, es, units) && Typed(tab, more, others)
    ensures Pressed(Run(tab, s, es + [Reset] + more).out) ==
      AllDelivered(tab, Decode(Pending(s.core.high) + (units + others)))
    decreases |es|
  {
    hide Plain, Step, Decode, AllDelivered, WellFormed, Packet, Between, Pressed, Run, Character;
    var all := es + [Reset] + more;
    RunPressesFirst(tab, s, all);
    if es == [] {
      ResetStays(tab, s);
      assert all[1..] == more && units + others == others;
      PressedIsDecoded(tab, Step(tab, s, Reset).state, more, others);
      NothingPressed();
    } else {
      var e := es[0];
      assert all[0] == e && all[1..] == es[1..] + [Reset] + more;
      if Between(e) {
        BetweenIsQuiet(tab, s.core, e);
        UnarmedStep(tab, s, e);
        PressedAcross(tab, Step(tab, s, e).state, es[1..], units, more, others);
      } else {
        PacketOut(tab, s.core, e, units[0]);
        UnarmedStep(tab, s, e);
        PressedAcross(tab, Step(tab, s, e).state, es[1..], units[1..], more, others);
        assert (units + others)[1..] == units[1..] + others;
        DeliveredFirst(tab, s.core.high, units + others);
      }
    }
  }

  lemma NothingPressed()
    ensures Pressed([]) == []
  {
  }

  // A reset changes nothing of what is typed around it.
  lemma AcrossReset(tab: Tables, es: seq<Input>, units: seq<nat>, more: seq<Input>, others: seq<nat>)
    requires WellFormed(tab) && Typed(tab, es, units) && Typed(tab, more, others)
    ensures Pressed(Run(tab, INITIAL, es + [Reset] + more).out) == AllDelivered(tab, Decode(units + others))
  {
    PressedAcross(tab, INITIAL, es, units, more, others);
    assert Pending(0) + (units + others) == units + others;
  }

  // The end of the one and the start of the other are the halves of a pair.
  predicate Parted(units: seq<nat>, others: seq<nat>) {
    units != [] && others != [] && High(units[|units| - 1]) && Low(others[0])
  }

  // How many units the first step of decoding takes, and what they give.
  function Taken(units: seq<nat>): (n: nat)
    requires units != []
    ensures 1 <= n <= 2 && n <= |units|
  {
    if High(units[0]) && |units| > 1 && Low(units[1]) then 2 else 1
  }

  function Given(units: seq<nat>): seq<nat>
    requires units != []
  {
    if Taken(units) == 2 then [0x1_0000 + (units[0] - 0xd800) * 0x400 + (units[1] - 0xdc00)]
    else if Surrogate(units[0]) then []
    else [units[0]]
  }

  lemma DecodeFirst(units: seq<nat>)
    requires units != []
    ensures Decode(units) == Given(units) + Decode(units[Taken(units)..])
  {
  }

  // The first step takes the same with more behind, unless it is the one that is parted.
  lemma FirstWithMore(units: seq<nat>, others: seq<nat>)
    requires units != [] && (|units| == 1 ==> !Parted(units, others))
    ensures Taken(units + others) == Taken(units) && Given(units + others) == Given(units)
    ensures (units + others)[Taken(units)..] == units[Taken(units)..] + others
    ensures Parted(units[Taken(units)..], others) <==> Parted(units, others)
  {
  }

  lemma DecodePair(units: seq<nat>, others: seq<nat>)
    requires |units| == 1 && Parted(units, others)
    ensures |Decode(units + others)| == |Decode(units)| + |Decode(others)| + 1
  {
    assert (units + others)[2..] == others[1..] && units[1..] == [];
    hide Decode;
    DecodeFirst(units + others);
    DecodeFirst(units);
    DecodeFirst(others);
    DecodePending(0);
  }

  // Decoding in two goes loses exactly the character of a parted pair.
  lemma {:induction false} DecodeInTwo(units: seq<nat>, others: seq<nat>)
    ensures !Parted(units, others) ==> Decode(units + others) == Decode(units) + Decode(others)
    ensures Parted(units, others) ==> |Decode(units + others)| == |Decode(units)| + |Decode(others)| + 1
    decreases |units|
  {
    if units == [] {
      assert units + others == others;
    } else if |units| == 1 && Parted(units, others) {
      DecodePair(units, others);
    } else {
      var first, rest := DecodeStep(units, others);
      DecodeInTwo(rest, others);
      hide Decode, Parted;
      Regroup(first, Decode(rest), Decode(others));
    }
  }

  lemma DecodeStep(units: seq<nat>, others: seq<nat>) returns (first: seq<nat>, rest: seq<nat>)
    requires units != [] && (|units| == 1 ==> !Parted(units, others))
    ensures |rest| < |units| && (Parted(rest, others) <==> Parted(units, others))
    ensures Decode(units) == first + Decode(rest) && Decode(units + others) == first + Decode(rest + others)
  {
    hide Decode, Given, Parted;
    first, rest := Given(units), units[Taken(units)..];
    FirstWithMore(units, others);
    DecodeFirst(units);
    DecodeFirst(units + others);
  }

  // It parts what is typed before it from what is typed after, as if each were typed alone,
  // exactly when no pair is split by it.
  lemma ResetPartsIff(tab: Tables, es: seq<Input>, units: seq<nat>, more: seq<Input>, others: seq<nat>)
    requires WellFormed(tab) && Typed(tab, es, units) && Typed(tab, more, others)
    ensures !Parted(units, others) <==>
      Pressed(Run(tab, INITIAL, es + [Reset] + more).out)
        == Pressed(Run(tab, INITIAL, es).out) + Pressed(Run(tab, INITIAL, more).out)
  {
    hide Pressed, Run, Typed, WellFormed;
    AcrossReset(tab, es, units, more, others);
    TypedIsDecoded(tab, es, units);
    TypedIsDecoded(tab, more, others);
    DecodeInTwo(units, others);
    AllDeliveredConcat(tab, Decode(units), Decode(others));
  }

  // It does split one: the unit before it and the one after make U+1F600.
  lemma SurrogateSurvivesReset(tab: Tables)
    requires WellFormed(tab)
    ensures Pressed(Run(tab, INITIAL, [PacketOf(tab, 0xd83d), Reset, PacketOf(tab, 0xde00)]).out) == [0x0101_f600]
  {
    hide Step, Ucs2Keysym, Pressed, Packet, WellFormed;
    var a, b := PacketOf(tab, 0xd83d), PacketOf(tab, 0xde00);
    var s := State(Core(0xd83d, false, false), false, 0, 0);
    HighUnitWaits(tab);
    HighUnitStays(tab, s);
    assert [a, Reset, b][1..] == [Reset, b] && [Reset, b][1..] == [b];
    assert Run(tab, INITIAL, [a, Reset, b]).out == Run(tab, s, [b]).out;
    LowUnitTyped(tab);
    PressedIsDecoded(tab, s, [b], [0xde00]);
    assert Decode([0xd83d, 0xde00]) == [0x1f600] by { assert [0xd83d, 0xde00][2..] == []; }
    AboveTables(tab, 0x1f600);
  }

  lemma LowUnitTyped(tab: Tables)
    ensures Typed(tab, [PacketOf(tab, 0xde00)], [0xde00])
  {
    hide Ucs2Keysym;
    assert [PacketOf(tab, 0xde00)][1..] == [] && [0xde00][1..] == [];
  }

  // Text whose characters have symbols arrives: split into units, typed, pressed, and read
  // back at the other end.
  lemma TextArrives(tab: Tables, text: seq<nat>, es: seq<Input>)
    requires WellFormed(tab)
    requires forall i :: 0 <= i < |text| ==> Scalar(text[i]) && Ucs2Keysym(tab, text[i]) != NO_SYMBOL
    requires Typed(tab, es, EncodeAll(text))
    ensures var pressed := Pressed(Run(tab, INITIAL, es).out);
      |pressed| == |text| && forall i :: 0 <= i < |text| ==> Keysym2Ucs(tab, pressed[i]) == text[i]
  {
    DecodeEncoded(text);
    TypedIsDecoded(tab, es, EncodeAll(text));
    forall i | 0 <= i < |text| ensures Keysym2Ucs(tab, Delivered(tab, text[i])) == text[i] {
      if Unsymbolised(text[i]) {
        AboveTables(tab, text[i]);
        assert false;
      }
      RoundTrip(tab, text[i]);
    }
  }
}
