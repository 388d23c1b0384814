// The Windows keyboard: which presses and releases a run of messages delivers. A left Ctrl
// press may be the first half of AltGr, so it is withheld until that is known.
module KeyboardWin32 {
  import opened Optional
  import opened Keysyms

  const VK_MENU: nat := 0x12
  const VK_PACKET: nat := 0xe7
  const SCAN_FAKE: nat := 0xaa
  const SCAN_VK_PACKET: nat := 0x1ff

  const XK_CONTROL_L: nat := 0xffe3
  const XK_SHIFT_L: nat := 0xffe1
  const XK_SHIFT_R: nat := 0xffe2
  const XK_ALT_R: nat := 0xffea
  const XK_ISO_LEVEL3_SHIFT: nat := 0xfe03

  // Zenkaku_Hankaku, Eisu_toggle, Katakana, Hiragana and Romaji: their releases are unreliable.
  predicate ReleasedAtOnce(symbol: nat) {
    symbol in {0xff2a, 0xff30, 0xff26, 0xff25, 0xff24}
  }

  // A key message, with what the system says of it: the symbol of the key and the one tried
  // without Ctrl, the scan code of the virtual key, and whether the layout has AltGr.
  datatype Key = Key(vKey: nat, scan: nat, extended: bool, time: nat,
    symbol: nat, retried: nat, mapped: nat, altGr: bool)

  datatype Input = Mouse | KeyDown(key: Key) | KeyUp(key: Key) | Timeout | Reset | Other

  datatype Output = Press(system: nat, code: nat, symbol: nat) | Release(system: nat)

  const CTRL_PRESS := Press(0x1d, 0x1d, XK_CONTROL_L)

  // What is remembered besides the withheld Ctrl.
  datatype Core = Core(high: nat, leftShift: bool, rightShift: bool)

  datatype State = State(core: Core, armed: bool, since: nat, timeouts: nat)

  const INITIAL := State(Core(0, false, false), false, 0, 0)

  datatype Reply = Reply(state: State, out: seq<Output>)

  // ---- Scan codes ----

  // The touch keyboard's Alt has no scan code.
  function Patched(k: Key): Key {
    if !k.extended && k.scan == 0 && k.vKey == VK_MENU then k.(extended := true, scan := 0x38) else k
  }

  // code | 0x80
  function WithHighBit(code: nat): nat {
    if code / 0x80 % 2 == 1 then code else code + 0x80
  }

  // Break is Pause, SysRq is PrintScreen.
  function Fixed(code: nat): nat {
    if code == 0xc6 then 0x45 else if code == 0xb7 then 0x54 else code
  }

  function Translated(system: nat): nat {
    if system == 0x45 then 0xc6
    else if system == 0xc5 then 0x45
    else if system == SCAN_VK_PACKET then 0
    else system
  }

  function Located(k: Key): nat {
    if k.vKey == VK_PACKET then SCAN_VK_PACKET else if k.scan == 0 then k.mapped else k.scan
  }

  predicate Ignored(k: Key) {
    || k.scan == SCAN_FAKE
    || Located(k) == 0
    || (Located(k) != SCAN_VK_PACKET && Located(k) >= 0x80)
  }

  function SystemCode(k: Key): nat {
    Fixed(if k.extended then WithHighBit(Located(k)) else Located(k))
  }

  // ---- Symbols ----

  // Marks a surrogate code unit on its way to being assembled.
  predicate SurrogateSymbol(symbol: nat) { 0x0100_d800 <= symbol <= 0x0100_dfff }

  predicate High(unit: nat) { 0xd800 <= unit <= 0xdbff }

  predicate Low(unit: nat) { 0xdc00 <= unit <= 0xdfff }

  // (((high & 0x3ff) << 10) | (low & 0x3ff)) + 0x10000
  function Combine(high: nat, low: nat): nat {
    high % 0x400 * 0x400 + low % 0x400 + 0x1_0000
  }

  datatype Assembled = Assembled(high: nat, symbol: Option<nat>)

  function Assemble(tab: Tables, high: nat, k: Key): Assembled {
    if k.vKey == VK_PACKET && SurrogateSymbol(k.symbol) then
      var unit := k.symbol - 0x0100_0000;
      if High(unit) then Assembled(unit, None)
      else if high == 0 then Assembled(0, None)
      else Assembled(0, Some(Ucs2Keysym(tab, Combine(high, unit))))
    else
      Assembled(0, Some(k.symbol))
  }

  function FinalSymbol(k: Key, symbol: nat): nat {
    var tried := if symbol == NO_SYMBOL then k.retried else symbol;
    var sided := if tried == XK_SHIFT_L && SystemCode(k) == 0x36 then XK_SHIFT_R else tried;
    if k.altGr && SystemCode(k) == 0xb8 && sided == XK_ALT_R then XK_ISO_LEVEL3_SHIFT else sided
  }

  // ---- The keyboard without AltGr detection ----

  // A press, with the releases that are not waited for.
  function KeyOut(system: nat, symbol: nat): seq<Output> {
    [Press(system, Translated(system), symbol)]
      + (if system == SCAN_VK_PACKET then [Release(system)] else [])
      + (if ReleasedAtOnce(symbol) then [Release(system)] else [])
  }

  datatype Effect = Effect(core: Core, out: seq<Output>, arms: bool)

  function PlainDown(tab: Tables, c: Core, k: Key): Effect {
    if Ignored(k) then Effect(c, [], false)
    else
      var a := Assemble(tab, c.high, k);
      match a.symbol
      case None => Effect(c.(high := a.high), [], false)
      case Some(found) =>
        var system := SystemCode(k);
        var symbol := FinalSymbol(k, found);
        Effect(
          Core(a.high, c.leftShift || system == 0x2a, c.rightShift || system == 0x36),
          KeyOut(system, symbol),
          k.altGr && system == 0x1d && symbol == XK_CONTROL_L)
  }

  function UpCode(k: Key): nat {
    var code := if k.scan == 0 then k.mapped else k.scan;
    Fixed(if k.extended then WithHighBit(code) else code)
  }

  function ShiftOut(code: nat, c: Core): seq<Output> {
    [Release(code)]
      + (if c.leftShift then [Release(0x2a)] else [])
      + (if c.rightShift then [Release(0x36)] else [])
  }

  // Windows forgets to release a Shift while the other one is down.
  function PlainUp(c: Core, k: Key): Effect {
    if k.scan == SCAN_FAKE || k.vKey == VK_PACKET then Effect(c, [], false)
    else if UpCode(k) == 0x2a || UpCode(k) == 0x36 then
      Effect(c.(leftShift := false, rightShift := false),
        ShiftOut(UpCode(k), c), false)
    else Effect(c, [Release(UpCode(k))], false)
  }

  function Plain(tab: Tables, c: Core, e: Input): Effect {
    match e
    case KeyDown(k) => PlainDown(tab, c, Patched(k))
    case KeyUp(k) => PlainUp(c, Patched(k))
    case Reset => Effect(c.(leftShift := false, rightShift := false), [], false)
    case _ => Effect(c, [], false)
  }

  // ---- The keyboard ----

  // Does this key press make the Ctrl of that time an AltGr?
  predicate CompletesAltGr(since: nat, k: Key) {
    && k.extended && k.scan == 0x38 && k.vKey == VK_MENU
    && (k.time - since) % 0x1_0000_0000 < 50
  }

  function Resolve(s: State, isAltGrSequence: bool): Reply {
    Reply(s.(armed := false, timeouts := 0), if isAltGrSequence then [] else [CTRL_PRESS])
  }

  function Resolved(s: State, isAltGrSequence: bool): Reply {
    if s.armed then Resolve(s, isAltGrSequence) else Reply(s, [])
  }

  function Down(tab: Tables, s: State, k: Key): Reply {
    var p := PlainDown(tab, s.core, k);
    if p.arms then Reply(State(p.core, true, k.time, s.timeouts + 1), [])
    else Reply(s.(core := p.core), p.out)
  }

  function Step(tab: Tables, s: State, e: Input): Reply {
    match e
    case Other => Reply(s, [])
    case Mouse => Resolved(s, false)
    case KeyDown(key) =>
      var k := Patched(key);
      var r := Resolved(s, CompletesAltGr(s.since, k));
      var d := Down(tab, r.state, k);
      Reply(d.state, r.out + d.out)
    case KeyUp(key) =>
      var r := Resolved(s, false);
      var p := PlainUp(r.state.core, Patched(key));
      Reply(r.state.(core := p.core), r.out + p.out)
    case Timeout =>
      if s.timeouts == 0 then Reply(s, []) else Reply(s.(armed := false, timeouts := s.timeouts - 1), [CTRL_PRESS])
    case Reset =>
      Reply(s.(core := Plain(tab, s.core, Reset).core, armed := false, timeouts := 0), [])
  }

  function Run(tab: Tables, s: State, es: seq<Input>): Reply
    decreases |es|
  {
    if es == [] then Reply(s, [])
    else
      var first := Step(tab, s, es[0]);
      var rest := Run(tab, first.state, es[1..]);
      Reply(rest.state, first.out + rest.out)
  }

  // Armed exactly when one timeout is pending.
  ghost predicate Inv(s: State) {
    s.timeouts == if s.armed then 1 else 0
  }

  lemma {:induction false} ArmedIffTimeout(tab: Tables, s: State, es: seq<Input>)
    requires Inv(s)
    ensures Inv(Run(tab, s, es).state)
    decreases |es|
  {
    if es != [] {
      ArmedIffTimeout(tab, Step(tab, s, es[0]).state, es[1..]);
    }
  }

  // ---- AltGr as a function of the messages alone ----

  // The Ctrl press of that time is not delivered: what comes next makes it an AltGr, is a
  // reset, or has not come yet.
  predicate Dropped(since: nat, rest: seq<Input>) {
    rest == [] ||
    match rest[0]
    case Other => Dropped(since, rest[1..])
    case Reset => true
    case KeyDown(k) => CompletesAltGr(since, Patched(k))
    case _ => false
  }

  // Everything the plain keyboard says, in its order, without the dropped Ctrl presses.
  function Merged(tab: Tables, c: Core, es: seq<Input>): seq<Output>
    decreases |es|
  {
    if es == [] then []
    else
      var p := Plain(tab, c, es[0]);
      (if p.arms && Dropped(es[0].key.time, es[1..]) then [] else p.out) + Merged(tab, p.core, es[1..])
  }

  lemma ArmingIsCtrl(tab: Tables, c: Core, e: Input)
    requires Plain(tab, c, e).arms
    ensures e.KeyDown? && Plain(tab, c, e).out == [CTRL_PRESS]
  {
  }

  lemma StepKeepsInv(tab: Tables, s: State, e: Input)
    requires Inv(s)
    ensures Inv(Step(tab, s, e).state)
  {
  }

  // One step: what was withheld comes first or not at all, then the plain output.
  lemma StepIsPlain(tab: Tables, s: State, e: Input)
    requires Inv(s)
    ensures Step(tab, s, e).state.core == Plain(tab, s.core, e).core
    ensures Step(tab, s, e).state.armed <==> Plain(tab, s.core, e).arms || (s.armed && e.Other?)
    ensures Plain(tab, s.core, e).arms ==> e.KeyDown? && Step(tab, s, e).state.since == e.key.time
    ensures !Plain(tab, s.core, e).arms ==> Step(tab, s, e).state.since == s.since
    ensures Step(tab, s, e).out ==
      (if s.armed && !e.Other? && !Dropped(s.since, [e]) then [CTRL_PRESS] else [])
      + (if Plain(tab, s.core, e).arms then [] else Plain(tab, s.core, e).out)
  {
  }

  lemma DroppedByFirst(since: nat, e: Input, rest: seq<Input>)
    ensures Dropped(since, [e] + rest) == if e.Other? then Dropped(since, rest) else Dropped(since, [e])
  {
    assert ([e] + rest)[1..] == rest;
  }

  lemma {:induction false} RunIsMerged(tab: Tables, s: State, es: seq<Input>)
    requires Inv(s)
    ensures Run(tab, s, es).out ==
      (if s.armed && !Dropped(s.since, es) then [CTRL_PRESS] else []) + Merged(tab, s.core, es)
    decreases |es|
  {
    hide Plain, Step, CompletesAltGr;
    if es != [] {
      var e, rest := es[0], es[1..];
      var p := Plain(tab, s.core, e);
      var r := Step(tab, s, e);
      assert es == [e] + rest;
      StepIsPlain(tab, s, e);
      StepKeepsInv(tab, s, e);
      RunIsMerged(tab, r.state, rest);
      DroppedByFirst(s.since, e, rest);
      if p.arms {
        ArmingIsCtrl(tab, s.core, e);
      } else if e.Other? {
        assert p.out == [] by { PlainOther(tab, s.core); }
      }
    }
  }

  lemma PlainOther(tab: Tables, c: Core)
    ensures Plain(tab, c, Other) == Effect(c, [], false)
  {
  }

  // The whole run from the start.
  lemma AltGrIsMerged(tab: Tables, es: seq<Input>)
    ensures Run(tab, INITIAL, es).out == Merged(tab, INITIAL.core, es)
  {
    RunIsMerged(tab, INITIAL, es);
  }

  function CoreAfter(tab: Tables, c: Core, es: seq<Input>): Core
    decreases |es|
  {
    if es == [] then c else CoreAfter(tab, Plain(tab, c, es[0]).core, es[1..])
  }

  // Something is withheld exactly while nothing has followed an arming Ctrl press.
  ghost predicate Withheld(tab: Tables, c: Core, es: seq<Input>) {
    exists j: nat :: WithheldAt(tab, c, es, j)
  }

  predicate AllOther(es: seq<Input>) {
    forall i :: 0 <= i < |es| ==> es[i].Other?
  }

  lemma {:induction false} ArmedIffWithheld(tab: Tables, s: State, es: seq<Input>)
    requires Inv(s)
    ensures Run(tab, s, es).state.armed <==> Withheld(tab, s.core, es) || (s.armed && AllOther(es))
    decreases |es|
  {
    hide Plain, Step;
    if es != [] {
      var e, rest := es[0], es[1..];
      var r := Step(tab, s, e);
      StepIsPlain(tab, s, e);
      StepKeepsInv(tab, s, e);
      ArmedIffWithheld(tab, r.state, rest);
      WithheldShift(tab, s.core, es);
      assert AllOther(es) <==> e.Other? && AllOther(rest) by {
        assert es == [e] + rest;
      }
    }
  }

  lemma CoreAfterNext(tab: Tables, c: Core, es: seq<Input>, j: nat)
    requires j < |es|
    ensures CoreAfter(tab, c, es[..j + 1]) == CoreAfter(tab, Plain(tab, c, es[0]).core, es[1..][..j])
  {
    assert es[..j + 1][1..] == es[1..][..j];
  }

  ghost predicate WithheldAt(tab: Tables, c: Core, es: seq<Input>, j: nat) {
    j < |es| && Plain(tab, CoreAfter(tab, c, es[..j]), es[j]).arms && AllOther(es[j + 1..])
  }

  lemma WithheldAtNext(tab: Tables, c: Core, es: seq<Input>, j: nat)
    requires es != []
    ensures WithheldAt(tab, c, es, j + 1) <==> WithheldAt(tab, Plain(tab, c, es[0]).core, es[1..], j)
  {
    hide Plain, AllOther, CoreAfter;
    if j + 1 < |es| {
      CoreAfterNext(tab, c, es, j);
      assert es[1..][j + 1..] == es[j + 2..];
    }
  }

  lemma WithheldShift(tab: Tables, c: Core, es: seq<Input>)
    requires es != []
    ensures var p := Plain(tab, c, es[0]);
      Withheld(tab, c, es) <==> (p.arms && AllOther(es[1..])) || Withheld(tab, p.core, es[1..])
  {
    var core := Plain(tab, c, es[0]).core;
    assert WithheldAt(tab, c, es, 0) <==> Plain(tab, c, es[0]).arms && AllOther(es[1..]) by {
      hide Plain, AllOther;
      assert es[..0] == [];
    }
    hide Plain, WithheldAt;
    if Withheld(tab, core, es[1..]) {
      var j: nat :| WithheldAt(tab, core, es[1..], j);
      WithheldAtNext(tab, c, es, j);
    }
    if Withheld(tab, c, es) {
      var j: nat :| WithheldAt(tab, c, es, j);
      if j == 0 {
        assert Plain(tab, c, es[0]).arms && AllOther(es[1..]);
      } else {
        WithheldAtNext(tab, c, es, j - 1);
      }
    }
  }
}
