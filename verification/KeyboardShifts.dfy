// Which keys the output holds down: exactly those pressed and not released, and no Shift
// stays down behind a released one.
module KeyboardShifts {
  import opened Optional
  import opened Keysyms
  import opened KeyboardWin32

  const LEFT: nat := 0x2a
  const RIGHT: nat := 0x36

  function HeldAfter(held: set<nat>, out: seq<Output>): set<nat> {
    if out == [] then held
    else
      var before, o := HeldAfter(held, out[..|out| - 1]), out[|out| - 1];
      if o.Press? then before + {o.system} else before - {o.system}
  }

  // The keys down after the messages; whoever resets the keyboard has all keys released.
  function HeldRun(tab: Tables, s: State, held: set<nat>, es: seq<Input>): set<nat>
    decreases |es|
  {
    if es == [] then held
    else
      var r := Step(tab, s, es[0]);
      HeldRun(tab, r.state, if es[0].Reset? then {} else HeldAfter(held, r.out), es[1..])
  }

  // A Shift that is down has been noticed.
  predicate Noticed(c: Core, held: set<nat>) {
    (LEFT in held ==> c.leftShift) && (RIGHT in held ==> c.rightShift)
  }

  predicate ShiftUp(e: Input) {
    && e.KeyUp? && e.key.scan != SCAN_FAKE && e.key.vKey != VK_PACKET
    && (UpCode(Patched(e.key)) == LEFT || UpCode(Patched(e.key)) == RIGHT)
  }

  lemma HeldAppend(held: set<nat>, out: seq<Output>, o: Output)
    ensures HeldAfter(held, out + [o]) ==
      if o.Press? then HeldAfter(held, out) + {o.system} else HeldAfter(held, out) - {o.system}
  {
    assert (out + [o])[..|out|] == out;
  }

  lemma {:induction false} HeldConcat(held: set<nat>, a: seq<Output>, b: seq<Output>)
    ensures HeldAfter(held, a + b) == HeldAfter(HeldAfter(held, a), b)
    decreases |b|
  {
    hide HeldAfter;
    if b == [] {
      assert a + b == a;
      HeldNone(HeldAfter(held, a));
    } else {
      var n := |b| - 1;
      HeldConcat(held, a, b[..n]);
      assert a + b == (a + b[..n]) + [b[n]] && b == b[..n] + [b[n]];
      HeldAppend(held, a + b[..n], b[n]);
      HeldAppend(HeldAfter(held, a), b[..n], b[n]);
    }
  }

  lemma HeldNone(held: set<nat>)
    ensures HeldAfter(held, []) == held
  {
  }

  lemma HeldOne(held: set<nat>, o: Output)
    ensures HeldAfter(held, [o]) == if o.Press? then held + {o.system} else held - {o.system}
  {
    assert [o][..0] == [];
    HeldNone(held);
  }

  // A press can only add its own key.
  lemma KeyOutHolds(held: set<nat>, system: nat, symbol: nat)
    ensures HeldAfter(held, KeyOut(system, symbol)) <= held + {system}
  {
    var p, r := Press(system, Translated(system), symbol), Release(system);
    var packet, once := system == SCAN_VK_PACKET, ReleasedAtOnce(symbol);
    var second := [p] + if packet then [r] else [];
    assert KeyOut(system, symbol) == second + if once then [r] else [];
    hide HeldAfter, Translated, ReleasedAtOnce, KeyOut;
    HeldOne(held, p);
    ReleaseIf(held, [p], r, packet);
    ReleaseIf(held, second, r, once);
  }

  // A release, when there is one, takes its key away.
  lemma ReleaseIf(held: set<nat>, out: seq<Output>, r: Output, really: bool)
    requires r.Release?
    ensures HeldAfter(held, out + if really then [r] else []) ==
      HeldAfter(held, out) - if really then {r.system} else {}
  {
    hide HeldAfter;
    HeldAppend(held, out, r);
    assert out + [] == out;
  }

  lemma ShiftsOut(held: set<nat>, code: nat, c: Core)
    requires Noticed(c, held) && (code == LEFT || code == RIGHT)
    ensures LEFT !in HeldAfter(held, ShiftOut(code, c)) && RIGHT !in HeldAfter(held, ShiftOut(code, c))
  {
    hide HeldAfter;
    var first := [Release(code)];
    var second := first + if c.leftShift then [Release(LEFT)] else [];
    HeldOne(held, Release(code));
    ReleaseIf(held, first, Release(LEFT), c.leftShift);
    ReleaseIf(held, second, Release(RIGHT), c.rightShift);
    assert ShiftOut(code, c) == second + if c.rightShift then [Release(RIGHT)] else [];
  }

  // Plain output keeps every Shift that is down noticed.
  lemma PlainNotices(tab: Tables, c: Core, e: Input, held: set<nat>)
    requires Noticed(c, held) && !e.Reset?
    ensures Noticed(Plain(tab, c, e).core, HeldAfter(held, Plain(tab, c, e).out))
    ensures ShiftUp(e) ==>
      LEFT !in HeldAfter(held, Plain(tab, c, e).out) && RIGHT !in HeldAfter(held, Plain(tab, c, e).out)
  {
    hide HeldAfter, KeyOut, ShiftOut, Assemble, FinalSymbol, Ignored, SystemCode, UpCode;
    HeldNone(held);
    match e
    case KeyDown(key) =>
      var k := Patched(key);
      var a := Assemble(tab, c.high, k);
      if a.symbol.Some? { KeyOutHolds(held, SystemCode(k), FinalSymbol(k, a.symbol.value)); }
    case KeyUp(key) =>
      var code := UpCode(Patched(key));
      if code == LEFT || code == RIGHT { ShiftsOut(held, code, c); }
      HeldOne(held, Release(code));
    case _ =>
  }

  lemma StepNotices(tab: Tables, s: State, e: Input, held: set<nat>)
    requires Inv(s) && Noticed(s.core, held) && !e.Reset?
    ensures Noticed(Step(tab, s, e).state.core, HeldAfter(held, Step(tab, s, e).out))
    ensures ShiftUp(e) ==>
      LEFT !in HeldAfter(held, Step(tab, s, e).out) && RIGHT !in HeldAfter(held, Step(tab, s, e).out)
  {
    StepIsPlain(tab, s, e);
    hide Step, Plain, HeldAfter, ShiftUp, Dropped;
    var p := Plain(tab, s.core, e);
    var first := if s.armed && !e.Other? && !Dropped(s.since, [e]) then [CTRL_PRESS] else [];
    var own := if p.arms then [] else p.out;
    HeldConcat(held, first, own);
    HeldNone(held);
    HeldOne(held, CTRL_PRESS);
    var between := HeldAfter(held, first);
    HeldNone(between);
    PlainNotices(tab, s.core, e, between);
    if p.arms { ArmingNotices(tab, s.core, e); }
  }

  lemma ArmingNotices(tab: Tables, c: Core, e: Input)
    requires Plain(tab, c, e).arms
    ensures Plain(tab, c, e).core.leftShift == c.leftShift && Plain(tab, c, e).core.rightShift == c.rightShift
    ensures !ShiftUp(e)
  {
  }

  lemma {:induction false} RunNotices(tab: Tables, s: State, held: set<nat>, es: seq<Input>)
    requires Inv(s) && Noticed(s.core, held)
    ensures Noticed(Run(tab, s, es).state.core, HeldRun(tab, s, held, es))
    decreases |es|
  {
    if es != [] {
      var e := es[0];
      if !e.Reset? { StepNotices(tab, s, e, held); }
      StepKeepsInv(tab, s, e);
      hide HeldAfter;
      RunNotices(tab, Step(tab, s, e).state, if e.Reset? then {} else HeldAfter(held, Step(tab, s, e).out), es[1..]);
    }
  }

  lemma {:induction false} RunLast(tab: Tables, s: State, held: set<nat>, es: seq<Input>, e: Input)
    ensures Run(tab, s, es + [e]).state == Step(tab, Run(tab, s, es).state, e).state
    ensures HeldRun(tab, s, held, es + [e]) ==
      if e.Reset? then {} else HeldAfter(HeldRun(tab, s, held, es), Step(tab, Run(tab, s, es).state, e).out)
    decreases |es|
  {
    hide Step, HeldAfter;
    if es == [] {
      assert [] + [e] == [e] && [e][1..] == [];
    } else {
      var r := Step(tab, s, es[0]);
      assert (es + [e])[1..] == es[1..] + [e];
      RunLast(tab, r.state, if es[0].Reset? then {} else HeldAfter(held, r.out), es[1..], e);
    }
  }

  // In every run, when a Shift has just been released the output holds neither, although
  // Windows does not report the release of one while the other is down.
  lemma NoShiftStuck(tab: Tables, es: seq<Input>, e: Input)
    requires ShiftUp(e)
    ensures LEFT !in HeldRun(tab, INITIAL, {}, es + [e]) && RIGHT !in HeldRun(tab, INITIAL, {}, es + [e])
  {
    RunNotices(tab, INITIAL, {}, es);
    ArmedIffTimeout(tab, INITIAL, es);
    RunLast(tab, INITIAL, {}, es, e);
    StepNotices(tab, Run(tab, INITIAL, es).state, e, HeldRun(tab, INITIAL, {}, es));
  }

  // ---- What is held ----

  lemma UpIsSystem(k: Key)
    requires k.vKey != VK_PACKET
    ensures UpCode(k) == SystemCode(k)
  {
  }

  lemma ShiftOutFrees(held: set<nat>, code: nat, c: Core)
    ensures HeldAfter(held, ShiftOut(code, c)) ==
      held - {code} - (if c.leftShift then {LEFT} else {}) - (if c.rightShift then {RIGHT} else {})
  {
    hide HeldAfter;
    var first := [Release(code)];
    var second := first + if c.leftShift then [Release(LEFT)] else [];
    HeldOne(held, Release(code));
    ReleaseIf(held, first, Release(LEFT), c.leftShift);
    ReleaseIf(held, second, Release(RIGHT), c.rightShift);
    assert ShiftOut(code, c) == second + if c.rightShift then [Release(RIGHT)] else [];
  }

  lemma KeyOutHeld(held: set<nat>, system: nat, symbol: nat)
    ensures HeldAfter(held, KeyOut(system, symbol)) ==
      if system == SCAN_VK_PACKET || ReleasedAtOnce(symbol) then held - {system} else held + {system}
  {
    var p, r := Press(system, Translated(system), symbol), Release(system);
    var packet, once := system == SCAN_VK_PACKET, ReleasedAtOnce(symbol);
    var second := [p] + if packet then [r] else [];
    assert KeyOut(system, symbol) == second + if once then [r] else [];
    hide HeldAfter, Translated, ReleasedAtOnce, KeyOut;
    HeldOne(held, p);
    ReleaseIf(held, [p], r, packet);
    ReleaseIf(held, second, r, once);
  }

  // The symbol that a key press delivers, if it delivers one.
  function Delivers(tab: Tables, c: Core, k: Key): Option<nat> {
    if Ignored(k) then None
    else
      match Assemble(tab, c.high, k).symbol
      case None => None
      case Some(found) =>
        var symbol := FinalSymbol(k, found);
        if k.altGr && SystemCode(k) == 0x1d && symbol == XK_CONTROL_L then None else Some(symbol)
  }

  // What a message does to the keys held: a delivered press holds its key, unless it is
  // released at once; a release frees the code its press would hold, and a Shift both Shifts.
  function HeldNext(tab: Tables, c: Core, e: Input, held: set<nat>): set<nat> {
    match e
    case KeyDown(key) =>
      var k := Patched(key);
      var symbol := Delivers(tab, c, k);
      if symbol.None? then held
      else if k.vKey == VK_PACKET || ReleasedAtOnce(symbol.value) then held - {SystemCode(k)}
      else held + {SystemCode(k)}
    case KeyUp(key) =>
      var code := SystemCode(Patched(key));
      if key.scan == SCAN_FAKE || key.vKey == VK_PACKET then held
      else if code == LEFT || code == RIGHT then held - {LEFT, RIGHT}
      else held - {code}
    case Reset => {}
    case _ => held
  }

  // A withheld Ctrl that this message delivers.
  predicate DeliversCtrl(s: State, e: Input) {
    s.armed && !e.Other? && !Dropped(s.since, [e])
  }

  lemma PacketCode(k: Key)
    requires k.scan < 0x100 && k.mapped < 0x100
    ensures !Ignored(k) ==> (SystemCode(k) == SCAN_VK_PACKET <==> k.vKey == VK_PACKET)
  {
  }

  lemma PlainHeldDown(tab: Tables, c: Core, key: Key, held: set<nat>)
    requires key.scan < 0x100 && key.mapped < 0x100
    ensures var p := Plain(tab, c, KeyDown(key));
      HeldAfter(held, if p.arms then [] else p.out) == HeldNext(tab, c, KeyDown(key), held)
  {
    hide HeldAfter, KeyOut, Assemble, FinalSymbol, Ignored, SystemCode, ReleasedAtOnce;
    HeldNone(held);
    var k := Patched(key);
    PacketCode(k);
    var a := Assemble(tab, c.high, k);
    if !Ignored(k) && a.symbol.Some? { KeyOutHeld(held, SystemCode(k), FinalSymbol(k, a.symbol.value)); }
  }

  lemma PlainHeldUp(tab: Tables, c: Core, key: Key, held: set<nat>)
    requires Noticed(c, held)
    ensures HeldAfter(held, Plain(tab, c, KeyUp(key)).out) == HeldNext(tab, c, KeyUp(key), held)
  {
    hide HeldAfter, ShiftOut, UpCode, SystemCode;
    var k := Patched(key);
    HeldNone(held);
    HeldOne(held, Release(UpCode(k)));
    ShiftOutFrees(held, UpCode(k), c);
    if k.vKey != VK_PACKET { UpIsSystem(k); }
  }

  // Scan codes are bytes.
  predicate ByteCodes(e: Input) {
    e.KeyDown? ==> e.key.scan < 0x100 && e.key.mapped < 0x100
  }

  lemma StepHeld(tab: Tables, s: State, e: Input, held: set<nat>)
    requires Inv(s) && Noticed(s.core, held) && !e.Reset? && ByteCodes(e)
    ensures HeldAfter(held, Step(tab, s, e).out) ==
      HeldNext(tab, s.core, e, if DeliversCtrl(s, e) then held + {0x1d} else held)
  {
    StepIsPlain(tab, s, e);
    hide Step, HeldAfter, Dropped;
    var first := if DeliversCtrl(s, e) then [CTRL_PRESS] else [];
    var p := Plain(tab, s.core, e);
    var own := if p.arms then [] else p.out;
    HeldConcat(held, first, own);
    HeldNone(held);
    HeldOne(held, CTRL_PRESS);
    var between := HeldAfter(held, first);
    HeldNone(between);
    match e
    case KeyDown(key) => PlainHeldDown(tab, s.core, key, between);
    case KeyUp(key) => PlainHeldUp(tab, s.core, key, between);
    case _ =>
  }

  // In every run: exactly the keys pressed and not since released, less those released at
  // once, with Ctrl from when it is delivered.
  lemma HeldExactly(tab: Tables, es: seq<Input>, e: Input)
    requires ByteCodes(e)
    ensures var s, held := Run(tab, INITIAL, es).state, HeldRun(tab, INITIAL, {}, es);
      HeldRun(tab, INITIAL, {}, es + [e]) ==
        HeldNext(tab, s.core, e, if DeliversCtrl(s, e) then held + {0x1d} else held)
  {
    hide Step, HeldAfter, HeldNext, Dropped, DeliversCtrl, ByteCodes;
    RunNotices(tab, INITIAL, {}, es);
    ArmedIffTimeout(tab, INITIAL, es);
    RunLast(tab, INITIAL, {}, es, e);
    if e.Reset? {
      ResetFrees(tab, Run(tab, INITIAL, es).state.core);
    } else {
      StepHeld(tab, Run(tab, INITIAL, es).state, e, HeldRun(tab, INITIAL, {}, es));
    }
  }

  lemma ResetFrees(tab: Tables, c: Core)
    ensures forall held :: HeldNext(tab, c, Reset, held) == {}
  {
  }

  // In every run, once a key has been released the code its press would send is not held.
  lemma KeyReleased(tab: Tables, es: seq<Input>, key: Key)
    requires key.scan != SCAN_FAKE && key.vKey != VK_PACKET
    ensures SystemCode(Patched(key)) !in HeldRun(tab, INITIAL, {}, es + [KeyUp(key)])
  {
    HeldExactly(tab, es, KeyUp(key));
    hide SystemCode, Run, HeldRun, Dropped;
  }

  // ---- Codes and symbols ----

  // An ordinary key press says its scan code, with the high bit for an extended key, the
  // code of the protocol and its symbol, unchanged.
  lemma OrdinaryPress(tab: Tables, c: Core, k: Key)
    requires 0 < k.scan < 0x80 && k.vKey != VK_PACKET && k.vKey != VK_MENU && k.symbol != NO_SYMBOL
    requires k.symbol != XK_SHIFT_L && k.symbol != XK_ALT_R && k.symbol != XK_CONTROL_L && !ReleasedAtOnce(k.symbol)
    requires k.extended ==> k.scan != 0x46 && k.scan != 0x37 && k.scan != 0x45
    requires !k.extended ==> k.scan != 0x45
    ensures var code := if k.extended then k.scan + 0x80 else k.scan;
      PlainDown(tab, c, k).out == [Press(code, code, k.symbol)]
  {
    hide Ucs2Keysym;
  }

  // Break is Pause and SysRq is PrintScreen, whatever the modifiers; Pause and NumLock are
  // told apart by the codes of the protocol.
  lemma SpecialCodes()
    ensures Fixed(0xc6) == 0x45 && Fixed(0xb7) == 0x54
    ensures Translated(0x45) == 0xc6 && Translated(0xc5) == 0x45
    ensures forall code :: code != 0xc6 && code != 0xb7 ==> Fixed(code) == code
  {
  }

  // Different keys have different codes of the protocol.
  lemma KeyCodesDistinct(a: nat, b: nat)
    requires 0 < a < 0x100 && 0 < b < 0x100 && Translated(Fixed(a)) == Translated(Fixed(b))
    ensures Fixed(a) == Fixed(b)
  {
  }

  // ---- AltGr -------------------------------------------------------------------------------

  predicate LeftCtrl(k: Key, altGr: bool) {
    k.vKey == 0x11 && k.scan == 0x1d && !k.extended && k.symbol == XK_CONTROL_L && k.altGr == altGr
  }

  predicate RightAlt(k: Key) {
    k.vKey == 0x12 && k.scan == 0x38 && k.extended && k.symbol == XK_ALT_R && k.altGr
  }

  lemma TwoMessages(tab: Tables, a: Input, b: Input)
    ensures var r := Step(tab, INITIAL, a);
      Run(tab, INITIAL, [a, b]).out == r.out + Step(tab, r.state, b).out
  {
    hide Step;
    assert [a, b][1..] == [b] && [b][1..] == [];
    var r := Step(tab, INITIAL, a);
    assert Run(tab, Step(tab, r.state, b).state, []).out == [];
    assert Run(tab, r.state, [b]).out == Step(tab, r.state, b).out;
  }

  lemma CtrlWaits(tab: Tables, ctrl: Key)
    requires LeftCtrl(ctrl, true)
    ensures Step(tab, INITIAL, KeyDown(ctrl)) == Reply(State(INITIAL.core, true, ctrl.time, 1), [])
  {
    hide Ucs2Keysym;
  }

  lemma AltAfter(tab: Tables, since: nat, alt: Key)
    requires RightAlt(alt)
    ensures Step(tab, State(INITIAL.core, true, since, 1), KeyDown(alt)).out ==
      if (alt.time - since) % 0x1_0000_0000 < 50 then [Press(0xb8, 0xb8, XK_ISO_LEVEL3_SHIFT)]
      else [Press(0x1d, 0x1d, XK_CONTROL_L), Press(0xb8, 0xb8, XK_ISO_LEVEL3_SHIFT)]
  {
    hide Ucs2Keysym;
  }

  // On a layout with AltGr, left Ctrl and right Alt within 50 ms are AltGr alone; later they
  // are Ctrl and AltGr.
  lemma CtrlThenAlt(tab: Tables, ctrl: Key, alt: Key)
    requires LeftCtrl(ctrl, true) && RightAlt(alt)
    ensures Run(tab, INITIAL, [KeyDown(ctrl), KeyDown(alt)]).out ==
      if (alt.time - ctrl.time) % 0x1_0000_0000 < 50 then [Press(0xb8, 0xb8, XK_ISO_LEVEL3_SHIFT)]
      else [Press(0x1d, 0x1d, XK_CONTROL_L), Press(0xb8, 0xb8, XK_ISO_LEVEL3_SHIFT)]
  {
    TwoMessages(tab, KeyDown(ctrl), KeyDown(alt));
    CtrlWaits(tab, ctrl);
    AltAfter(tab, ctrl.time, alt);
    hide Step, Run;
  }

  // Without AltGr nothing is withheld.
  lemma CtrlAtOnce(tab: Tables, ctrl: Key)
    requires LeftCtrl(ctrl, false)
    ensures Step(tab, INITIAL, KeyDown(ctrl)) == Reply(INITIAL, [Press(0x1d, 0x1d, XK_CONTROL_L)])
  {
    hide Ucs2Keysym;
  }

  // Only the right Alt within 50 ms completes AltGr, or the touch keyboard's, which has no scan
  // code.
  lemma OnlyAltCompletes(k: Key, since: nat)
    ensures CompletesAltGr(since, Patched(k)) <==>
      && k.vKey == 0x12 && (k.time - since) % 0x1_0000_0000 < 50
      && ((k.extended && k.scan == 0x38) || (!k.extended && k.scan == 0))
  {
  }

  // ---- Keys that are not ordinary ---------------------------------------------------------

  // The program's own fake keys are ignored, and so are scan codes past seven bits.
  lemma IgnoredKeys(tab: Tables, c: Core, k: Key)
    requires k.vKey != VK_PACKET && k.scan < 0x100 && k.mapped < 0x100
    ensures k.scan == 0xaa ==> PlainDown(tab, c, k) == Effect(c, [], false) && PlainUp(c, k) == Effect(c, [], false)
    ensures k.scan >= 0x80 || (k.scan == 0 && (k.mapped == 0 || k.mapped >= 0x80)) ==>
      PlainDown(tab, c, k) == Effect(c, [], false)
  {
    hide Ucs2Keysym;
  }

  // A key without a scan code has that of its virtual key.
  lemma MappedPress(tab: Tables, c: Core, k: Key)
    requires k.scan == 0 && 0 < k.mapped < 0x80 && k.vKey != VK_PACKET
    ensures PlainDown(tab, c, k) == PlainDown(tab, c, k.(scan := k.mapped))
  {
    hide Ucs2Keysym, KeyOut, FinalSymbol;
    assert FinalSymbol(k, k.symbol) == FinalSymbol(k.(scan := k.mapped), k.symbol) by { SameFinal(k); }
  }

  lemma SameFinal(k: Key)
    requires k.scan == 0 && k.vKey != VK_PACKET && k.mapped != 0
    ensures FinalSymbol(k, k.symbol) == FinalSymbol(k.(scan := k.mapped), k.symbol)
  {
  }

  // Both Shifts have one virtual key: the scan code tells them apart. A key without a symbol
  // is tried again without Ctrl.
  lemma SpecialSymbols(tab: Tables, c: Core, k: Key)
    requires k.vKey != VK_PACKET && !k.altGr && !k.extended && (k.scan == 0x2a || k.scan == 0x36 || k.scan == 0x1e)
    ensures k.scan == 0x2a && k.symbol == XK_SHIFT_L ==>
      PlainDown(tab, c, k).out == [Press(0x2a, 0x2a, XK_SHIFT_L)]
    ensures k.scan == 0x36 && k.symbol == XK_SHIFT_L ==>
      PlainDown(tab, c, k).out == [Press(0x36, 0x36, XK_SHIFT_R)]
    ensures k.scan == 0x1e && k.symbol == NO_SYMBOL && k.retried == 0x61 ==>
      PlainDown(tab, c, k).out == [Press(0x1e, 0x1e, 0x61)]
  {
    hide Ucs2Keysym;
  }

  // The Japanese mode keys are released as soon as they are pressed.
  lemma ModeKeysReleased(system: nat, symbol: nat)
    requires symbol in {0xff2a, 0xff30, 0xff26, 0xff25, 0xff24} && system != SCAN_VK_PACKET
    ensures KeyOut(system, symbol) == [Press(system, Translated(system), symbol), Release(system)]
  {
  }
}
