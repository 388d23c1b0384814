// The keyboard object, whose handlers update it in place.
module KeyboardHandlers {
  import opened Optional
  import opened Keysyms
  import opened KeyboardWin32

  class KeyboardHandler {
    const tables: Tables
    var altGrArmed: bool
    var altGrCtrlTime: nat
    var vkPacketHighSurrogate: nat
    var leftShiftDown: bool
    var rightShiftDown: bool
    var timeouts: nat           // pending calls of the AltGr timeout
    var pushed: seq<Output>     // what the handler behind has been told

    function View(): State
      reads this
    {
      State(Core(vkPacketHighSurrogate, leftShiftDown, rightShiftDown), altGrArmed, altGrCtrlTime, timeouts)
    }

    constructor (tables: Tables)
      ensures View() == INITIAL && pushed == [] && this.tables == tables
    {
      this.tables := tables;
      altGrArmed, altGrCtrlTime, timeouts := false, 0, 0;
      vkPacketHighSurrogate, leftShiftDown, rightShiftDown := 0, false, false;
      pushed := [];
    }

    method ResolveAltGrDetection(isAltGrSequence: bool)
      modifies this
      ensures View() == old(View()).(armed := false, timeouts := 0)
      ensures pushed == old(pushed) + if isAltGrSequence then [] else [CTRL_PRESS]
    {
      altGrArmed := false;
      timeouts := 0;
      if !isAltGrSequence {
        pushed := pushed + [Press(0x1d, 0x1d, XK_CONTROL_L)];
      }
    }

    method HandleAltGrTimeout()
      requires timeouts > 0
      modifies this
      ensures View() == Step(tables, old(View()), Timeout).state
      ensures pushed == old(pushed) + Step(tables, old(View()), Timeout).out
    {
      timeouts := timeouts - 1;
      altGrArmed := false;
      pushed := pushed + [Press(0x1d, 0x1d, XK_CONTROL_L)];
    }

    method ResetKeyboard()
      modifies this
      ensures View() == Step(tables, old(View()), Reset).state
      ensures pushed == old(pushed) + Step(tables, old(View()), Reset).out
    {
      altGrArmed := false;
      timeouts := 0;
      leftShiftDown := false;
      rightShiftDown := false;
    }

    // Finds the scan code of a key press, if the key is not to be ignored.
    method FindSystemKeyCode(key: Key) returns (found: Option<nat>)
      ensures found == if Ignored(key) then None else Some(SystemCode(key))
    {
      var systemKeyCode := key.scan;
      if systemKeyCode == SCAN_FAKE {
        return None;
      }
      if key.vKey == VK_PACKET {
        systemKeyCode := SCAN_VK_PACKET;
      }
      if systemKeyCode == 0 {
        systemKeyCode := key.mapped;
        if systemKeyCode == 0 {
          return None;
        }
      }
      if systemKeyCode != SCAN_VK_PACKET && systemKeyCode >= 0x80 {
        return None;
      }
      if key.extended {
        systemKeyCode := WithHighBit(systemKeyCode);
      }
      return Some(Fixed(systemKeyCode));
    }

    // Puts surrogates together; there is no symbol while one is missing.
    method AssembleSymbol(key: Key) returns (found: Option<nat>)
      modifies this`vkPacketHighSurrogate
      ensures Assembled(vkPacketHighSurrogate, found) == Assemble(tables, old(vkPacketHighSurrogate), key)
    {
      hide Ucs2Keysym, Combine;
      if key.vKey == VK_PACKET && SurrogateSymbol(key.symbol) {
        var ucsCode := key.symbol - 0x0100_0000;
        if High(ucsCode) {
          vkPacketHighSurrogate := ucsCode;
          return None;
        }
        assert Low(ucsCode);
        if vkPacketHighSurrogate == 0 {
          return None;
        }
        var codePoint := Combine(vkPacketHighSurrogate, ucsCode);
        vkPacketHighSurrogate := 0;
        var keySym := Ucs2KeysymImpl(tables, codePoint);
        return Some(keySym);
      } else if vkPacketHighSurrogate != 0 {
        vkPacketHighSurrogate := 0;
      }
      return Some(key.symbol);
    }

    method SendKey(systemKeyCode: nat, keySym: nat)
      modifies this`pushed
      ensures pushed == old(pushed) + KeyOut(systemKeyCode, keySym)
    {
      var out := [Press(systemKeyCode, Translated(systemKeyCode), keySym)];
      if systemKeyCode == SCAN_VK_PACKET {
        out := out + [Release(systemKeyCode)];
      }
      if ReleasedAtOnce(keySym) {
        out := out + [Release(systemKeyCode)];
      }
      pushed := pushed + out;
    }

    // A key press once the withheld Ctrl is out of the way.
    method PressKey(key: Key)
      modifies this
      ensures View() == Down(tables, old(View()), key).state
      ensures pushed == old(pushed) + Down(tables, old(View()), key).out
    {
      hide Assemble, SystemCode, Ignored, KeyOut;
      var code := FindSystemKeyCode(key);
      if code.None? {
        return;
      }
      var systemKeyCode := code.value;
      var symbol := AssembleSymbol(key);
      if symbol.None? {
        return;
      }
      var keySym := symbol.value;
      if keySym == NO_SYMBOL {
        keySym := key.retried;
      }
      if keySym == XK_SHIFT_L && systemKeyCode == 0x36 {
        keySym := XK_SHIFT_R;
      }
      if key.altGr {
        if systemKeyCode == 0xb8 && keySym == XK_ALT_R {
          keySym := XK_ISO_LEVEL3_SHIFT;
        }
        if systemKeyCode == 0x1d && keySym == XK_CONTROL_L {
          altGrArmed := true;
          altGrCtrlTime := key.time;
          timeouts := timeouts + 1;
          return;
        }
      }
      SendKey(systemKeyCode, keySym);
      if systemKeyCode == 0x2a {
        leftShiftDown := true;
      }
      if systemKeyCode == 0x36 {
        rightShiftDown := true;
      }
    }

    method ReleaseKey(key: Key)
      modifies this
      ensures View() == old(View()).(core := PlainUp(old(View()).core, key).core)
      ensures pushed == old(pushed) + PlainUp(old(View()).core, key).out
    {
      hide WithHighBit, Fixed;
      if key.scan == SCAN_FAKE || key.vKey == VK_PACKET {
        return;
      }
      var systemKeyCode := key.scan;
      if systemKeyCode == 0 {
        systemKeyCode := key.mapped;
      }
      if key.extended {
        systemKeyCode := WithHighBit(systemKeyCode);
      }
      systemKeyCode := Fixed(systemKeyCode);
      assert systemKeyCode == UpCode(key);
      var out := [Release(systemKeyCode)];
      if systemKeyCode == 0x2a || systemKeyCode == 0x36 {
        if leftShiftDown {
          out := out + [Release(0x2a)];
        }
        if rightShiftDown {
          out := out + [Release(0x36)];
        }
        leftShiftDown := false;
        rightShiftDown := false;
      }
      pushed := pushed + out;
    }

    // Handles a window message; the mouse and others are left for the rest of the program.
    method HandleEvent(msg: Input) returns (consumed: bool)
      requires !msg.Timeout? && !msg.Reset?
      modifies this
      ensures View() == Step(tables, old(View()), msg).state
      ensures pushed == old(pushed) + Step(tables, old(View()), msg).out
      ensures consumed <==> msg.KeyDown? || msg.KeyUp?
    {
      hide PlainUp, Down;
      match msg
      case Mouse =>
        if altGrArmed {
          ResolveAltGrDetection(false);
        }
        return false;
      case KeyDown(key) =>
        var k := Patched(key);
        if altGrArmed {
          var altPressed := k.extended && k.scan == 0x38 && k.vKey == VK_MENU
            && (k.time - altGrCtrlTime) % 0x1_0000_0000 < 50;
          ResolveAltGrDetection(altPressed);
        }
        PressKey(k);
        return true;
      case KeyUp(key) =>
        var k := Patched(key);
        if altGrArmed {
          ResolveAltGrDetection(false);
        }
        ReleaseKey(k);
        return true;
      case _ =>
        return false;
    }
  }
}
