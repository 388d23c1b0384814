// The tables between X keysyms and Unicode.
module Keysyms {
  datatype Pair = Pair(keysym: nat, ucs: nat)

  const NO_SYMBOL: nat := 0
  const NO_UCS: nat := 0xffff_ffff    // (unsigned)-1

  // The generated table and the one of dead keys, both of 16-bit numbers.
  datatype Tables = Tables(normal: seq<Pair>, dead: seq<Pair>)

  predicate Latin1(v: nat) { 0x20 <= v <= 0x7e || 0xa0 <= v <= 0xff }

  // (keysym & 0xff000000) == 0x01000000
  predicate Direct(keysym: nat) { 0x0100_0000 <= keysym <= 0x01ff_ffff }

  predicate Sorted(t: seq<Pair>) {
    forall i, j :: 0 <= i < j < |t| ==> t[i].keysym < t[j].keysym
  }

  // Keysyms of a table are its own: not missing, not Latin-1, 16 bits wide.
  predicate Proper(t: seq<Pair>) {
    && Sorted(t)
    && (forall i :: 0 <= i < |t| ==> 0 < t[i].keysym < 0x1_0000 && !Latin1(t[i].keysym) && t[i].ucs < 0x1_0000)
  }

  ghost predicate WellFormed(tab: Tables) {
    && Proper(tab.normal) && Proper(tab.dead)
    && (forall i, j :: 0 <= i < |tab.normal| && 0 <= j < |tab.dead| ==> tab.normal[i].keysym != tab.dead[j].keysym)
  }

  // The character of a keysym in a table, by definition.
  function Lookup(t: seq<Pair>, keysym: nat): nat {
    if t == [] then NO_UCS else if t[0].keysym == keysym then t[0].ucs else Lookup(t[1..], keysym)
  }

  // The first keysym of a character.
  function FirstSym(t: seq<Pair>, ucs: nat): nat {
    if t == [] then NO_SYMBOL else if t[0].ucs == ucs then t[0].keysym else FirstSym(t[1..], ucs)
  }

  lemma {:induction false} LookupAt(t: seq<Pair>, i: nat)
    requires Sorted(t) && i < |t|
    ensures Lookup(t, t[i].keysym) == t[i].ucs
  {
    if i > 0 {
      assert t[1..][i - 1] == t[i];
      LookupAt(t[1..], i - 1);
    }
  }

  lemma {:induction false} LookupMissing(t: seq<Pair>, keysym: nat)
    requires forall i :: 0 <= i < |t| ==> t[i].keysym != keysym
    ensures Lookup(t, keysym) == NO_UCS
  {
    if t != [] {
      LookupMissing(t[1..], keysym);
    }
  }

  lemma {:induction false} FirstSymIn(t: seq<Pair>, ucs: nat) returns (i: nat)
    requires exists j :: 0 <= j < |t| && t[j].ucs == ucs
    ensures i < |t| && t[i].ucs == ucs && FirstSym(t, ucs) == t[i].keysym
  {
    if t[0].ucs == ucs {
      i := 0;
    } else {
      var j :| 0 <= j < |t| && t[j].ucs == ucs;
      assert t[1..][j - 1].ucs == ucs;
      var k := FirstSymIn(t[1..], ucs);
      i := k + 1;
    }
  }

  lemma {:induction false} FirstSymMissing(t: seq<Pair>, ucs: nat)
    requires forall j :: 0 <= j < |t| ==> t[j].ucs != ucs
    ensures FirstSym(t, ucs) == NO_SYMBOL
  {
    if t != [] {
      FirstSymMissing(t[1..], ucs);
    }
  }

  // Binary search finds what the table says.
  method FindUcs(keysym: nat, table: seq<Pair>) returns (ucs: nat)
    requires Sorted(table)
    ensures ucs == Lookup(table, keysym)
  {
    var min, max := 0, |table| - 1;
    while max >= min
      invariant 0 <= min <= |table| && -1 <= max < |table|
      invariant forall i :: 0 <= i < min ==> table[i].keysym < keysym
      invariant forall i :: max < i < |table| ==> table[i].keysym > keysym
      decreases max - min + 1
    {
      var mid := (min + max) / 2;
      if table[mid].keysym < keysym {
        min := mid + 1;
      } else if table[mid].keysym > keysym {
        max := mid - 1;
      } else {
        LookupAt(table, mid);
        return table[mid].ucs;
      }
    }
    LookupMissing(table, keysym);
    return NO_UCS;
  }

  // Linear search finds the first entry.
  method FindSym(ucs: nat, table: seq<Pair>) returns (keysym: nat)
    ensures keysym == FirstSym(table, ucs)
  {
    var cur, max := 0, |table| - 1;
    while cur <= max
      invariant 0 <= cur <= |table|
      invariant FirstSym(table[cur..], ucs) == FirstSym(table, ucs)
    {
      if table[cur].ucs == ucs {
        return table[cur].keysym;
      }
      assert table[cur..][1..] == table[cur + 1..];
      cur := cur + 1;
    }
    return NO_SYMBOL;
  }

  function Keysym2Ucs(tab: Tables, keysym: nat): nat {
    if Latin1(keysym) then keysym
    else if Direct(keysym) then keysym - 0x0100_0000
    else
      var ucs := Lookup(tab.normal, keysym);
      if ucs != NO_UCS then ucs else Lookup(tab.dead, keysym)
  }

  predicate Surrogate(ucs: nat) { 0xd800 <= ucs <= 0xdfff }

  predicate PrivateUse(ucs: nat) {
    0xe000 <= ucs <= 0xf8ff || 0xf0000 <= ucs <= 0xffffd || 0x100000 <= ucs <= 0x10fffd
  }

  function Ucs2Keysym(tab: Tables, ucs: nat): nat {
    if Latin1(ucs) then ucs
    else
      var normal := FirstSym(tab.normal, ucs);
      if normal != NO_SYMBOL then normal
      else
        var dead := FirstSym(tab.dead, ucs);
        if dead != NO_SYMBOL then dead
        else if Surrogate(ucs) then NO_SYMBOL
        else if PrivateUse(ucs) then NO_SYMBOL
        else if ucs <= 0x10ffff then ucs + 0x0100_0000
        else NO_SYMBOL
  }

  method Keysym2UcsImpl(tab: Tables, keysym: nat) returns (ucs: nat)
    requires WellFormed(tab)
    ensures ucs == Keysym2Ucs(tab, keysym)
  {
    if Latin1(keysym) {
      return keysym;
    }
    if Direct(keysym) {
      return keysym - 0x0100_0000;
    }
    ucs := FindUcs(keysym, tab.normal);
    if ucs != NO_UCS {
      return;
    }
    ucs := FindUcs(keysym, tab.dead);
  }

  method Ucs2KeysymImpl(tab: Tables, ucs: nat) returns (keysym: nat)
    ensures keysym == Ucs2Keysym(tab, ucs)
  {
    if Latin1(ucs) {
      return ucs;
    }
    keysym := FindSym(ucs, tab.normal);
    if keysym != NO_SYMBOL {
      return;
    }
    keysym := FindSym(ucs, tab.dead);
    if keysym != NO_SYMBOL {
      return;
    }
    if Surrogate(ucs) || PrivateUse(ucs) {
      return NO_SYMBOL;
    }
    if ucs <= 0x10ffff {
      return ucs + 0x0100_0000;
    }
    return NO_SYMBOL;
  }

  // Whatever symbol a character gets names that character.
  lemma RoundTrip(tab: Tables, ucs: nat)
    requires WellFormed(tab) && Ucs2Keysym(tab, ucs) != NO_SYMBOL
    ensures Keysym2Ucs(tab, Ucs2Keysym(tab, ucs)) == ucs
  {
    if !Latin1(ucs) {
      if exists j :: 0 <= j < |tab.normal| && tab.normal[j].ucs == ucs {
        var i := FirstSymIn(tab.normal, ucs);
        LookupAt(tab.normal, i);
      } else {
        FirstSymMissing(tab.normal, ucs);
        if exists j :: 0 <= j < |tab.dead| && tab.dead[j].ucs == ucs {
          var i := FirstSymIn(tab.dead, ucs);
          LookupMissing(tab.normal, tab.dead[i].keysym);
          LookupAt(tab.dead, i);
        } else {
          FirstSymMissing(tab.dead, ucs);
        }
      }
    }
  }

  // A keysym's canonical form is the symbol of its character, and is its own.
  lemma CanonicalIdempotent(tab: Tables, keysym: nat)
    requires WellFormed(tab)
    ensures var canonical := Ucs2Keysym(tab, Keysym2Ucs(tab, keysym));
      Ucs2Keysym(tab, Keysym2Ucs(tab, canonical)) == canonical
  {
    var canonical := Ucs2Keysym(tab, Keysym2Ucs(tab, keysym));
    if canonical != NO_SYMBOL {
      RoundTrip(tab, Keysym2Ucs(tab, keysym));
    } else {
      LookupMissing(tab.normal, NO_SYMBOL);
      LookupMissing(tab.dead, NO_SYMBOL);
      FirstSymMissing(tab.normal, NO_UCS);
      FirstSymMissing(tab.dead, NO_UCS);
    }
  }

  // Exactly which characters have no symbol: those past Unicode, surrogates and private
  // use, unless a table names them.
  lemma NoSymbolIff(tab: Tables, ucs: nat)
    requires WellFormed(tab)
    ensures Ucs2Keysym(tab, ucs) == NO_SYMBOL <==>
      && (ucs > 0x10ffff || Surrogate(ucs) || PrivateUse(ucs))
      && (forall i :: 0 <= i < |tab.normal| ==> tab.normal[i].ucs != ucs)
      && (forall i :: 0 <= i < |tab.dead| ==> tab.dead[i].ucs != ucs)
  {
    if exists j :: 0 <= j < |tab.normal| && tab.normal[j].ucs == ucs {
      var i := FirstSymIn(tab.normal, ucs);
    } else {
      FirstSymMissing(tab.normal, ucs);
      if exists j :: 0 <= j < |tab.dead| && tab.dead[j].ucs == ucs {
        var i := FirstSymIn(tab.dead, ucs);
      } else {
        FirstSymMissing(tab.dead, ucs);
      }
    }
  }

  predicate Names(t: seq<Pair>, ucs: nat) {
    exists i :: 0 <= i < |t| && t[i].ucs == ucs
  }

  // The first entry of a table for a character.
  ghost predicate FirstEntry(t: seq<Pair>, ucs: nat, keysym: nat) {
    exists i :: 0 <= i < |t| && t[i] == Pair(keysym, ucs) && forall k :: 0 <= k < i ==> t[k].ucs != ucs
  }

  lemma {:induction false} FirstSymIsFirst(t: seq<Pair>, ucs: nat)
    requires Names(t, ucs)
    ensures FirstEntry(t, ucs, FirstSym(t, ucs))
  {
    if t[0].ucs == ucs {
      assert t[0] == Pair(FirstSym(t, ucs), ucs);
    } else {
      var j :| 0 <= j < |t| && t[j].ucs == ucs;
      assert t[1..][j - 1].ucs == ucs;
      FirstSymIsFirst(t[1..], ucs);
      var i :| 0 <= i < |t[1..]| && t[1..][i] == Pair(FirstSym(t, ucs), ucs)
        && forall k :: 0 <= k < i ==> t[1..][k].ucs != ucs;
      assert t[i + 1] == Pair(FirstSym(t, ucs), ucs);
      forall k | 0 <= k < i + 1 ensures t[k].ucs != ucs {
        if k > 0 { assert t[k] == t[1..][k - 1]; }
      }
    }
  }

  // Latin-1 is itself; then the table, then the dead keys, then the direct range.
  lemma SymbolPrecedence(tab: Tables, ucs: nat)
    requires WellFormed(tab)
    ensures var keysym := Ucs2Keysym(tab, ucs);
      if Latin1(ucs) then keysym == ucs
      else if Names(tab.normal, ucs) then FirstEntry(tab.normal, ucs, keysym)
      else if Names(tab.dead, ucs) then FirstEntry(tab.dead, ucs, keysym)
      else keysym == NO_SYMBOL || keysym == 0x0100_0000 + ucs
  {
    if Names(tab.normal, ucs) { FirstSymIsFirst(tab.normal, ucs); } else { FirstSymMissing(tab.normal, ucs); }
    if Names(tab.dead, ucs) { FirstSymIsFirst(tab.dead, ucs); } else { FirstSymMissing(tab.dead, ucs); }
  }

  // The other way: each keysym of a table names its character, the rest are themselves.
  lemma CharacterPrecedence(tab: Tables, keysym: nat)
    requires WellFormed(tab)
    ensures Latin1(keysym) ==> Keysym2Ucs(tab, keysym) == keysym
    ensures Direct(keysym) ==> Keysym2Ucs(tab, keysym) == keysym - 0x0100_0000
    ensures forall i :: 0 <= i < |tab.normal| && tab.normal[i].keysym == keysym ==>
      Keysym2Ucs(tab, keysym) == tab.normal[i].ucs
    ensures forall i :: 0 <= i < |tab.dead| && tab.dead[i].keysym == keysym ==>
      Keysym2Ucs(tab, keysym) == tab.dead[i].ucs
  {
    forall i | 0 <= i < |tab.normal| && tab.normal[i].keysym == keysym
      ensures Keysym2Ucs(tab, keysym) == tab.normal[i].ucs
    {
      LookupAt(tab.normal, i);
    }
    forall i | 0 <= i < |tab.dead| && tab.dead[i].keysym == keysym
      ensures Keysym2Ucs(tab, keysym) == tab.dead[i].ucs
    {
      LookupMissing(tab.normal, keysym);
      LookupAt(tab.dead, i);
    }
  }
}
