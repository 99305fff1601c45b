/**
 * The key-combination matcher of the keyboard-shortcut hook: a combination
 * names a key and, optionally, each of four modifiers; a key press fires the
 * shortcut when the key agrees ignoring case and every modifier is pressed
 * exactly when the combination asks for it.
 */
module KeyboardShortcut {
  import opened Wrappers

  /** A shortcut: the key and the modifiers it asks for; an omitted modifier is `None`. */
  datatype KeyCombination = KeyCombination(
    key: string,
    shift: Option<bool>,
    alt: Option<bool>,
    ctrl: Option<bool>,
    meta: Option<bool>)

  /** What a key-down event reports: the key value and which modifiers are held. */
  datatype KeyEvent = KeyEvent(key: string, shiftKey: bool, altKey: bool, ctrlKey: bool, metaKey: bool)

  // ---------------------------------------------------------------------------
  // ASCII case mapping

  function LowerChar(c: char): char {
    if 'A' <= c <= 'Z' then (c as int + 32) as char else c
  }

  function UpperChar(c: char): char {
    if 'a' <= c <= 'z' then (c as int - 32) as char else c
  }

  /** `toLowerCase` on the ASCII letters; every other character is kept. */
  function Lower(s: string): string {
    if s == [] then [] else [LowerChar(s[0])] + Lower(s[1..])
  }

  /** `toUpperCase` on the ASCII letters; every other character is kept. */
  function Upper(s: string): string {
    if s == [] then [] else [UpperChar(s[0])] + Upper(s[1..])
  }

  /** Two strings are the same up to letter case, character by character. */
  predicate SameIgnoringCase(a: string, b: string) {
    |a| == |b| && forall i :: 0 <= i < |a| ==> LowerChar(a[i]) == LowerChar(b[i])
  }

  lemma {:induction false} LowerAt(s: string)
    ensures |Lower(s)| == |s|
    ensures forall i :: 0 <= i < |s| ==> Lower(s)[i] == LowerChar(s[i])
  {
    if s != [] {
      LowerAt(s[1..]);
      assert forall i :: 1 <= i < |s| ==> Lower(s)[i] == Lower(s[1..])[i - 1];
    }
  }

  /** Comparing the lowered strings is the same as comparing character by character up to case. */
  lemma LowerEqualIff(a: string, b: string)
    ensures Lower(a) == Lower(b) <==> SameIgnoringCase(a, b)
  {
    LowerAt(a);
    LowerAt(b);
    if SameIgnoringCase(a, b) {
      assert Lower(a) == Lower(b);
    }
    if Lower(a) == Lower(b) {
      forall i | 0 <= i < |a| ensures LowerChar(a[i]) == LowerChar(b[i]) {
        assert Lower(a)[i] == Lower(b)[i];
      }
    }
  }

  /** Upper-casing does not change the lowered form. */
  lemma {:induction false} LowerOfUpper(s: string)
    ensures Lower(Upper(s)) == Lower(s)
  {
    if s != [] {
      assert Upper(s)[1..] == Upper(s[1..]);
      LowerOfUpper(s[1..]);
    }
  }

  /** Lowering twice is lowering once. */
  lemma {:induction false} LowerIdempotent(s: string)
    ensures Lower(Lower(s)) == Lower(s)
  {
    if s != [] {
      assert Lower(s)[1..] == Lower(s[1..]);
      LowerIdempotent(s[1..]);
    }
  }

  // ---------------------------------------------------------------------------
  // The matcher

  /** A modifier flag means "required" only when it is present and true. */
  predicate Required(flag: Option<bool>) {
    flag == Some(true)
  }

  /** One modifier check: required means pressed, anything else means not pressed. */
  predicate ModifierMatches(flag: Option<bool>, pressed: bool) {
    if flag.Some? && flag.value then pressed else !pressed
  }

  /** Whether the key-down handler fires for `ev` (and prevents the default action). */
  predicate Fires(combo: KeyCombination, ev: KeyEvent) {
    var matchesKey := Lower(ev.key) == Lower(combo.key);
    var matchesShift := ModifierMatches(combo.shift, ev.shiftKey);
    var matchesAlt := ModifierMatches(combo.alt, ev.altKey);
    var matchesCtrl := ModifierMatches(combo.ctrl, ev.ctrlKey);
    var matchesMeta := ModifierMatches(combo.meta, ev.metaKey);
    matchesKey && matchesShift && matchesAlt && matchesCtrl && matchesMeta
  }

  /**
   * The shortcut fires exactly when the keys agree up to case and each
   * modifier is held if and only if the combination requires it.
   */
  lemma FiresIff(combo: KeyCombination, ev: KeyEvent)
    ensures Fires(combo, ev) <==>
      && SameIgnoringCase(ev.key, combo.key)
      && ev.shiftKey == Required(combo.shift)
      && ev.altKey == Required(combo.alt)
      && ev.ctrlKey == Required(combo.ctrl)
      && ev.metaKey == Required(combo.meta)
  {
    LowerEqualIff(ev.key, combo.key);
  }

  /** Changing the case of either key never changes whether the shortcut fires. */
  lemma FiresIgnoresCase(combo: KeyCombination, ev: KeyEvent)
    ensures Fires(combo, ev.(key := Upper(ev.key))) == Fires(combo, ev)
    ensures Fires(combo, ev.(key := Lower(ev.key))) == Fires(combo, ev)
    ensures Fires(combo.(key := Upper(combo.key)), ev) == Fires(combo, ev)
    ensures Fires(combo.(key := Lower(combo.key)), ev) == Fires(combo, ev)
  {
    LowerOfUpper(ev.key);
    LowerOfUpper(combo.key);
    LowerIdempotent(ev.key);
    LowerIdempotent(combo.key);
  }

  /** Leaving a modifier out of the combination is the same as setting it to false. */
  lemma OmittedIsFalse(combo: KeyCombination, ev: KeyEvent)
    ensures Fires(combo.(shift := None), ev) == Fires(combo.(shift := Some(false)), ev)
    ensures Fires(combo.(alt := None), ev) == Fires(combo.(alt := Some(false)), ev)
    ensures Fires(combo.(ctrl := None), ev) == Fires(combo.(ctrl := Some(false)), ev)
    ensures Fires(combo.(meta := None), ev) == Fires(combo.(meta := Some(false)), ev)
  {
  }

  /** A held modifier the combination does not ask for blocks it, and so does a missing one it asks for. */
  lemma ModifiersExact(combo: KeyCombination, ev: KeyEvent)
    requires Fires(combo, ev)
    ensures ev.shiftKey <==> Required(combo.shift)
    ensures ev.altKey <==> Required(combo.alt)
    ensures ev.ctrlKey <==> Required(combo.ctrl)
    ensures ev.metaKey <==> Required(combo.meta)
  {
  }

  /** A Shift+N shortcut answers to "N" and to "n", but not to Ctrl+Shift+N. */
  lemma ShiftNExample()
    ensures var shiftN := KeyCombination("n", Some(true), None, None, None);
      && Fires(shiftN, KeyEvent("N", true, false, false, false))
      && Fires(shiftN, KeyEvent("n", true, false, false, false))
      && !Fires(shiftN, KeyEvent("N", true, false, true, false))
      && !Fires(shiftN, KeyEvent("N", false, false, false, false))
  {
    assert Lower("N") == "n" by {
      assert "N"[1..] == [];
    }
    assert Lower("n") == "n" by {
      assert "n"[1..] == [];
    }
  }
}
