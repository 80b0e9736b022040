/**
 * The page theme: two mutually exclusive classes `pro` and `hacker` on
 * `<body>`, a `data-mode` attribute, the stored choice under `netanix-mode`,
 * and the visual effects that run only in hacker mode. The toggle button
 * and the `m` shortcut flip the theme.
 */
module Theme {
  import opened Wrappers
  import opened Intents

  /**
   * The mode applied at start-up: the stored value, or `pro` when nothing is
   * stored, the stored value is empty, or storage cannot be read (`None`).
   */
  function Saved(stored: Option<string>): (m: string)
    ensures m != []
    ensures stored.None? || stored.value == [] ==> m == "pro"
    ensures stored.Some? && stored.value != [] ==> m == stored.value
  {
    if stored.Some? && stored.value != [] then stored.value else "pro"
  }

  /** The mode the toggle asks for, given whether `hacker` holds now. */
  function NextMode(hacker: bool): (m: string)
    ensures m == "pro" <==> hacker
  {
    if hacker then "pro" else "hacker"
  }

  /** The shortcut keys of the document-level handler. */
  predicate IsModeKey(key: string) {
    key == "m" || key == "M"
  }

  /**
   * Whether `hacker` holds after the document handler as written has seen
   * each character of `typed` as a key.
   */
  function HackerAfterTypingAsWritten(hacker: bool, typed: string): bool {
    if typed == [] then hacker
    else
      var before := HackerAfterTypingAsWritten(hacker, typed[..|typed| - 1]);
      if IsModeKey([typed[|typed| - 1]]) then !before else before
  }

  /**
   * Whether `hacker` holds after the key handler that ignores keys typed into
   * an editable field has seen each character of `typed`, typed in a field
   * when `inField` holds.
   */
  function HackerAfterTyping(hacker: bool, typed: string, inField: bool): bool {
    if typed == [] then hacker
    else
      var before := HackerAfterTyping(hacker, typed[..|typed| - 1], inField);
      if IsModeKey([typed[|typed| - 1]]) && !inField then !before else before
  }

  /** Typing into a field leaves the theme alone, whatever is typed. */
  lemma {:induction false} TypingInFieldKeepsTheme(hacker: bool, typed: string)
    ensures HackerAfterTyping(hacker, typed, true) == hacker
    decreases |typed|
  {
    if typed != [] {
      TypingInFieldKeepsTheme(hacker, typed[..|typed| - 1]);
    }
  }

  /** How many characters of `s` are `m` or `M`. */
  function ModeKeyCount(s: string): (n: nat)
    ensures n <= |s|
  {
    if s == [] then 0
    else ModeKeyCount(s[..|s| - 1]) + (if IsModeKey([s[|s| - 1]]) then 1 else 0)
  }

  /** Typing flips the theme once per `m` or `M`: only the parity of their count matters. */
  lemma {:induction false} TypingFlipsPerModeKey(hacker: bool, typed: string)
    ensures HackerAfterTypingAsWritten(hacker, typed) == (if ModeKeyCount(typed) % 2 == 0 then hacker else !hacker)
    decreases |typed|
  {
    if typed != [] {
      TypingFlipsPerModeKey(hacker, typed[..|typed| - 1]);
    }
  }

  /** Counting splits over concatenation. */
  lemma {:induction false} ModeKeyCountAppend(a: string, b: string)
    ensures ModeKeyCount(a + b) == ModeKeyCount(a) + ModeKeyCount(b)
    decreases |b|
  {
    if b != [] {
      assert (a + b)[..|a + b| - 1] == a + b[..|b| - 1];
      assert (a + b)[|a + b| - 1] == b[|b| - 1];
      ModeKeyCountAppend(a, b[..|b| - 1]);
    } else {
      assert a + b == a;
    }
  }

  /** A string without `m` and `M` counts none. */
  lemma {:induction false} NoModeKey(s: string)
    requires forall k :: 0 <= k < |s| ==> s[k] != 'm' && s[k] != 'M'
    ensures ModeKeyCount(s) == 0
    decreases |s|
  {
    if s != [] {
      NoModeKey(s[..|s| - 1]);
    }
  }

  /** A string with a single `m` between two parts without one counts one. */
  lemma {:induction false} OneModeKey(head: string, tail: string)
    requires forall k :: 0 <= k < |head| ==> head[k] != 'm' && head[k] != 'M'
    requires forall k :: 0 <= k < |tail| ==> tail[k] != 'm' && tail[k] != 'M'
    ensures ModeKeyCount(head + "m" + tail) == 1
  {
    NoModeKey(head);
    NoModeKey(tail);
    assert ModeKeyCount("m") == 1 by { assert "m"[..0] == []; }
    ModeKeyCountAppend(head, "m");
    ModeKeyCountAppend(head + "m", tail);
  }

  /** Each chat synonym of the `mode` intent holds exactly one `m`. */
  lemma ModeWordsHoldOneM(w: string)
    requires w in ModeWords
    ensures ModeKeyCount(w) == 1
  {
    if w == "mode" {
      OneModeKey("", "ode");
      assert "" + "m" + "ode" == w;
    } else if w == "theme" {
      OneModeKey("the", "e");
      assert "the" + "m" + "e" == w;
    } else if w == "toggle mode" {
      OneModeKey("toggle ", "ode");
      assert "toggle " + "m" + "ode" == w;
    } else {
      OneModeKey("switch ", "ode");
      assert "switch " + "m" + "ode" == w;
    }
  }

  /**
   * As written, the document handler also sees the keys typed into the chat
   * box. Typing a `mode` synonym flips the theme once, and sending it flips
   * it again through the synthetic `m` key: the theme ends where it started.
   */
  lemma TypedModeCommandAsWritten(hacker: bool, w: string)
    requires w in ModeWords
    ensures Classify(w) == Mode
    ensures !HackerAfterTypingAsWritten(hacker, w) == hacker
  {
    ModeWordsHoldOneM(w);
    TypingFlipsPerModeKey(hacker, w);
  }

  /**
   * With keys typed into an editable field ignored, typing changes nothing
   * and sending a `mode` synonym flips the theme exactly once.
   */
  lemma TypedModeCommand(hacker: bool, w: string)
    requires w in ModeWords
    ensures Classify(w) == Mode
    ensures !HackerAfterTyping(hacker, w, true) == !hacker
  {
    TypingInFieldKeepsTheme(hacker, w);
  }

  /** The theme state of `<body>`. */
  class Body {
    var pro: bool
    var hacker: bool
    var dataMode: string
    var stored: Option<string>
    /** Whether the matrix rain and the globe are asked for. */
    var effects: bool

    /** Exactly one theme class holds, and the attribute and effects agree with it. */
    predicate Valid()
      reads this
    {
      && pro == !hacker
      && dataMode == (if pro then "pro" else "hacker")
      && effects == hacker
    }

    /** The start-up block: applies the stored mode, `pro` by default. */
    constructor Init(storedMode: Option<string>)
      ensures Valid()
      ensures pro <==> Saved(storedMode) == "pro"
      ensures stored == Some(Saved(storedMode))
    {
      pro, hacker, dataMode, stored, effects := false, false, "", storedMode, false;
      new;
      ApplyMode(Saved(storedMode));
    }

    /** `applyMode(mode)`: `pro` exactly when `mode` is `"pro"`, `hacker` otherwise, and stores `mode`. */
    method ApplyMode(mode: string)
      modifies this
      ensures Valid()
      ensures pro <==> mode == "pro"
      ensures stored == Some(mode)
    {
      var isPro := mode == "pro";
      pro := isPro;
      hacker := !isPro;
      dataMode := if isPro then "pro" else "hacker";
      stored := Some(mode);
      effects := !isPro;
    }

    /** The toggle button and the shortcut: apply the opposite of the current `hacker` class. */
    method Toggle()
      modifies this
      ensures Valid()
      ensures hacker == !old(hacker)
      ensures stored == Some(NextMode(old(hacker)))
    {
      ApplyMode(NextMode(hacker));
    }

    /** The document key handler as written: `m` or `M` toggles, wherever it was typed. */
    method KeyDownAsWritten(key: string)
      modifies this
      requires Valid()
      ensures Valid()
      ensures hacker == (if IsModeKey(key) then !old(hacker) else old(hacker))
      ensures IsModeKey(key) ==> stored == Some(NextMode(old(hacker)))
      ensures !IsModeKey(key) ==> stored == old(stored)
    {
      if IsModeKey(key) {
        Toggle();
      }
    }

    /** The key handler with keys typed into an editable field ignored. */
    method KeyDown(key: string, inField: bool)
      modifies this
      requires Valid()
      ensures Valid()
      ensures hacker == (if IsModeKey(key) && !inField then !old(hacker) else old(hacker))
      ensures IsModeKey(key) && !inField ==> stored == Some(NextMode(old(hacker)))
      ensures !(IsModeKey(key) && !inField) ==> stored == old(stored)
    {
      if IsModeKey(key) && !inField {
        Toggle();
      }
    }

    /** The stored value once the theme is `hacker`, as the last toggle stored it. */
    function ModeName(): string
      reads this
    {
      if hacker then "hacker" else "pro"
    }

    /**
     * Typing `typed` into the chat box, key by key, as the document handler
     * sees it. Without an `m` or `M` nothing is stored; otherwise the last
     * toggle stored the theme the page ends in.
     */
    method TypeAsWritten(typed: string)
      modifies this
      requires Valid()
      ensures Valid()
      ensures hacker == HackerAfterTypingAsWritten(old(hacker), typed)
      ensures ModeKeyCount(typed) == 0 ==> stored == old(stored)
      ensures ModeKeyCount(typed) > 0 ==> stored == Some(ModeName())
    {
      var k := 0;
      while k < |typed|
        invariant 0 <= k <= |typed|
        invariant Valid()
        invariant hacker == HackerAfterTypingAsWritten(old(hacker), typed[..k])
        invariant ModeKeyCount(typed[..k]) == 0 ==> stored == old(stored)
        invariant ModeKeyCount(typed[..k]) > 0 ==> stored == Some(ModeName())
      {
        assert typed[..k + 1][..k] == typed[..k];
        KeyDownAsWritten([typed[k]]);
        k := k + 1;
      }
      assert typed[..|typed|] == typed;
    }

    /**
     * Typing `typed` key by key with the field-aware handler: in a field, or
     * without an `m` or `M`, nothing is stored.
     */
    method Type(typed: string, inField: bool)
      modifies this
      requires Valid()
      ensures Valid()
      ensures hacker == HackerAfterTyping(old(hacker), typed, inField)
      ensures inField || ModeKeyCount(typed) == 0 ==> stored == old(stored)
      ensures !inField && ModeKeyCount(typed) > 0 ==> stored == Some(ModeName())
    {
      var k := 0;
      while k < |typed|
        invariant 0 <= k <= |typed|
        invariant Valid()
        invariant hacker == HackerAfterTyping(old(hacker), typed[..k], inField)
        invariant inField || ModeKeyCount(typed[..k]) == 0 ==> stored == old(stored)
        invariant !inField && ModeKeyCount(typed[..k]) > 0 ==> stored == Some(ModeName())
      {
        assert typed[..k + 1][..k] == typed[..k];
        KeyDown([typed[k]], inField);
        k := k + 1;
      }
      assert typed[..|typed|] == typed;
    }
  }

  /** Two toggles restore the theme and the stored value of the first. */
  method ToggleTwice(b: Body)
    modifies b
    requires b.Valid()
    ensures b.Valid()
    ensures b.hacker == old(b.hacker) && b.dataMode == old(b.dataMode)
    ensures b.stored == Some(if old(b.hacker) then "hacker" else "pro")
  {
    b.Toggle();
    b.Toggle();
  }
}
