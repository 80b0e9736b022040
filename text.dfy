/**
 * The string primitives the scripts rely on: `String.prototype.trim`,
 * `toLowerCase` (ASCII letters only), `startsWith` (Dafny's prefix
 * relation `<=` on sequences), `includes`, `split(sep)` with `pop()`, and
 * the first field of `split(/\s+/)`.
 */
module Text {

  /** The ECMAScript WhiteSpace and LineTerminator code points: what `trim` strips and `\s` matches. */
  const SpaceChars: set<char> := {
    '\t', '\n', '\U{000B}', '\U{000C}', '\r', ' ', '\U{00A0}', '\U{1680}',
    '\U{2028}', '\U{2029}', '\U{202F}', '\U{205F}', '\U{3000}', '\U{FEFF}'
  }

  /** The ECMAScript WhiteSpace and LineTerminator code points: what `trim` strips and `\s` matches. */
  predicate IsSpace(ch: char) {
    ch in SpaceChars || '\U{2000}' <= ch <= '\U{200A}'
  }

  /** Neither end of `s` is whitespace. */
  predicate IsTrimmed(s: string) {
    s == [] || (!IsSpace(s[0]) && !IsSpace(s[|s| - 1]))
  }

  predicate AllSpace(s: string) {
    forall k :: 0 <= k < |s| ==> IsSpace(s[k])
  }

  /** `s` with its leading whitespace removed. */
  function TrimStart(s: string): (r: string)
    ensures |r| <= |s| && r == s[|s| - |r|..]
    ensures AllSpace(s[..|s| - |r|])
    ensures r == [] || !IsSpace(r[0])
  {
    if s != [] && IsSpace(s[0]) then
      var r := TrimStart(s[1..]);
      var n := |s| - |r|;
      assert s[1..][n - 1..] == s[n..];
      assert s[..n] == [s[0]] + s[1..][..n - 1];
      r
    else
      s
  }

  /** `s` with its trailing whitespace removed. */
  function TrimEnd(s: string): (r: string)
    ensures r <= s
    ensures AllSpace(s[|r|..])
    ensures r == [] || !IsSpace(r[|r| - 1])
  {
    if s != [] && IsSpace(s[|s| - 1]) then
      var r := TrimEnd(s[..|s| - 1]);
      assert s[|r|..] == s[..|s| - 1][|r|..] + [s[|s| - 1]];
      r
    else
      s
  }

  /** `s.trim()`: the slice of `s` left once its leading and trailing whitespace is removed. */
  function Trim(s: string): (r: string)
    ensures IsTrimmed(r)
    ensures |r| <= |s|
    ensures r == [] <==> AllSpace(s)
    ensures exists a, b :: 0 <= a <= b <= |s| && r == s[a..b] && AllSpace(s[..a]) && AllSpace(s[b..])
  {
    var t := TrimStart(s);
    var r := TrimEnd(t);
    assert r != [] ==> r[0] == t[0];
    TrimEmpty(s, t, r);
    TrimSlice(s, t, r);
    r
  }

  /** What `TrimStart` removed is whitespace. */
  lemma {:induction false} TrimStartSpace(s: string, t: string)
    requires t == TrimStart(s)
    ensures AllSpace(s[..|s| - |t|])
  {
  }

  /** What `TrimEnd` then removed is the whitespace at the end of `s`. */
  lemma {:induction false} TrimEndSpace(s: string, t: string, r: string)
    requires t == TrimStart(s)
    requires r == TrimEnd(t)
    ensures |s| - |t| + |r| <= |s| && AllSpace(s[|s| - |t| + |r|..])
  {
    assert t[|r|..] == s[|s| - |t| + |r|..];
  }

  /** A prefix of a suffix of `s` is a slice of `s`. */
  lemma {:induction false} PrefixOfSuffix(s: string, t: string, r: string)
    requires |t| <= |s| && t == s[|s| - |t|..] && r <= t
    ensures var a := |s| - |t|; a + |r| <= |s| && r == s[a..a + |r|]
  {
  }

  /** The trimmed string is a slice of the input with only whitespace around it. */
  lemma {:induction false} TrimSlice(s: string, t: string, r: string)
    requires t == TrimStart(s) && r == TrimEnd(t)
    ensures exists a, b :: 0 <= a <= b <= |s| && r == s[a..b] && AllSpace(s[..a]) && AllSpace(s[b..])
  {
    TrimStartSpace(s, t);
    TrimEndSpace(s, t, r);
    PrefixOfSuffix(s, t, r);
  }

  lemma TrimEmpty(s: string, t: string, r: string)
    requires t == TrimStart(s) && r == TrimEnd(t)
    ensures r == [] <==> AllSpace(s)
  {
    if r == [] {
      assert AllSpace(t[0..]);
      assert t == [];
      assert s[..|s|] == s;
    }
  }

  /** Trimming what is already trimmed changes nothing. */
  lemma TrimTrimmed(s: string)
    requires IsTrimmed(s)
    ensures Trim(s) == s
  {
  }

  predicate IsUpper(ch: char) {
    'A' <= ch <= 'Z'
  }

  /** `toLowerCase` on one character, restricted to ASCII letters. */
  function LowerChar(ch: char): (r: char)
    ensures !IsUpper(r)
    ensures !IsUpper(ch) ==> r == ch
    ensures IsSpace(r) == IsSpace(ch)
  {
    if IsUpper(ch) then (ch as int + 32) as char else ch
  }

  /** `s.toLowerCase()`, restricted to ASCII letters. */
  function Lower(s: string): (r: string)
    ensures |r| == |s|
    ensures forall k :: 0 <= k < |s| ==> r[k] == LowerChar(s[k])
  {
    seq(|s|, k requires 0 <= k < |s| => LowerChar(s[k]))
  }

  /** Lowercasing changes nothing in a string without capitals. */
  lemma LowerFixed(s: string)
    requires forall k :: 0 <= k < |s| ==> !IsUpper(s[k])
    ensures Lower(s) == s
  {
  }

  /** Lowercasing keeps a string trimmed, since it maps white space to white space. */
  lemma {:induction false} LowerTrimmed(s: string)
    ensures IsTrimmed(Lower(s)) == IsTrimmed(s)
  {
    var r := Lower(s);
    if s != [] {
      assert r[0] == LowerChar(s[0]);
      assert r[|r| - 1] == LowerChar(s[|s| - 1]);
    }
  }

  /** Lowercasing twice is lowercasing once. */
  lemma LowerIdempotent(s: string)
    ensures Lower(Lower(s)) == Lower(s)
  {
  }

  /** Lowercasing neither adds nor removes whitespace, so it commutes with trimming. */
  lemma {:induction false} TrimLower(s: string)
    ensures Trim(Lower(s)) == Lower(Trim(s))
  {
    TrimStartLower(s);
    var t := TrimStart(s);
    TrimEndLower(t);
  }

  lemma {:induction false} TrimStartLower(s: string)
    ensures TrimStart(Lower(s)) == Lower(TrimStart(s))
    decreases |s|
  {
    if s != [] && IsSpace(s[0]) {
      assert Lower(s)[1..] == Lower(s[1..]);
      TrimStartLower(s[1..]);
    }
  }

  lemma {:induction false} TrimEndLower(s: string)
    ensures TrimEnd(Lower(s)) == Lower(TrimEnd(s))
    decreases |s|
  {
    if s != [] && IsSpace(s[|s| - 1]) {
      assert Lower(s)[..|s| - 1] == Lower(s[..|s| - 1]);
      TrimEndLower(s[..|s| - 1]);
    }
  }

  /** A prefix agrees with the string it starts, character by character. */
  lemma PrefixChars(p: string, s: string)
    requires p <= s
    ensures |p| <= |s| && forall i :: 0 <= i < |p| ==> s[i] == p[i]
  {
  }

  /** `s.includes(k)`: `k` occurs in `s` at some position. */
  function Contains(s: string, k: string): (b: bool)
    ensures b <==> exists i :: 0 <= i <= |s| && k <= s[i..]
  {
    if k <= s then
      assert k <= s[0..];
      true
    else if s == [] then
      false
    else
      OccursInTail(s, k);
      Contains(s[1..], k)
  }

  lemma OccursInTail(s: string, k: string)
    requires s != []
    ensures (exists i :: 0 <= i <= |s| - 1 && k <= s[1..][i..]) <==> (exists i :: 1 <= i <= |s| && k <= s[i..])
  {
    if i :| 0 <= i <= |s| - 1 && k <= s[1..][i..] {
      assert s[1..][i..] == s[i + 1..];
    }
    if i :| 1 <= i <= |s| && k <= s[i..] {
      assert s[1..][i - 1..] == s[i..];
    }
  }

  /** An occurrence at a known position is an occurrence. */
  lemma ContainsAt(s: string, k: string, i: int)
    requires 0 <= i <= |s| && k <= s[i..]
    ensures Contains(s, k)
  {
  }

  /** `s.split(sep)`: the pieces of `s` between the separators, never an empty list. */
  function Split(s: string, sep: char): (parts: seq<string>)
    ensures |parts| >= 1
  {
    if s == [] then
      [[]]
    else
      var rest := Split(s[1..], sep);
      if s[0] == sep then
        [[]] + rest
      else
        [[s[0]] + rest[0]] + rest[1..]
  }

  /** No piece holds a separator. */
  lemma {:induction false} SplitPieces(s: string, sep: char)
    ensures forall p :: p in Split(s, sep) ==> sep !in p
    decreases |s|
  {
    if s != [] {
      SplitPieces(s[1..], sep);
      var rest := Split(s[1..], sep);
      assert rest[0] in rest;
      forall p | p in rest[1..] ensures p in rest { }
    }
  }

  /** The last piece is the suffix of `s` after its last separator. */
  lemma {:induction false} SplitLast(s: string, sep: char)
    ensures var parts := Split(s, sep); var last := parts[|parts| - 1];
      && |last| <= |s| && last == s[|s| - |last|..]
      && (|last| == |s| || s[|s| - |last| - 1] == sep)
      && (|parts| == 1 <==> last == s)
    decreases |s|
  {
    if s != [] {
      SplitLast(s[1..], sep);
      var rest := Split(s[1..], sep);
      var parts := Split(s, sep);
      var last := rest[|rest| - 1];
      if s[0] == sep || |rest| > 1 {
        assert parts[|parts| - 1] == last;
        assert s[1..][|s| - 1 - |last|..] == s[|s| - |last|..];
        if |last| < |s| - 1 {
          assert s[1..][|s| - 1 - |last| - 1] == s[|s| - |last| - 1];
        }
      } else {
        assert parts == [[s[0]] + s[1..]];
        assert s == [s[0]] + s[1..];
      }
    }
  }

  /** Puts the separator back between the pieces. */
  function Join(parts: seq<string>, sep: char): string
    requires |parts| >= 1
  {
    if |parts| == 1 then parts[0] else parts[0] + [sep] + Join(parts[1..], sep)
  }

  /** Splitting loses nothing: joining the pieces gives the string back. */
  lemma {:induction false} JoinSplit(s: string, sep: char)
    ensures Join(Split(s, sep), sep) == s
    decreases |s|
  {
    if s != [] {
      var rest := Split(s[1..], sep);
      var parts := Split(s, sep);
      JoinSplit(s[1..], sep);
      if s[0] == sep {
        assert parts[1..] == rest;
        assert s == [sep] + s[1..];
      } else if |rest| == 1 {
        assert s == [s[0]] + s[1..];
      } else {
        assert parts[1..] == rest[1..];
        assert Join(rest, sep) == rest[0] + [sep] + Join(rest[1..], sep);
        assert s == [s[0]] + s[1..];
      }
    }
  }

  /** `s.split(sep).pop()`: the text after the last separator. */
  function LastSegment(s: string, sep: char): (r: string)
    ensures sep !in r
    ensures |r| <= |s| && r == s[|s| - |r|..]
    ensures |r| == |s| || s[|s| - |r| - 1] == sep
  {
    var parts := Split(s, sep);
    SplitPieces(s, sep);
    SplitLast(s, sep);
    assert parts[|parts| - 1] in parts;
    parts[|parts| - 1]
  }

  /** `s.split(/\s+/)[0]`: the text before the first whitespace character. */
  function FirstToken(s: string): (r: string)
    ensures r <= s
    ensures forall k :: 0 <= k < |r| ==> !IsSpace(r[k])
    ensures |r| == |s| || IsSpace(s[|r|])
  {
    if s == [] || IsSpace(s[0]) then [] else [s[0]] + FirstToken(s[1..])
  }
}
