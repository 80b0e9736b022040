/**
 * The typed-text effect of the home page: the words of `data-words` (split
 * on `|`) are typed one character per tick, held, deleted one character per
 * tick, and then the next word starts. The state is the word counter `i`,
 * the cursor `j` and the `deleting` flag; each tick also returns the delay
 * before the next tick in milliseconds.
 */
module Typed {
  import opened Text
  import opened Wrappers

  const DefaultWords: string := "Pentesting|DFIR|Networks|Firewall Systems|Secure Apps"

  /** The words of the attribute, or of the default list when it is absent or empty. */
  function Words(attr: Option<string>): (lines: seq<string>)
    ensures |lines| >= 1
    ensures forall k :: 0 <= k < |lines| ==> '|' !in lines[k]
    ensures Join(lines, '|') == if attr.Some? && attr.value != [] then attr.value else DefaultWords
  {
    var source := if attr.Some? && attr.value != [] then attr.value else DefaultWords;
    SplitPieces(source, '|');
    JoinSplit(source, '|');
    var lines := Split(source, '|');
    assert forall k :: 0 <= k < |lines| ==> lines[k] in lines;
    lines
  }

  /** `w.slice(0, j)`: a negative end counts from the end, a large one is clipped. */
  function SliceTo(w: string, j: int): (r: string)
    ensures r <= w
    ensures 0 <= j <= |w| ==> |r| == j
    ensures j >= |w| ==> r == w
  {
    if j >= 0 then w[..if j <= |w| then j else |w|]
    else w[..if |w| + j >= 0 then |w| + j else 0]
  }

  datatype Cursor = Cursor(i: nat, j: int, deleting: bool)

  /** What one tick leaves behind: the new state, the text shown and the delay before the next tick. */
  datatype Tick = Tick(next: Cursor, text: string, delay: nat)

  /** The word being typed in state `s`. */
  function WordOf(lines: seq<string>, s: Cursor): string
    requires |lines| >= 1
  {
    lines[s.i % |lines|]
  }

  /** One call of `tick`. */
  function Step(lines: seq<string>, s: Cursor): (t: Tick)
    requires |lines| >= 1
    ensures t.delay == 900 <==> !s.deleting && t.next.deleting
    ensures t.delay == 40 <==> s.deleting && t.next.deleting
    ensures t.delay == 90 <==> !t.next.deleting
    ensures t.next.j == if s.deleting then s.j - 1 else s.j + 1
    ensures t.next.deleting != s.deleting <==>
      if s.deleting then t.next.j == 0 else t.next.j == |WordOf(lines, s)|
    ensures t.next.i == if s.deleting && !t.next.deleting then s.i + 1 else s.i
    ensures t.text == SliceTo(WordOf(lines, s), t.next.j)
  {
    var word := WordOf(lines, s);
    var j := if s.deleting then s.j - 1 else s.j + 1;
    var text := SliceTo(word, j);
    if !s.deleting && j == |word| then Tick(Cursor(s.i, j, true), text, 900)
    else if s.deleting && j == 0 then Tick(Cursor(s.i + 1, j, false), text, 90)
    else Tick(Cursor(s.i, j, s.deleting), text, if s.deleting then 40 else 90)
  }

  /** `n` ticks from `s`. */
  function Run(lines: seq<string>, s: Cursor, n: nat): Cursor
    requires |lines| >= 1
    decreases n
  {
    if n == 0 then s else Run(lines, Step(lines, s).next, n - 1)
  }

  /**
   * The states the effect passes through: the cursor stays within the word,
   * it is at least 1 while deleting and short of the word's end while
   * typing; an empty word only constrains the cursor to be non-negative.
   */
  predicate Good(lines: seq<string>, s: Cursor)
    requires |lines| >= 1
  {
    var w := WordOf(lines, s);
    if w == [] then !s.deleting && s.j >= 0
    else 0 <= s.j <= |w| && (s.deleting ==> s.j >= 1) && (!s.deleting ==> s.j < |w|)
  }

  /** The state before the first tick is good, whatever the words. */
  lemma StartGood(lines: seq<string>)
    requires |lines| >= 1
    ensures Good(lines, Cursor(0, 0, false))
  {
  }

  /** Every tick keeps the state good. */
  lemma StepGood(lines: seq<string>, s: Cursor)
    requires |lines| >= 1 && Good(lines, s)
    ensures Good(lines, Step(lines, s).next)
  {
  }

  /** In a good state of a non-empty word, the text shown is exactly the first `j` characters. */
  lemma StepShowsPrefix(lines: seq<string>, s: Cursor)
    requires |lines| >= 1 && Good(lines, s) && WordOf(lines, s) != []
    ensures var t := Step(lines, s);
      0 <= t.next.j <= |WordOf(lines, s)| && t.text == WordOf(lines, s)[..t.next.j]
  {
  }

  /** Running for `a + b` ticks is running `a` ticks and then `b`. */
  lemma {:induction false} RunAdd(lines: seq<string>, s: Cursor, a: nat, b: nat)
    requires |lines| >= 1
    ensures Run(lines, s, a + b) == Run(lines, Run(lines, s, a), b)
    decreases a
  {
    if a > 0 {
      RunAdd(lines, Step(lines, s).next, a - 1, b);
    }
  }

  /** Typing from cursor `j` reaches the end of the word and turns to deleting. */
  lemma {:induction false} TypingPhase(lines: seq<string>, i: nat, j: nat)
    requires |lines| >= 1
    requires j < |lines[i % |lines|]|
    ensures Run(lines, Cursor(i, j, false), |lines[i % |lines|]| - j) == Cursor(i, |lines[i % |lines|]|, true)
    decreases |lines[i % |lines|]| - j
  {
    if j + 1 < |lines[i % |lines|]| {
      TypingPhase(lines, i, j + 1);
    }
  }

  /** Deleting from cursor `j` empties the word and moves on to the next one. */
  lemma {:induction false} DeletingPhase(lines: seq<string>, i: nat, j: nat)
    requires |lines| >= 1 && j >= 1
    ensures Run(lines, Cursor(i, j, true), j) == Cursor(i + 1, 0, false)
    decreases j
  {
    if j > 1 {
      DeletingPhase(lines, i, j - 1);
    }
  }

  /** A word of `n` characters takes `2 * n` ticks: typed in `n`, deleted in `n`, then the next word. */
  lemma {:induction false} WordCycle(lines: seq<string>, i: nat)
    requires |lines| >= 1 && lines[i % |lines|] != []
    ensures Run(lines, Cursor(i, 0, false), 2 * |lines[i % |lines|]|) == Cursor(i + 1, 0, false)
  {
    var n := |lines[i % |lines|]|;
    TypingPhase(lines, i, 0);
    DeletingPhase(lines, i, n);
    RunAdd(lines, Cursor(i, 0, false), n, n);
  }

  /**
   * An empty word (from `||` or a trailing `|` in the attribute) is never
   * finished: the cursor grows past it forever and the effect stays on it.
   */
  lemma {:induction false} EmptyWordStalls(lines: seq<string>, i: nat, j: nat, n: nat)
    requires |lines| >= 1 && lines[i % |lines|] == []
    ensures Run(lines, Cursor(i, j, false), n) == Cursor(i, j + n, false)
    decreases n
  {
    if n > 0 {
      EmptyWordStalls(lines, i, j + 1, n - 1);
    }
  }

  /** The `#typed` element and the closure state of its timer. */
  class TypedEffect {
    const lines: seq<string>
    var i: nat
    var j: int
    var deleting: bool
    /** The element's text. */
    var text: string

    /** The state before the first tick, over the word list `Words` gives for the attribute. */
    constructor (lines: seq<string>)
      requires |lines| >= 1
      ensures this.lines == lines
      ensures i == 0 && j == 0 && !deleting && text == []
      ensures Good(lines, Cursor(i, j, deleting))
    {
      this.lines := lines;
      i, j, deleting, text := 0, 0, false, [];
      new;
      StartGood(lines);
    }

    function State(): Cursor
      reads this
    {
      Cursor(i, j, deleting)
    }

    /** `tick`: moves the cursor, shows the prefix and returns the delay before the next tick. */
    method DoTick() returns (delay: nat)
      modifies this
      requires |lines| >= 1
      ensures State() == Step(lines, old(State())).next
      ensures text == Step(lines, old(State())).text
      ensures delay == Step(lines, old(State())).delay
      ensures old(Good(lines, State())) ==> Good(lines, State())
    {
      if Good(lines, State()) {
        StepGood(lines, State());
      }
      var word := lines[i % |lines|];
      j := j + (if deleting then -1 else 1);
      text := SliceTo(word, j);
      if !deleting && j == |word| {
        deleting := true;
        return 900;
      }
      if deleting && j == 0 {
        deleting := false;
        i := i + 1;
      }
      delay := if deleting then 40 else 90;
    }
  }
}
