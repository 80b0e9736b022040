/**
 * The project filter bar: a key (from the clicked button's `data-filter`)
 * shows the cards whose lowercased `data-tags`, or whose lowercased text
 * when they carry no tags, contain the lowercased key; the key `all`, and a
 * missing or empty key, shows every card.
 */
module Filter {
  import opened Text
  import opened Wrappers

  /** `(key || 'all').toLowerCase()`. */
  function FilterKey(key: Option<string>): (k: string)
    ensures k != []
    ensures key.None? || key.value == [] ==> k == "all"
    ensures key.Some? && key.value != [] ==> k == Lower(key.value)
  {
    Lower(if key.Some? && key.value != [] then key.value else "all")
  }

  /** What a card is searched in: its lowercased tags, or its lowercased text when the tags are absent or empty. */
  function Haystack(tags: Option<string>, text: string): string {
    var t := Lower(tags.GetOr([]));
    if t != [] then t else Lower(text)
  }

  /** Whether a card stays visible under `key`. */
  predicate Shows(key: Option<string>, tags: Option<string>, text: string) {
    var k := FilterKey(key);
    k == "all" || Contains(Haystack(tags, text), k)
  }

  /** `all` in any letter case, a missing key and the empty key show every card. */
  lemma AllShowsEverything(key: Option<string>, tags: Option<string>, text: string)
    requires key.None? || key.value == [] || Lower(key.value) == "all"
    ensures Shows(key, tags, text)
  {
  }

  /** Otherwise a card is shown exactly when its haystack contains the lowercased key. */
  lemma ShowsIff(key: string, tags: Option<string>, text: string)
    requires key != [] && Lower(key) != "all"
    ensures Shows(Some(key), tags, text) <==>
      exists i :: 0 <= i <= |Haystack(tags, text)| && Lower(key) <= Haystack(tags, text)[i..]
  {
  }

  /** Cards with non-empty tags are judged by their tags alone, whatever their text says. */
  lemma TagsTakePrecedence(key: Option<string>, tags: string, text1: string, text2: string)
    requires tags != []
    ensures Shows(key, Some(tags), text1) == Shows(key, Some(tags), text2)
  {
  }

  /** Cards without tags fall back to their text: absent and empty tags are the same. */
  lemma MissingTagsUseText(key: Option<string>, text: string)
    ensures Shows(key, None, text) == Shows(key, Some([]), text)
    ensures Haystack(None, text) == Lower(text)
  {
  }

  /** The filter ignores letter case in the key. */
  lemma {:induction false} KeyCaseInsensitive(key: string, tags: Option<string>, text: string)
    ensures Shows(Some(key), tags, text) == Shows(Some(Lower(key)), tags, text)
  {
    LowerIdempotent(key);
  }

  /** A `.card` or `.hover-card` element of the section. */
  class Card {
    const tags: Option<string>
    const text: string
    /** `style.display` is `''` (shown) rather than `'none'`. */
    var shown: bool

    constructor (tags: Option<string>, text: string)
      ensures this.tags == tags && this.text == text && shown
    {
      this.tags := tags;
      this.text := text;
      shown := true;
    }
  }

  /** `apply(key)`: every card of the section is shown or hidden by `Shows`. */
  method Apply(cards: seq<Card>, key: Option<string>)
    modifies set c | c in cards
    ensures forall c :: c in cards ==> c.shown == Shows(key, c.tags, c.text)
  {
    var k := FilterKey(key);
    var n := 0;
    while n < |cards|
      invariant 0 <= n <= |cards|
      invariant forall m :: 0 <= m < n ==> cards[m].shown == Shows(key, cards[m].tags, cards[m].text)
    {
      var c := cards[n];
      if k == "all" {
        c.shown := true;
      } else {
        var tagsAttr := Lower(c.tags.GetOr([]));
        var hay := if tagsAttr != [] then tagsAttr else Lower(c.text);
        c.shown := Contains(hay, k);
      }
      n := n + 1;
    }
  }
}
