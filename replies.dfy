/**
 * Mini Neta's fallback replies for commands whose intent is `unknown`: an
 * ordered question-and-answer table, then a small knowledge base, each rule
 * firing when one of its keywords occurs in the normalised command; the
 * first firing rule wins, and when none fires the fixed "Unknown command"
 * reply is given.
 */
module Replies {
  import opened Text
  import opened Wrappers

  /** A reply candidate: fixed text, or the message built from the device's local time. */
  datatype Reply = Says(text: string) | LocalTime

  /** A keyword rule: fires when some keyword is a substring of the command. */
  datatype Rule = Rule(keywords: seq<string>, replies: seq<Reply>)

  /** The question-and-answer table, in the order it is searched; a reply is drawn at random. */
  const Qa: seq<Rule> := [
    Rule(["hi", "hello", "hey"], [
      Says("Hello! How can I help you today?"),
      Says("Hi there! How are you doing?"),
      Says("Hey! What\U{2019}s up?")]),
    Rule(["good morning"], [Says("Good morning! Hope you have a great day.")]),
    Rule(["good night"], [Says("Good night! Sleep well.")]),
    Rule(["how are you"], [
      Says("I\U{2019}m doing great! Thanks for asking. How about you?"),
      Says("All systems nominal. How are you?")]),
    Rule(["what is your name", "your name"], [Says("I\U{2019}m Mini Neta, your friendly on-page assistant.")]),
    Rule(["nice to meet you"], [Says("Nice to meet you too!")]),
    Rule(["what are you doing"], [Says("Just chatting with you!")]),
    Rule(["where are you from"], [Says("I live in the digital world. \U{1F310}")]),
    Rule(["can you help me", "help"], [Says("Of course! Tell me what you need help with.")]),
    Rule(["what can you do"], [Says("I can chat, answer basic questions, and help you navigate this site.")]),
    Rule(["bye", "goodbye", "see you"], [Says("Goodbye! Have a great day!")]),
    Rule(["thank you", "thanks", "ty"], [Says("You\U{2019}re welcome! \U{1F60A}")]),
    Rule(["ok", "okay", "k"], [Says("Got it!")]),
    Rule(["joke", "funny"], [
      Says("Why don\U{2019}t skeletons fight each other? They don\U{2019}t have the guts!"),
      Says("I told a computer a joke, but it didn\U{2019}t get it \U{2014} no sense of humor.exe")]),
    Rule(["time", "what is the time", "current time"], [LocalTime]),
    Rule(["who made you", "who created you"], [Says("I was created by the site owner and improved with code magic.")])
  ]

  /** Positions in `Qa` that the lemmas below talk about. */
  const OkRule: nat := 12
  const JokeRule: nat := 13

  /** The knowledge base, searched only when no `Qa` rule fires; each rule has one fixed reply. */
  const Kb: seq<Rule> := [
    Rule(["neta", "netanix", "who are you"], [Says("I am Mini Neta, your on-page cyber assistant.")]),
    Rule(["portfolio", "about"], [
      Says("This site showcases pentesting, DFIR, network security, CTF, and secure full\U{2011}stack projects.")]),
    Rule(["contact", "email", "reach"], [
      Says("Use the Contact section in the header/footer. I can also guide you: type goto contact.")])
  ]

  const UnknownReply: string := "Unknown command. Type \"help\"."

  /** Every rule of both tables has at least one reply. */
  predicate WellFormed(rules: seq<Rule>) {
    forall i :: 0 <= i < |rules| ==> |rules[i].replies| > 0
  }

  lemma TablesWellFormed()
    ensures WellFormed(Qa) && WellFormed(Kb)
  {
  }

  /** `keywords.some(k => c.includes(k))`. */
  predicate Fires(c: string, keywords: seq<string>) {
    exists k :: k in keywords && Contains(c, k)
  }

  /** `rules.find(...)` as a position: the first rule that fires on `c`, if any. */
  function FirstFiring(c: string, rules: seq<Rule>): (r: Option<nat>)
    ensures r.Some? ==> r.value < |rules| && Fires(c, rules[r.value].keywords)
    ensures r.Some? ==> forall j :: 0 <= j < r.value ==> !Fires(c, rules[j].keywords)
    ensures r.None? ==> forall j :: 0 <= j < |rules| ==> !Fires(c, rules[j].keywords)
  {
    if rules == [] then None
    else if Fires(c, rules[0].keywords) then Some(0)
    else match FirstFiring(c, rules[1..]) {
      case None => None
      case Some(i) => Some(i + 1)
    }
  }

  /** A value of `Math.random()`: the fraction `num / den`, which lies in [0, 1). */
  datatype Fraction = Fraction(num: nat, den: nat)
  type Random = u: Fraction | u.num < u.den witness Fraction(0, 1)

  /** `Math.floor(Math.random() * n)`: a position among `n` candidates. */
  function Pick(n: nat, u: Random): (i: nat)
    requires n > 0
    ensures i < n
  {
    PickBound(n, u);
    u.num * n / u.den
  }

  lemma PickBound(n: nat, u: Random)
    requires n > 0
    ensures u.num * n / u.den < n
  {
    ScaleStrict(u.num, u.den, n);
    DivBelow(u.num * n, u.den, n);
  }

  lemma ScaleStrict(a: nat, b: nat, c: nat)
    ensures a < b && c > 0 ==> a * c < b * c
  {
  }

  lemma DivBelow(x: nat, d: nat, n: nat)
    requires d > 0 && x < d * n
    ensures x / d < n
  {
    var q := x / d;
    assert q * d + x % d == x;
    ScaleUp(n, q, d);
  }

  lemma ScaleUp(a: nat, b: nat, c: nat)
    ensures a <= b ==> a * c <= b * c
  {
  }

  lemma MulAtLeast(a: int, b: int)
    requires a >= 1 && b > 0
    ensures a * b >= b
  {
  }

  /** Every candidate is drawn for some value of the random source. */
  lemma {:induction false} PickCovers(n: nat, k: nat)
    requires k < n
    ensures Pick(n, Fraction(k, n)) == k
  {
    var q := k * n / n;
    var r := k * n % n;
    assert k * n == q * n + r && 0 <= r < n;
    assert (q - k) * n == -r;
    if q > k { MulAtLeast(q - k, n); }
    if q < k { MulAtLeast(k - q, n); }
  }

  /** What a candidate says; the time reply quotes the device's local time, given as `clock`. */
  function Render(rep: Reply, clock: string): string {
    match rep
    case Says(text) => text
    case LocalTime => "It\U{2019}s " + clock + " on your device."
  }

  /** The texts a rule can answer with. */
  function Candidates(rule: Rule, clock: string): (texts: seq<string>)
    ensures |texts| == |rule.replies|
  {
    seq(|rule.replies|, k requires 0 <= k < |rule.replies| => Render(rule.replies[k], clock))
  }

  /**
   * The reply to an `unknown` command: a random candidate of the first firing
   * `Qa` rule, else the answer of the first firing `Kb` rule, else the fixed
   * unknown-command reply.
   */
  function Fallback(c: string, u: Random, clock: string): string {
    TablesWellFormed();
    match FirstFiring(c, Qa)
    case Some(i) => Render(Qa[i].replies[Pick(|Qa[i].replies|, u)], clock)
    case None =>
      match FirstFiring(c, Kb)
      case Some(j) => Render(Kb[j].replies[0], clock)
      case None => UnknownReply
  }

  /** The fallback reply is always one of the candidates of the rule that decided it. */
  lemma {:induction false} FallbackReply(c: string, u: Random, clock: string)
    ensures match FirstFiring(c, Qa)
      case Some(i) => Fallback(c, u, clock) in Candidates(Qa[i], clock)
      case None => match FirstFiring(c, Kb)
        case Some(j) => Fallback(c, u, clock) == Render(Kb[j].replies[0], clock)
        case None => Fallback(c, u, clock) == UnknownReply
  {
    TablesWellFormed();
    match FirstFiring(c, Qa)
    case Some(i) =>
      var k := Pick(|Qa[i].replies|, u);
      assert Candidates(Qa[i], clock)[k] == Render(Qa[i].replies[k], clock);
    case None =>
  }

  /** Conversely, every candidate of the firing `Qa` rule is the reply for some random value. */
  lemma {:induction false} FallbackCovers(c: string, clock: string, k: nat)
    requires FirstFiring(c, Qa).Some?
    requires k < |Qa[FirstFiring(c, Qa).value].replies|
    ensures var rule := Qa[FirstFiring(c, Qa).value];
      Fallback(c, Fraction(k, |rule.replies|), clock) == Candidates(rule, clock)[k]
  {
    PickCovers(|Qa[FirstFiring(c, Qa).value].replies|, k);
  }

  /** Every command containing `joke` contains `ok`, so the `ok` rule fires on it. */
  lemma {:induction false} OkInJoke(c: string)
    requires Contains(c, "joke")
    ensures Contains(c, "ok")
    ensures Fires(c, Qa[OkRule].keywords)
  {
    var i :| 0 <= i <= |c| && "joke" <= c[i..];
    PrefixChars("joke", c[i..]);
    assert "ok" <= c[i + 1..] by {
      assert c[i + 1..][..2] == c[i..][1..3];
    }
    ContainsAt(c, "ok", i + 1);
    assert "ok" in Qa[OkRule].keywords;
  }

  /**
   * The `joke` keyword of the joke rule never decides a reply: every command
   * containing `joke` contains `ok`, and the `ok` rule comes first. The joke
   * rule is reached only through `funny`.
   */
  lemma {:induction false} JokeKeywordShadowed(c: string)
    requires FirstFiring(c, Qa) == Some(JokeRule)
    ensures !Contains(c, "joke") && Contains(c, "funny")
  {
    if Contains(c, "joke") {
      OkInJoke(c);
      assert false;
    }
    assert Fires(c, Qa[JokeRule].keywords);
  }

  /** A greeting draws one of the three greetings. */
  lemma HiGreets(u: Random, clock: string)
    ensures Fallback("hi", u, clock) in Candidates(Qa[0], clock)
  {
    ContainsAt("hi", "hi", 0);
    assert "hi" in Qa[0].keywords;
    FallbackReply("hi", u, clock);
  }
}
