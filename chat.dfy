/**
 * The Mini Neta chat widget: a transcript of turns, and the handler that,
 * for every non-empty command, appends the user's turn and then at most one
 * bot turn, and says which page action the command asks for. Navigation,
 * opening tabs and scrolling are returned as action descriptors; the theme
 * toggle is returned as `ToggleTheme` for the shortcut handler in `Theme`.
 */
module Chat {
  import opened Text
  import opened Wrappers
  import opened Intents
  import opened Replies

  datatype Role = User | Bot

  /** One `.neta-msg` element of the transcript. */
  datatype Turn = Turn(role: Role, text: string)

  /** What a command asks the page to do besides printing. */
  datatype Action =
    | Stay
    | Navigate(page: string)
    | ToggleTheme
    | ShowPrank
    | OpenTab(url: string)
    | ScrollTo(id: string)

  /** The bot turn a command produces, if any, and its action. */
  datatype Response = Response(bot: Option<string>, action: Action)

  const Greeting: string := "Hi, I'm Mini Neta. Try: help, projects, writeups, skills, experience, mode, prank"
  const HelpText: string :=
    "Available: help, projects, writeups, skills, experience, mode, prank, goto <section>. Try \"projects\"."
  const GithubUrl: string := "https://github.com/shishirghimir"
  const LinkedinUrl: string := "https://www.linkedin.com/in/shishir-ghimire-2b7934292/"
  const AvatarText: string := "My avatar is a stylized representation of my digital presence."

  /** The four intents that lead to a page of their own. */
  predicate IsNavigation(i: Intent) {
    i == Projects || i == Writeups || i == Skills || i == Experiences
  }

  /** The intent's tag as the script spells it. */
  function NavName(i: Intent): string
    requires IsNavigation(i)
  {
    match i
    case Projects => "projects"
    case Writeups => "writeups"
    case Skills => "skills"
    case Experiences => "experiences"
  }

  /** `intent + '.html'`. */
  function PageOf(i: Intent): string
    requires IsNavigation(i)
  {
    NavName(i) + ".html"
  }

  /**
   * The reply and action for a normalised, non-empty command `c`, given the
   * ids of the elements on the page, the value of `Math.random()` and the
   * local time: the intent's own branch, or the fallback tables for `unknown`.
   */
  function Respond(c: string, ids: set<string>, u: Random, clock: string): Response {
    if Classify(c) == Unknown then Response(Some(Fallback(c, u, clock)), Stay)
    else Direct(c, ids)
  }

  /** The branch for a command whose intent is known. */
  function Direct(c: string, ids: set<string>): Response
    requires Classify(c) != Unknown
  {
    var intent := Classify(c);
    if intent == Help then Response(Some(HelpText), Stay)
    else if IsNavigation(intent) then
      var page := PageOf(intent);
      Response(Some("Opening " + page + " \U{2026}"), Navigate(page))
    else if intent == Mode then Response(Some("Toggled theme."), ToggleTheme)
    else if intent == Prank then Response(None, ShowPrank)
    else if intent == Github then Response(Some("Opening GitHub\U{2026}"), OpenTab(GithubUrl))
    else if intent == Linkedin then Response(Some("Opening LinkedIn\U{2026}"), OpenTab(LinkedinUrl))
    else if intent == Resume then
      if "resume" in ids then Response(Some("Jumping to resume section\U{2026}"), ScrollTo("resume"))
      else Response(Some("You can find my experience on LinkedIn as well. Opening LinkedIn\U{2026}"), OpenTab(LinkedinUrl))
    else if intent == Contact then
      if "contact" in ids then Response(Some("Taking you to contact\U{2026}"), ScrollTo("contact"))
      else Response(Some("Reach me via the footer contact links."), Stay)
    else if intent == Goto then
      var id := GotoTarget(c);
      if id != [] && id in ids then Response(None, ScrollTo(id)) else Response(None, Stay)
    else
      Response(Some(AvatarText), Stay)
  }

  /** The four navigation intents open `<intent>.html` and announce it. */
  lemma NavigationOpensPage(c: string, ids: set<string>, u: Random, clock: string)
    requires IsNavigation(Classify(c))
    ensures var page := NavName(Classify(c)) + ".html";
      Respond(c, ids, u, clock) == Response(Some("Opening " + page + " \U{2026}"), Navigate(page))
  {
  }

  /** An exact navigation synonym leads to its page; `resume` leads to the experiences page. */
  lemma ResumeOpensExperiences(ids: set<string>, u: Random, clock: string)
    ensures Respond("resume", ids, u, clock).action == Navigate("experiences.html")
  {
    ResumeIsExperience();
  }

  /** Exactly `goto` and `prank` commands leave no bot turn. */
  lemma {:induction false} SilentIntents(c: string, ids: set<string>, u: Random, clock: string)
    ensures Respond(c, ids, u, clock).bot.None? <==> Classify(c) == Goto || Classify(c) == Prank
  {
  }

  /**
   * `goto <id>` scrolls to the element when the page has it, and otherwise
   * does nothing at all: no bot turn, no error.
   */
  lemma {:induction false} GotoScrollsOrStays(c: string, ids: set<string>, u: Random, clock: string)
    requires Classify(c) == Goto
    ensures "goto " <= c
    ensures var r := Respond(c, ids, u, clock);
      && r.bot == None
      && (GotoTarget(c) in ids && GotoTarget(c) != [] ==> r.action == ScrollTo(GotoTarget(c)))
      && (GotoTarget(c) !in ids || GotoTarget(c) == [] ==> r.action == Stay)
  {
  }

  /** `help` lists the commands and stays on the page. */
  lemma HelpListsCommands(c: string, ids: set<string>, u: Random, clock: string)
    requires Classify(c) == Help
    ensures Respond(c, ids, u, clock) == Response(Some(HelpText), Stay)
  {
  }

  /** A `mode` synonym asks for the theme toggle and confirms it. */
  lemma ModeTogglesTheme(c: string, ids: set<string>, u: Random, clock: string)
    requires Classify(c) == Mode
    ensures Respond(c, ids, u, clock) == Response(Some("Toggled theme."), ToggleTheme)
  {
  }

  /** `prank` shows the prank overlay and adds no bot turn. */
  lemma PrankShowsOverlay(c: string, ids: set<string>, u: Random, clock: string)
    requires Classify(c) == Prank
    ensures Respond(c, ids, u, clock) == Response(None, ShowPrank)
  {
  }

  /** `github…` and `linkedin…` open the profile in a new tab and announce it. */
  lemma ProfilesOpenTab(c: string, ids: set<string>, u: Random, clock: string)
    ensures Classify(c) == Github ==>
      Respond(c, ids, u, clock) == Response(Some("Opening GitHub\U{2026}"), OpenTab(GithubUrl))
    ensures Classify(c) == Linkedin ==>
      Respond(c, ids, u, clock) == Response(Some("Opening LinkedIn\U{2026}"), OpenTab(LinkedinUrl))
  {
  }

  /**
   * `resume…` scrolls to the `resume` section when the page has one, and
   * otherwise points to LinkedIn and opens it.
   */
  lemma ResumeScrollsOrOpensLinkedin(c: string, ids: set<string>, u: Random, clock: string)
    requires Classify(c) == Resume
    ensures "resume" in ids ==>
      Respond(c, ids, u, clock) == Response(Some("Jumping to resume section\U{2026}"), ScrollTo("resume"))
    ensures "resume" !in ids ==>
      Respond(c, ids, u, clock) ==
        Response(Some("You can find my experience on LinkedIn as well. Opening LinkedIn\U{2026}"), OpenTab(LinkedinUrl))
  {
  }

  /**
   * `contact…` scrolls to the `contact` section when the page has one, and
   * otherwise points to the footer links without leaving the page.
   */
  lemma ContactScrollsOrPointsToFooter(c: string, ids: set<string>, u: Random, clock: string)
    requires Classify(c) == Contact
    ensures "contact" in ids ==>
      Respond(c, ids, u, clock) == Response(Some("Taking you to contact\U{2026}"), ScrollTo("contact"))
    ensures "contact" !in ids ==>
      Respond(c, ids, u, clock) == Response(Some("Reach me via the footer contact links."), Stay)
  {
  }

  /** `avatar…` describes the avatar and stays on the page. */
  lemma AvatarDescribes(c: string, ids: set<string>, u: Random, clock: string)
    requires Classify(c) == Avatar
    ensures Respond(c, ids, u, clock) == Response(Some(AvatarText), Stay)
  {
  }

  /** Exactly the `mode` synonyms toggle the theme. */
  lemma {:induction false} OnlyModeToggles(c: string, ids: set<string>, u: Random, clock: string)
    ensures Respond(c, ids, u, clock).action == ToggleTheme <==> Classify(c) == Mode
  {
  }

  /** Exactly the four navigation intents change the page. */
  lemma {:induction false} OnlyNavigationNavigates(c: string, ids: set<string>, u: Random, clock: string)
    ensures Respond(c, ids, u, clock).action.Navigate? <==> IsNavigation(Classify(c))
  {
  }

  /** A tab opens exactly for `github…`, `linkedin…` and a `resume…` on a page without the section. */
  lemma {:induction false} WhenTabOpens(c: string, ids: set<string>, u: Random, clock: string)
    ensures Respond(c, ids, u, clock).action.OpenTab? <==>
      Classify(c) == Github || Classify(c) == Linkedin || (Classify(c) == Resume && "resume" !in ids)
  {
  }

  /** A one-letter command can contain only itself (and the empty keyword). */
  lemma {:induction false} OneLetterContains(c: string, k: string)
    requires |c| == 1 && k != []
    ensures Contains(c, k) ==> k == c
  {
    if Contains(c, k) {
      var i :| 0 <= i <= |c| && k <= c[i..];
    }
  }

  /** `q` is no exact word and starts with no prefix. */
  lemma {:induction false} LetterQNoIntent()
    ensures Classify("q") == Unknown
  {
    var c := "q";
    ClassifyUnknown(c);
    assert c !in ExactWords;
    forall p | p in PrefixWords ensures !(p <= c) {
    }
  }

  /** No keyword of the quick-answer rules from `lo` up to `hi` occurs in `q`. */
  lemma {:induction false} LetterQMissesQa(lo: nat, hi: nat)
    requires lo <= hi <= |Qa| && hi - lo <= 4
    ensures forall i :: lo <= i < hi ==> !Fires("q", Qa[i].keywords)
  {
    var c := "q";
    forall i | lo <= i < hi ensures !Fires(c, Qa[i].keywords) {
      forall k | k in Qa[i].keywords ensures !Contains(c, k) {
        OneLetterContains(c, k);
      }
    }
  }

  /** No keyword of the quick-answer rules occurs in `q`. */
  lemma {:induction false} LetterQNoQa()
    ensures FirstFiring("q", Qa) == None
  {
    LetterQMissesQa(0, 4);
    LetterQMissesQa(4, 8);
    LetterQMissesQa(8, 12);
    LetterQMissesQa(12, 16);
  }

  /** No keyword of the knowledge-base rule `i` occurs in `q`. */
  lemma {:induction false} LetterQMissesKb(i: nat)
    requires i < |Kb|
    ensures !Fires("q", Kb[i].keywords)
  {
    var c := "q";
    forall k | k in Kb[i].keywords ensures !Contains(c, k) {
      OneLetterContains(c, k);
    }
  }

  /** No keyword of the knowledge-base rules occurs in `q`. */
  lemma {:induction false} LetterQNoKb()
    ensures FirstFiring("q", Kb) == None
  {
    LetterQMissesKb(0);
    LetterQMissesKb(1);
    LetterQMissesKb(2);
  }

  /** `q` matches no intent and no keyword rule, so it gets the unknown-command reply. */
  lemma {:induction false} LetterQIsUnknown(ids: set<string>, u: Random, clock: string)
    ensures Classify("q") == Unknown
    ensures Respond("q", ids, u, clock) == Response(Some(UnknownReply), Stay)
  {
    LetterQNoIntent();
    LetterQNoQa();
    LetterQNoKb();
    FallbackReply("q", u, clock);
  }

  /** The widget's transcript (the children of `#netaBody`). */
  class MiniNeta {
    var transcript: seq<Turn>

    constructor ()
      ensures transcript == []
    {
      transcript := [];
    }

    /** `pushMsg`: appends one turn. */
    method PushMsg(text: string, role: Role)
      modifies this
      ensures transcript == old(transcript) + [Turn(role, text)]
    {
      transcript := transcript + [Turn(role, text)];
    }

    /** `greet`: greets only into an empty transcript. */
    method Greet()
      modifies this
      ensures old(transcript) == [] ==> transcript == [Turn(Bot, Greeting)]
      ensures old(transcript) != [] ==> transcript == old(transcript)
    {
      if |transcript| == 0 {
        PushMsg(Greeting, Bot);
      }
    }

    /**
     * `handle(cmd)`: an all-whitespace command changes nothing; any other
     * appends the user turn `> c` for the normalised command `c`, then the
     * bot turn of `Respond`, if there is one.
     */
    method Handle(cmd: string, ids: set<string>, u: Random, clock: string) returns (action: Action)
      modifies this
      ensures AllSpace(cmd) ==> transcript == old(transcript) && action == Stay
      ensures !AllSpace(cmd) ==>
        var c := Normalize(cmd);
        var r := Respond(c, ids, u, clock);
        && action == r.action
        && transcript == old(transcript) + [Turn(User, "> " + c)]
             + (if r.bot.Some? then [Turn(Bot, r.bot.value)] else [])
    {
      var c := Normalize(cmd);
      if c == [] {
        return Stay;
      }
      PushMsg("> " + c, User);
      var r := Respond(c, ids, u, clock);
      if r.bot.Some? {
        PushMsg(r.bot.value, Bot);
      }
      action := r.action;
    }
  }
}
