/**
 * The pop-up terminal: pressing Enter trims the input, echoes it after the
 * prompt, looks its first whitespace-separated word up in a fixed table of
 * commands and appends the command's answer; unknown words are reported.
 * Navigation commands also name the page to open; `clear` empties the
 * output.
 */
module Terminal {
  import opened Text
  import opened Wrappers

  const Prompt: string := "guest@netanix:~$ "
  const Welcome: string := "Welcome to NETANIX interactive terminal. Type 'help' to begin.\n"

  datatype Command = Help | Whoami | ModeCmd | Projects | Writeups | Skills | Experience | Clear

  /** The table key of each command. */
  function Name(c: Command): string {
    match c
    case Help => "help"
    case Whoami => "whoami"
    case ModeCmd => "mode"
    case Projects => "projects"
    case Writeups => "writeups"
    case Skills => "skills"
    case Experience => "experience"
    case Clear => "clear"
  }

  const CommandNames: set<string> :=
    {"help", "whoami", "mode", "projects", "writeups", "skills", "experience", "clear"}

  /** The table's own entries: the command whose key is `cmd`, if any. Letter case matters. */
  function Lookup(cmd: string): (r: Option<Command>)
    ensures r.Some? <==> cmd in CommandNames
    ensures r.Some? ==> Name(r.value) == cmd
  {
    if cmd == "help" then Some(Help)
    else if cmd == "whoami" then Some(Whoami)
    else if cmd == "mode" then Some(ModeCmd)
    else if cmd == "projects" then Some(Projects)
    else if cmd == "writeups" then Some(Writeups)
    else if cmd == "skills" then Some(Skills)
    else if cmd == "experience" then Some(Experience)
    else if cmd == "clear" then Some(Clear)
    else None
  }

  /** Every command is found under its own key. */
  lemma LookupName(c: Command)
    ensures Lookup(Name(c)) == Some(c)
  {
  }

  /** The answer of `mode`, reporting the theme the page is in. */
  function ModeLine(pro: bool): string {
    "Current mode: " + (if pro then "pro" else "hacker") + "\nToggle with 'm' key."
  }

  /**
   * The answer of `mode` as written: it asks for a `normal` class on the
   * body and reports `pro` only when that class is there.
   */
  function ModeLineAsWritten(normalClass: bool): string {
    ModeLine(normalClass)
  }

  /**
   * The theme code only ever sets the `pro` and `hacker` classes, so as
   * written the `mode` command reports `hacker` even in pro mode.
   */
  lemma ModeLineReportsHackerInPro()
    ensures ModeLineAsWritten(false) != ModeLine(true)
    ensures ModeLineAsWritten(false) == ModeLine(false)
  {
    assert ModeLine(true)[14] == 'p';
    assert ModeLine(false)[14] == 'h';
  }

  /** The corrected answer names the theme the page is in. */
  lemma ModeLineNamesTheme(pro: bool)
    ensures pro ==> "pro" <= ModeLine(pro)[14..]
    ensures !pro ==> "hacker" <= ModeLine(pro)[14..]
  {
  }

  /** What a command returns. Only `clear` returns the empty string. */
  function Output(c: Command, pro: bool): (res: string)
    ensures res == [] <==> c == Clear
  {
    match c
    case Help => "Commands: help, whoami, mode, projects, writeups, skills, experience, clear"
    case Whoami => "User: guest\nRole: curious\nSystem: NETANIX"
    case ModeCmd => ModeLine(pro)
    case Projects => "Opening projects..."
    case Writeups => "Opening writeups..."
    case Skills => "Opening skills..."
    case Experience => "Opening experience..."
    case Clear => ""
  }

  /** The page a command navigates to. */
  function Page(c: Command): (page: Option<string>)
    ensures page.Some? <==> c in {Projects, Writeups, Skills, Experience}
  {
    match c
    case Projects => Some("projects.html")
    case Writeups => Some("writeups.html")
    case Skills => Some("skills.html")
    case Experience => Some("experiences.html")
    case _ => None
  }

  /** The answer for the first word `cmd`: the command's own, or the not-found report. */
  function Result(cmd: string, pro: bool): (res: string)
    ensures Lookup(cmd).Some? ==> res == Output(Lookup(cmd).value, pro)
    ensures Lookup(cmd).None? ==> res == "Command not found: " + cmd
    ensures res == [] <==> cmd == "clear"
  {
    match Lookup(cmd)
    case Some(c) => Output(c, pro)
    case None => "Command not found: " + cmd
  }

  /** The first word of a trimmed, non-empty input is itself non-empty. */
  lemma FirstTokenOfTrimmed(v: string)
    requires v != [] && IsTrimmed(v)
    ensures FirstToken(v) != [] && FirstToken(v) <= v
  {
  }

  /** Words after the first one do not change which command runs. */
  lemma {:induction false} ArgumentsIgnored(cmd: string, rest: string)
    requires cmd != [] && rest != [] && IsSpace(rest[0])
    requires forall k :: 0 <= k < |cmd| ==> !IsSpace(cmd[k])
    ensures FirstToken(cmd + rest) == cmd
    decreases |cmd|
  {
    if |cmd| > 1 {
      assert (cmd + rest)[1..] == cmd[1..] + rest;
      ArgumentsIgnored(cmd[1..], rest);
    } else {
      assert (cmd + rest)[1..] == rest;
    }
  }

  /** The outcome of the table lookup as written, which also reaches inherited object members. */
  datatype Outcome = Prints(text: string) | Silent | Throws

  /** Members every plain object inherits whose call returns an object: they print `[object Object]`. */
  const ObjectValuedNames: set<string> := {"constructor", "toString", "toLocaleString", "valueOf"}
  /** Inherited members whose call without arguments returns `false` or `undefined`: nothing is printed. */
  const FalsyNames: set<string> :=
    {"hasOwnProperty", "isPrototypeOf", "propertyIsEnumerable", "__lookupGetter__", "__lookupSetter__"}
  /** Inherited members that throw when called like a command. */
  const ThrowingNames: set<string> := {"__proto__", "__defineGetter__", "__defineSetter__"}

  /**
   * The answer as written, where `cmds[cmd]` also finds the inherited members
   * and `mode` asks for a `normal` body class that the theme code never sets.
   */
  function ResultAsWritten(cmd: string): Outcome {
    match Lookup(cmd)
    case Some(ModeCmd) => Prints(ModeLineAsWritten(false))
    case Some(c) =>
      var res := Output(c, false);
      if res != [] then Prints(res) else Silent
    case None =>
      if cmd in ObjectValuedNames then Prints("[object Object]")
      else if cmd in FalsyNames then Silent
      else if cmd in ThrowingNames then Throws
      else Prints("Command not found: " + cmd)
  }

  /** The inherited names that the lookup as written mistakes for commands. */
  predicate Inherited(cmd: string) {
    cmd in ObjectValuedNames || cmd in FalsyNames || cmd in ThrowingNames
  }

  /**
   * Off the inherited names, the lookup as written and the corrected one
   * agree, except that `mode` as written always gives the hacker answer.
   */
  lemma {:induction false} AsWrittenAgreesOffPrototype(cmd: string, pro: bool)
    requires !Inherited(cmd)
    ensures ResultAsWritten(cmd) ==
      if cmd == "clear" then Silent
      else if cmd == "mode" then Prints(Result(cmd, false))
      else Prints(Result(cmd, pro))
  {
    if Lookup(cmd).None? {
      assert cmd !in CommandNames;
    }
  }

  /**
   * What the inherited names do as written: the object-valued ones print
   * `[object Object]`, the handler throws exactly for the throwing ones, and
   * nothing is printed exactly for `clear` and the falsy ones.
   */
  lemma {:induction false} InheritedOutcomes(cmd: string)
    ensures cmd in ObjectValuedNames ==> ResultAsWritten(cmd) == Prints("[object Object]")
    ensures ResultAsWritten(cmd) == Throws <==> cmd in ThrowingNames
    ensures ResultAsWritten(cmd) == Silent <==> cmd == "clear" || cmd in FalsyNames
  {
    if Inherited(cmd) {
      assert cmd !in CommandNames;
    }
  }

  /** `toString` prints `[object Object]` instead of being reported as not found. */
  lemma ToStringAsWritten(pro: bool)
    ensures ResultAsWritten("toString") == Prints("[object Object]")
    ensures Result("toString", pro) == "Command not found: toString"
  {
    assert Lookup("toString").None?;
  }

  /** None of the inherited names is a command, so the corrected lookup reports each as not found. */
  lemma InheritedNotFound(cmd: string, pro: bool)
    requires Inherited(cmd)
    ensures Lookup(cmd).None?
    ensures Result(cmd, pro) == "Command not found: " + cmd
  {
  }

  /** The `#termOut` element. */
  class Term {
    var out: string

    constructor ()
      ensures out == Welcome
    {
      out := Welcome;
    }

    /**
     * The Enter handler: a blank input does nothing; otherwise the trimmed
     * input is echoed after the prompt and the answer of its first word,
     * which is never empty, is appended on its own line, except that `clear`
     * leaves the output empty.
     * Returns the page to open, if the command navigates.
     */
    method Enter(value: string, pro: bool) returns (nav: Option<string>)
      modifies this
      ensures Trim(value) == [] ==> out == old(out) && nav == None
      ensures Trim(value) != [] ==>
        var v := Trim(value);
        var cmd := FirstToken(v);
        && cmd != [] && cmd <= v
        && (cmd == "clear" ==> out == [])
        && (cmd != "clear" ==> out == old(out) + Prompt + v + "\n" + Result(cmd, pro) + "\n")
        && nav == (if Lookup(cmd).Some? then Page(Lookup(cmd).value) else None)
    {
      var v := Trim(value);
      if v == [] {
        return None;
      }
      out := out + Prompt + v + "\n";
      var cmd := FirstToken(v);
      FirstTokenOfTrimmed(v);
      var found := Lookup(cmd);
      nav := if found.Some? then Page(found.value) else None;
      if found == Some(Clear) {
        out := "";
      }
      var res := Result(cmd, pro);
      if res != [] {
        out := out + res + "\n";
      }
    }

    /**
     * The Enter handler as written: the answer is that of `ResultAsWritten`,
     * and when the call of an inherited member throws, only the echo line
     * is left. Returns the page to open and whether the handler threw.
     */
    method EnterAsWritten(value: string) returns (nav: Option<string>, threw: bool)
      modifies this
      ensures Trim(value) == [] ==> out == old(out) && nav == None && !threw
      ensures Trim(value) != [] ==>
        var v := Trim(value);
        var cmd := FirstToken(v);
        var echoed := old(out) + Prompt + v + "\n";
        && threw == (ResultAsWritten(cmd) == Throws)
        && nav == (if Lookup(cmd).Some? then Page(Lookup(cmd).value) else None)
        && out == match ResultAsWritten(cmd)
             case Prints(text) => echoed + text + "\n"
             case Silent => if Lookup(cmd) == Some(Clear) then [] else echoed
             case Throws => echoed
    {
      var v := Trim(value);
      if v == [] {
        return None, false;
      }
      out := out + Prompt + v + "\n";
      var cmd := FirstToken(v);
      var found := Lookup(cmd);
      nav := if found.Some? then Page(found.value) else None;
      var outcome := ResultAsWritten(cmd);
      threw := outcome == Throws;
      match outcome
      case Prints(text) =>
        out := out + text + "\n";
      case Silent =>
        if found == Some(Clear) {
          out := "";
        }
      case Throws =>
    }
  }
}
