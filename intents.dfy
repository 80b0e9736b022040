/**
 * Mini Neta's command normalisation and intent classification: the input is
 * trimmed and lowercased, then compared with closed sets of exact synonyms
 * and finally with a handful of prefixes; the first test that passes decides.
 */
module Intents {
  import opened Text

  datatype Intent =
    | Help | Projects | Writeups | Skills | Experiences | Mode | Prank
    | Goto | Avatar | Github | Linkedin | Resume | Contact | Unknown

  const HelpWords: seq<string> := ["help", "?", "commands"]
  const ProjectWords: seq<string> := ["project", "projects", "work", "portfolio"]
  const WriteupWords: seq<string> := ["writeup", "writeups", "blog", "notes"]
  const SkillWords: seq<string> := ["skill", "skills", "stack"]
  const ExperienceWords: seq<string> := ["experience", "experiences", "xp", "resume"]
  const ModeWords: seq<string> := ["mode", "theme", "toggle mode", "switch mode"]
  const PrankWords: seq<string> := ["prank", "fun", "joke"]

  /** Every word of the exact-match sets, in the order they are tried. */
  const ExactWords: seq<string> :=
    HelpWords + ProjectWords + WriteupWords + SkillWords + ExperienceWords + ModeWords + PrankWords

  /** The prefixes tried after the exact sets, in order. */
  const PrefixWords: seq<string> := ["goto ", "avatar", "github", "linkedin", "resume", "contact"]

  /** `(cmd || '').trim().toLowerCase()`; an absent command is the empty string. */
  function Normalize(cmd: string): (c: string)
    ensures IsTrimmed(c)
    ensures forall k :: 0 <= k < |c| ==> !IsUpper(c[k])
    ensures c == [] <==> AllSpace(cmd)
  {
    var t := Trim(cmd);
    LowerTrimmed(t);
    Lower(t)
  }

  /**
   * The normalised command is the input with its leading and trailing
   * whitespace removed, then lowercased.
   */
  lemma NormalizeSlice(cmd: string)
    ensures exists a, b :: 0 <= a <= b <= |cmd| && Normalize(cmd) == Lower(cmd[a..b]) && AllSpace(cmd[..a]) && AllSpace(cmd[b..])
  {
    var t := Trim(cmd);
    var a, b :| 0 <= a <= b <= |cmd| && t == cmd[a..b] && AllSpace(cmd[..a]) && AllSpace(cmd[b..]);
    assert Normalize(cmd) == Lower(cmd[a..b]);
  }

  /** Normalising a normalised command changes nothing. */
  lemma {:induction false} NormalizeIdempotent(cmd: string)
    ensures Normalize(Normalize(cmd)) == Normalize(cmd)
  {
    var t := Trim(cmd);
    TrimLower(t);
    TrimTrimmed(t);
    LowerIdempotent(t);
  }

  /** The intent of a normalised command: first match wins, `Unknown` when nothing matches. */
  function Classify(c: string): Intent {
    if c in HelpWords then Help
    else if c in ProjectWords then Projects
    else if c in WriteupWords then Writeups
    else if c in SkillWords then Skills
    else if c in ExperienceWords then Experiences
    else if c in ModeWords then Mode
    else if c in PrankWords then Prank
    else if "goto " <= c then Goto
    else if "avatar" <= c then Avatar
    else if "github" <= c then Github
    else if "linkedin" <= c then Linkedin
    else if "resume" <= c then Resume
    else if "contact" <= c then Contact
    else Unknown
  }

  /** The exact sets are pairwise disjoint, so each exact intent holds for exactly its own words. */
  lemma ClassifyExact(c: string)
    ensures Classify(c) == Help <==> c in HelpWords
    ensures Classify(c) == Projects <==> c in ProjectWords
    ensures Classify(c) == Writeups <==> c in WriteupWords
    ensures Classify(c) == Skills <==> c in SkillWords
    ensures Classify(c) == Experiences <==> c in ExperienceWords
    ensures Classify(c) == Mode <==> c in ModeWords
    ensures Classify(c) == Prank <==> c in PrankWords
  {
  }

  /** What starting with each prefix says about the first characters. */
  lemma PrefixFacts(c: string)
    ensures "goto " <= c ==> |c| >= 5 && c[0] == 'g' && c[1] == 'o'
    ensures "avatar" <= c ==> |c| >= 6 && c[0] == 'a'
    ensures "github" <= c ==> |c| >= 6 && c[0] == 'g' && c[1] == 'i'
    ensures "linkedin" <= c ==> |c| >= 8 && c[0] == 'l'
    ensures "resume" <= c ==> |c| >= 6 && c[0] == 'r'
    ensures "contact" <= c ==> |c| >= 7 && c[0] == 'c' && c[2] == 'n'
  {
  }

  /** The first characters of the exact words, which keep them clear of the prefixes. */
  lemma ExactFacts(c: string)
    requires c in ExactWords
    ensures c != [] && c[0] != 'g' && c[0] != 'a' && c[0] != 'l'
    ensures c[0] == 'r' ==> c == "resume"
    ensures c[0] == 'c' ==> |c| > 2 && c[2] == 'm'
  {
    assert c in HelpWords || c in ProjectWords || c in WriteupWords || c in SkillWords
      || c in ExperienceWords || c in ModeWords || c in PrankWords;
  }

  /** No exact word other than `resume` starts with one of the prefixes. */
  lemma ExactWordsAvoidPrefixes(c: string)
    requires c in ExactWords && c != "resume"
    ensures forall p :: p in PrefixWords ==> !(p <= c)
  {
    ExactFacts(c);
    PrefixFacts(c);
  }

  /**
   * The prefix intents hold exactly for the inputs that start with their
   * prefix, except that the exact input `resume` was already taken by the
   * experiences synonyms.
   */
  lemma {:induction false} ClassifyPrefix(c: string)
    ensures Classify(c) == Goto <==> "goto " <= c
    ensures Classify(c) == Avatar <==> "avatar" <= c
    ensures Classify(c) == Github <==> "github" <= c
    ensures Classify(c) == Linkedin <==> "linkedin" <= c
    ensures Classify(c) == Resume <==> "resume" <= c && c != "resume"
    ensures Classify(c) == Contact <==> "contact" <= c
  {
    PrefixFacts(c);
    if c in ExactWords {
      ExactFacts(c);
    } else {
      assert c !in HelpWords && c !in ProjectWords && c !in WriteupWords && c !in SkillWords
        && c !in ExperienceWords && c !in ModeWords && c !in PrankWords;
    }
  }

  /** `unknown` is exactly what neither an exact word nor a prefix matches. */
  lemma {:induction false} ClassifyUnknown(c: string)
    ensures Classify(c) == Unknown <==> c !in ExactWords && forall p :: p in PrefixWords ==> !(p <= c)
  {
    assert c in ExactWords <==>
      c in HelpWords || c in ProjectWords || c in WriteupWords || c in SkillWords
      || c in ExperienceWords || c in ModeWords || c in PrankWords;
    assert "goto " in PrefixWords && "avatar" in PrefixWords && "github" in PrefixWords;
    assert "linkedin" in PrefixWords && "resume" in PrefixWords && "contact" in PrefixWords;
  }

  /** The ordering consequence: `resume` alone is an experiences synonym, never the resume intent. */
  lemma ResumeIsExperience()
    ensures Classify("resume") == Experiences
    ensures Classify("resume please") == Resume
  {
    ClassifyPrefix("resume please");
    assert "resume please"[..6] == "resume";
  }

  /** `c.slice(5).trim()`: the section id after `goto `. */
  function GotoTarget(c: string): string
    requires "goto " <= c
  {
    Trim(c[5..])
  }

  /**
   * After normalisation the id of a `goto` command is never empty: the
   * trailing space of a bare `goto ` has been trimmed away, so the empty-id
   * guard of the handler never fires for typed input.
   */
  lemma {:induction false} GotoTargetNonEmpty(c: string)
    requires IsTrimmed(c) && "goto " <= c
    ensures GotoTarget(c) != []
  {
    assert c[4] == ' ';
    assert |c| > 5;
    var t := c[5..];
    assert t[|t| - 1] == c[|c| - 1];
    assert !IsSpace(t[|t| - 1]);
  }
}
