# Mini Neta and the NETANIX portfolio scripts, in Dafny

This project models the behaviour of the client-side scripts of the
NETANIX portfolio site (`assets/main.js` and `assets/header.js`) and proves
properties of that model. It covers:

- the **Mini Neta** chat widget:
  - command normalisation (trim, then lowercase);
  - the ordered, first-match intent classification;
  - the actions each intent asks of the page;
  - the keyword fallback tables (an ordered question-and-answer table with random replies, then a small knowledge base, then a fixed "Unknown command" reply);
  - the transcript of user and bot turns.
- the **theme**:
  - `applyMode`, which keeps exactly one of the `pro`/`hacker` body classes in place;
  - the stored mode with its `pro` default;
  - the toggle button and the `m` key shortcut.
- the **globe layout** clamp: size range, padding and bottom-right anchoring.
- the **typed-text effect**: the `i`/`j`/`deleting` state machine.
- the **project filter** predicate and its application to the cards.
- the **terminal**: Enter handling and first-word command dispatch.
- the **header's active-link highlight** (`setActive`).

Modules:

| Module | File |
|---|---|
| `Wrappers` | `wrappers.dfy` |
| `Text` | `text.dfy` |
| `Intents` | `intents.dfy` |
| `Replies` | `replies.dfy` |
| `Chat` | `chat.dfy` |
| `Theme` | `mode.dfy` |
| `Globe` | `globe.dfy` |
| `Typed` | `typed.dfy` |
| `Filter` | `filter.dfy` |
| `Terminal` | `terminal.dfy` |
| `Header` | `header.dfy` |

Modelling choices:

- **Whitespace and case.** Whitespace is the ECMAScript WhiteSpace and LineTerminator set, which both `trim` and `\s` use. Lowercasing covers ASCII letters only.
- **Environment.** What the scripts get from the browser is passed in as parameters:
  - `Math.random()` is a fraction `num/den` below 1, and `Math.floor(Math.random() * n)` is `num * n / den` computed in exact arithmetic;
  - the local time is a `clock` string;
  - the ids present on the page are a set of strings;
  - the stored mode is an `Option<string>`;
  - element widths are whole pixels.
- **Browser effects.** Navigation, `window.open`, `scrollIntoView` and the prank modal are returned as `Chat.Action` values.

## Model

| member | source | states |
|---|---|---|
| Text.Trim | assets/main.js:257 | the result is the slice of the input that is left once the leading and trailing whitespace is removed: whitespace only around it, none at its own ends; it is empty exactly when the input is all whitespace |
| Text.TrimLower | assets/main.js:257 | trimming and lowercasing commute, since lowercasing neither adds nor removes whitespace |
| Text.Lower | assets/main.js:257 | `toLowerCase` keeps the length and lowercases each character in place |
| Text.Contains | assets/main.js:349 | `s.includes(k)` holds exactly when `k` is a prefix of some suffix of `s` |
| Text.LastSegment | assets/header.js:21 | `split('/').pop()` contains no `/`, is a suffix of the input, and is preceded by `/` unless it is the whole input |
| Text.JoinSplit | assets/main.js:629 | splitting on a separator loses nothing: joining the pieces with the separator gives the input back |
| Text.Split | assets/main.js:629 | `split` never gives an empty list; `SplitPieces` and `JoinSplit` state its pieces |
| Text.SplitPieces | assets/main.js:629 | no piece of a split contains the separator |
| Text.FirstToken | assets/main.js:528 | the first field of `split(/\s+/)` is a whitespace-free prefix, followed by whitespace or the end of the input |
| Intents.Normalize | assets/main.js:257-258 | the normalised command is trimmed and has no capitals; it is empty exactly when the input is all whitespace |
| Intents.NormalizeSlice | assets/main.js:257 | the normalised command is the lowercased slice of the input left once its leading and trailing whitespace is removed, with only whitespace around that slice |
| Intents.NormalizeIdempotent | assets/main.js:257 | normalising twice is normalising once |
| Intents.Classify | assets/main.js:261-276 | the ordered intent tests, first match wins; what each intent covers is stated by `ClassifyExact`, `ClassifyPrefix` and `ClassifyUnknown` |
| Intents.ClassifyExact | assets/main.js:262-268 | each exact-match intent holds exactly for its own synonym list, the lists being disjoint |
| Intents.ClassifyPrefix | assets/main.js:269-274 | each prefix intent holds exactly for the inputs that start with its prefix; for `resume`, the bare word `resume` is excluded |
| Intents.ClassifyUnknown | assets/main.js:275 | `unknown` holds exactly when the input is in no synonym list and starts with no prefix |
| Intents.ExactWordsAvoidPrefixes | assets/main.js:262-273 | no exact synonym other than `resume` starts with a prefix, so the order of the exact and prefix tests matters only for `resume` |
| Intents.ResumeIsExperience | assets/main.js:266-273 | the bare word `resume` is an experiences synonym; `resume please` reaches the resume intent |
| Intents.GotoTarget | assets/main.js:305 | `c.slice(5).trim()`, the section id after `goto `; `GotoTargetNonEmpty` states that it is never empty for a normalised command |
| Intents.GotoTargetNonEmpty | assets/main.js:305-306 | after normalisation the section id of a `goto ` command is never empty |
| Replies.FirstFiring | assets/main.js:349-362 | `find` gives the first rule with a keyword contained in the command, and none when no rule has one |
| Replies.Pick | assets/main.js:317 | the random position is below the number of candidates |
| Replies.PickCovers | assets/main.js:317 | every candidate position is drawn for some random value |
| Replies.Render | assets/main.js:346-352 | a fixed reply is its own text and the time reply quotes the device clock; `Candidates` keeps one rendered text per reply |
| Replies.Fallback | assets/main.js:349-364 | the question-and-answer table, then the knowledge base, then the fixed reply; stated by `FallbackReply`, `FallbackCovers` and `LetterQIsUnknown` |
| Replies.FallbackReply | assets/main.js:349-364 | the fallback reply is a candidate of the first firing question-and-answer rule; failing that, the reply of the first firing knowledge-base rule; failing both, the fixed unknown-command reply |
| Replies.FallbackCovers | assets/main.js:349-352 | each candidate of the firing question-and-answer rule is the reply for some random value |
| Replies.OkInJoke | assets/main.js:340-342 | every command containing `joke` contains `ok`, so the `ok` rule fires on it |
| Replies.JokeKeywordShadowed | assets/main.js:343-344 | when the joke rule decides, the command contains `funny` and not `joke`, because every command containing `joke` contains `ok` and the `ok` rule comes first |
| Replies.HiGreets | assets/main.js:319-323 | `hi` draws one of the three greetings |
| Chat.NavigationOpensPage | assets/main.js:279-280 | the four navigation intents open `<intent>.html` and announce `Opening <page> …` |
| Chat.Respond | assets/main.js:277-364 | known intents answer through `Direct`, unknown ones through `Fallback`; each known intent's reply and action are stated by the lemmas named in the `Direct` row and by `OnlyModeToggles`, `OnlyNavigationNavigates` and `WhenTabOpens`, and the fallback by `FallbackReply` and `LetterQIsUnknown` |
| Chat.Direct | assets/main.js:277-315 | the bot reply and page action of each known intent; stated for every known intent by `HelpListsCommands`, `NavigationOpensPage`, `ModeTogglesTheme`, `PrankShowsOverlay`, `ProfilesOpenTab`, `ResumeScrollsOrOpensLinkedin`, `ContactScrollsOrPointsToFooter`, `GotoScrollsOrStays` and `AvatarDescribes` |
| Chat.HelpListsCommands | assets/main.js:277-278 | `help` answers with the list of commands and stays on the page |
| Chat.ModeTogglesTheme | assets/main.js:281-284 | a `mode` synonym asks for the theme toggle and answers `Toggled theme.` |
| Chat.PrankShowsOverlay | assets/main.js:285 | `prank` shows the prank overlay and adds no bot turn |
| Chat.ProfilesOpenTab | assets/main.js:286-291 | `github…` and `linkedin…` announce and open the GitHub or LinkedIn profile in a new tab |
| Chat.ResumeScrollsOrOpensLinkedin | assets/main.js:292-297 | `resume…` scrolls to the `resume` section when the page has one, and otherwise says so and opens LinkedIn |
| Chat.ContactScrollsOrPointsToFooter | assets/main.js:298-303 | `contact…` scrolls to the `contact` section when the page has one, and otherwise points to the footer links and stays |
| Chat.AvatarDescribes | assets/main.js:312-315 | `avatar…` describes the avatar and stays on the page |
| Chat.OnlyModeToggles | assets/main.js:281-284 | the theme toggle is asked for exactly by the `mode` synonyms |
| Chat.OnlyNavigationNavigates | assets/main.js:279-280 | the page changes exactly for the four navigation intents |
| Chat.WhenTabOpens | assets/main.js:286-296 | a tab opens exactly for `github…`, `linkedin…` and a `resume…` on a page without a `resume` section |
| Chat.ResumeOpensExperiences | assets/main.js:266-280 | the command `resume` opens `experiences.html` |
| Chat.SilentIntents | assets/main.js:285-310 | a command gets no bot turn exactly when its intent is goto or prank |
| Chat.GotoScrollsOrStays | assets/main.js:304-310 | `goto <id>` scrolls to the element when the id is non-empty and present, and otherwise does nothing, without a bot turn |
| Chat.LetterQIsUnknown | assets/main.js:349-364 | `q` matches no intent and no keyword rule, so it gets exactly the unknown-command reply |
| Chat.MiniNeta.Greet | assets/main.js:252-255 | the greeting is pushed only into an empty transcript |
| Chat.MiniNeta.PushMsg | assets/main.js:238-244 | one turn is appended to the transcript |
| Chat.MiniNeta.Handle | assets/main.js:256-364 | an all-whitespace command changes nothing; any other command appends the user turn `> c` and then the bot turn of its response, if there is one, and returns its page action |
| Theme.Saved | assets/main.js:380-382 | the start-up mode is the stored value, or `pro` when nothing, or the empty string, is stored |
| Theme.NextMode | assets/main.js:399-415 | the toggle asks for `pro` exactly when `hacker` holds |
| Theme.Body.ApplyMode | assets/main.js:17-30 | afterwards exactly one of `pro`/`hacker` holds; `pro` holds iff the mode is `"pro"`; `data-mode` and the hacker-only effects agree with the classes; the mode is stored |
| Theme.Body.Init | assets/main.js:379-382 | start-up applies the stored mode, `pro` by default |
| Theme.Body.Toggle | assets/main.js:398-401 | a toggle flips `hacker` and stores the new mode |
| Theme.Body.KeyDownAsWritten | assets/main.js:413-417 | as written, `m` and `M` flip `hacker` and store the mode the toggle asks for, wherever they are typed; other keys change neither the theme nor the stored value |
| Theme.Body.KeyDown | assets/main.js:413-417 | corrected: `m` and `M` flip the theme and store the new mode only when not typed into an editable field; every other key, and every key typed in a field, changes neither the theme nor the stored value |
| Theme.ToggleTwice | assets/main.js:398-401 | two toggles restore the classes and the attribute |
| Theme.TypingFlipsPerModeKey | assets/main.js:413-417 | with the handler as written, typing text flips the theme once per `m` or `M` in it |
| Theme.TypedModeCommandAsWritten | assets/main.js:413-417 | as written, typing a chat synonym of `mode` and sending it leaves the theme where it started |
| Theme.TypedModeCommand | assets/main.js:413-417 | with keys typed into a field ignored, sending a `mode` synonym flips the theme exactly once |
| Theme.Body.TypeAsWritten | assets/main.js:413-417 | typing key by key leaves the theme that `HackerAfterTypingAsWritten` computes; text without `m` or `M` leaves the stored value alone, and otherwise the stored value is the theme the page ends in |
| Theme.Body.Type | assets/main.js:413-417 | typing key by key with the field-aware handler leaves the theme that `HackerAfterTyping` computes; typing in a field or without `m` and `M` leaves the stored value alone, and otherwise it is the theme the page ends in |
| Globe.Size | assets/main.js:84-88 | the globe size is the width share clamped to 72–140 on mobile and to 110–180 otherwise |
| Globe.Layout | assets/main.js:77-97 | the measurement fallbacks, the clamp and the bottom-right placement; stated by `LayoutBounds` and `LayoutDefaults` |
| Globe.LayoutBounds | assets/main.js:78-93 | the size is within its range; both offsets are at least the padding; the globe sits the padding away from the bottom-right corner whenever the container has room |
| Globe.LayoutDefaults | assets/main.js:78-82 | with no measurements, the viewport counts as desktop and the container as 800 by 260 |
| Globe.SizeMonotone | assets/main.js:85-88 | a wider container never gets a smaller globe |
| Typed.Words | assets/main.js:629 | the words are the bar-separated pieces of the attribute, or of the default list when the attribute is missing or empty: joining them with the bar gives that text back; the list is never empty and no word holds the bar |
| Typed.SliceTo | assets/main.js:635 | `slice(0, j)` is a prefix of the word, of length `j` when `j` is within it and the whole word when `j` is past its end |
| Typed.Step | assets/main.js:632-639 | the cursor moves one step, back while deleting and forward while typing; typing turns to deleting exactly when the cursor reaches the end of the word, and deleting ends exactly when it reaches 0, which is when the word counter advances; the 900 ms pause comes exactly at the turn to deleting, 40 ms between deletions, and 90 ms exactly when the next tick types; the text is the prefix of the word up to the new cursor |
| Typed.StartGood | assets/main.js:630 | the starting state `i = 0, j = 0`, not deleting, is good for every word list |
| Typed.StepGood | assets/main.js:632-639 | each tick keeps the cursor within the word |
| Typed.StepShowsPrefix | assets/main.js:635 | for a non-empty word the text shown is exactly the first `j` characters |
| Typed.WordCycle | assets/main.js:632-639 | a word of `n` characters takes `2n` ticks and is followed by the next word with the cursor at 0 |
| Typed.EmptyWordStalls | assets/main.js:632-639 | an empty word is never left: the cursor grows forever and the counter stays |
| Typed.TypedEffect.DoTick | assets/main.js:632-639 | one tick moves the state, the text and the delay as `Step` says, keeping the state good |
| Filter.FilterKey | assets/main.js:649 | the key is the lowercased button value, or `all` when that is missing or empty |
| Filter.Haystack | assets/main.js:652-654 | the lowercased tags, or the lowercased text when the tags are missing or empty; stated by `TagsTakePrecedence` and `MissingTagsUseText` |
| Filter.Shows | assets/main.js:650-655 | whether a card stays visible; stated by `AllShowsEverything`, `ShowsIff` and `KeyCaseInsensitive` |
| Filter.AllShowsEverything | assets/main.js:649-651 | a missing key, an empty key and `all` in any letter case show every card |
| Filter.ShowsIff | assets/main.js:652-655 | otherwise a card is shown exactly when its haystack contains the lowercased key |
| Filter.TagsTakePrecedence | assets/main.js:652-654 | cards with non-empty tags are judged by their tags alone |
| Filter.KeyCaseInsensitive | assets/main.js:649 | the filter ignores the letter case of the key |
| Filter.Apply | assets/main.js:648-658 | every card ends up shown exactly when `Shows` holds for it |
| Terminal.Lookup | assets/main.js:513-522 | a command is found exactly for the eight table keys, letter case included, and it is the command of that key |
| Terminal.LookupName | assets/main.js:513-522 | every command is found under its own key |
| Terminal.Output | assets/main.js:514-521 | only `clear` returns the empty string |
| Terminal.Page | assets/main.js:517-520 | exactly the four navigation commands name a page |
| Terminal.Result | assets/main.js:529 | the answer is the command's own, or `Command not found: <word>`; it is empty exactly for `clear` |
| Terminal.ArgumentsIgnored | assets/main.js:528 | words after the first do not change which command runs |
| Terminal.ModeLineReportsHackerInPro | assets/main.js:516 | as written, the `mode` answer reports `hacker` even in pro mode |
| Terminal.ModeLineNamesTheme | assets/main.js:516 | the corrected `mode` answer names the theme the page is in |
| Terminal.ModeLineAsWritten | assets/main.js:516 | the `mode` answer as written, which reports `pro` only when a `normal` class is present; stated by `ModeLineReportsHackerInPro` |
| Terminal.ResultAsWritten | assets/main.js:513-529 | the answer as written: own commands, `mode` always answering `hacker`, inherited members printing `[object Object]`, nothing, or throwing; stated by `AsWrittenAgreesOffPrototype` and `InheritedOutcomes` |
| Terminal.InheritedOutcomes | assets/main.js:513-529 | as written, the object-valued inherited members print `[object Object]`, the handler throws exactly for `__proto__`, `__defineGetter__` and `__defineSetter__`, and nothing is printed exactly for `clear` and the members whose call gives `false` or `undefined` |
| Terminal.AsWrittenAgreesOffPrototype | assets/main.js:513-529 | apart from the inherited object member names, the lookup as written and the own-key lookup give the same answer, except that `mode` as written always gives the hacker answer |
| Terminal.ToStringAsWritten | assets/main.js:529 | as written, `toString` prints `[object Object]`; the own-key lookup reports it as not found |
| Terminal.InheritedNotFound | assets/main.js:513-529 | with the own-key lookup, every inherited member name is reported as not found |
| Terminal.Term.Enter | assets/main.js:523-533 | the corrected handler: a blank input changes nothing; otherwise the trimmed input is echoed after the prompt and the own-key answer to its first word, with `mode` naming the theme the page is in, is appended on its own line (`clear` leaves the output empty); the word looked up is a non-empty prefix of the trimmed input; the navigation page is returned |
| Terminal.Term.EnterAsWritten | assets/main.js:523-533 | the handler as written: a blank input changes nothing; otherwise the echo line is followed by the answer of `ResultAsWritten`, nothing for `clear` and the silent inherited members, and nothing more when the call throws, which is reported; the navigation page is returned |
| Header.ActivePath | assets/header.js:21 | the page name is never empty and holds no `/`, so the table's `''` entry never matches |
| Header.ActivePathIsLastSegment | assets/header.js:21 | the page name is the lowercased text after the last `/`, or `index.html` when that text is empty |
| Header.ActivePathOf | assets/header.js:21 | the page name of `dir/name` is the lowercased `name`, or `index.html` for a directory |
| Header.FirstEntry | assets/header.js:24-32 | the first table entry whose list holds the path, or none when no entry holds it |
| Header.TargetHref | assets/header.js:24-32 | the `href` of the first table entry covering the page, else the home link; stated by `TargetHrefOwnPage`, `TargetHrefHome` and `RootPath` |
| Header.TargetHrefOwnPage | assets/header.js:24-32 | the projects, writeups, skills and experiences pages select their own link |
| Header.TargetHrefHome | assets/header.js:24-32 | every other page, the home page included, selects `index.html#home` |
| Header.RootPath | assets/header.js:21-32 | the site root `/` selects the home link |
| Header.FirstLink | assets/header.js:33 | the first link whose lowercased `href` is the target, or none |
| Header.ClearActive | assets/header.js:23 | afterwards no link is active |
| Header.FindTarget | assets/header.js:31-32 | the loop over the table yields the `href` of the first entry holding the path, or the home link |
| Header.FindLink | assets/header.js:33 | the position found is that of the first link whose lowercased `href` is the target, or past the end when there is none |
| Header.SetActive | assets/header.js:20-35 | afterwards a link is active exactly when it is the first link matching the target, so at most one link is active |

## Left out

- **Canvas effects.** The globe animation, the matrix rain and the grid background are drawing loops in floating point. Only the globe's size and position are modelled.
- **Timers.** The `typing…` indicator and the `setTimeout` delays before bot replies only schedule output. The transcript is modelled as if each delayed reply were already delivered, in order.
- **Typed-effect scheduling.** `setTimeout` is out; the delay of each tick is returned instead.
- **Storage and DOM calls.**
  - `localStorage` failures are modelled only as a missing stored value.
  - `setItem` is modelled as the `stored` field.
  - `aria-pressed`, `scrollTop`, focus and event-listener binding are left out.
- **The prank modal.** Its log animation and the opening and closing of the Mini Neta panel are left out.
- **The quick-action buttons.** The `data-act` buttons call the same `handle` and need no model of their own.
- **`assets/index-page.js`.** The vCard download, clipboard copy, scanner and card highlights are not part of this model.
- **The header fetch.** `fetch` of `partials/header.html` and its insertion are network and DOM work. `SetActive` takes the links as given.
- Globe.Layout: widths are whole pixels, and `Math.floor(cw * 0.28)` is computed as `cw * 28 / 100` in exact arithmetic. Fractional bounding-box widths and binary64 rounding are not modelled.
- Text.Lower: lowercases ASCII letters only. Unicode case mapping is not modelled.
- Chat.LetterQIsUnknown: this is one concrete input. The general reply for unmatched commands is stated by `Replies.FallbackReply`.
- Theme.Body: `ensureMatrixCanvas` and `ensureGlobe` are reduced to the `effects` flag they are asked with. Whether the globe is actually attached (home page, container present, reduced motion) is not modelled.
- Terminal.Term.Enter: models the corrected handler. Its `mode` answer names the theme the page is in, where the code as written always answers `hacker`. Its lookup finds own keys only, so `toString` and `__proto__` get the not-found answer, where the code as written prints `[object Object]` or throws. The handler as written is `Terminal.Term.EnterAsWritten`.
- Replies.Pick: `Math.floor(Math.random() * n)` is computed as `num * n / den` in exact arithmetic. In binary64 the product can round up to the next integer, so the browser may draw a different position for the same fraction. No property depends on this, since the random value ranges over all fractions below 1.
- Typed.Step: the word length and `slice` count code points. JavaScript counts UTF-16 code units, so a word with a character outside the Basic Multilingual Plane takes more ticks in the browser than `Typed.WordCycle`'s `2n`.
- Terminal.ResultAsWritten: covers only the members every plain object inherits. Engine-specific extra members are not modelled.

## Findings

| source | as written | input that shows it | evidently intended | confidence | as-written member | corrected member |
|---|---|---|---|---|---|---|
| assets/main.js:516 | the terminal's `mode` answer asks for a `normal` body class, which `applyMode` never sets | in pro mode, enter `mode` in the terminal: it answers `Current mode: hacker` | report `pro` when the `pro` class holds | high, not executed | Terminal.ModeLineReportsHackerInPro | Terminal.ModeLineNamesTheme |
| assets/main.js:413-417 | the document `keydown` handler toggles the theme on `m`/`M` wherever the key was typed, including the chat box | type `mode` into the chat box and press Enter: the typed `m` toggles once and the command toggles again, so the theme does not change | keys typed into an editable field do not trigger the shortcut, so the command toggles once | high, not executed | Theme.TypedModeCommandAsWritten | Theme.TypedModeCommand |
| assets/main.js:513-529 | `cmds[cmd]` also finds members every object inherits | enter `toString` in the terminal: it prints `[object Object]`; `__proto__` throws after the echo line | words that are not table keys are reported as `Command not found` | medium, not executed | Terminal.ToStringAsWritten | Terminal.InheritedNotFound |

Notes on the findings:

- **The `mode` answer.** The corrected answer is `ModeLine`, which `Output` uses. As written it is `ModeLineAsWritten(false)`, which `ResultAsWritten` uses.
- **The `m` shortcut.**
  - As written, typing is modelled by `Theme.Body.TypeAsWritten`. Each chat synonym of `mode` holds exactly one `m` (`Theme.ModeWordsHoldOneM`).
  - The corrected handler is `Theme.Body.KeyDown`. It takes whether the key was typed in an editable field.
- **The command lookup.**
  - `ResultAsWritten` models the lookup as written.
  - The corrected lookup `Result`, own keys only, is the one `Term.Enter` uses; `Term.EnterAsWritten` uses `ResultAsWritten`.
