# Matrix portfolio terminal — a Dafny model

This project models the logic behind a browser "terminal" portfolio. The
page has a login screen, then a terminal that takes typed commands. The
commands print the owner's profile, projects and CV, switch colour themes,
open project links and show a few animations. An idle screen takes over
when the visitor is inactive.

The model is functional. Output is a sequence of rows (`Rendering.Row`),
each tagged with how it was written: an instant `addLine` row, an animated
typewriter row, a glitch-styled row or a matrix-cascade row. State lives in
immutable records, and each operation is a pure step function:

- the command service's session: the glitch flag and the theme state;
- the terminal component's command history;
- the login form;
- the auth flag and its stored key;
- the idle screen's log.

Randomness is passed in as explicit draws in [0, 1) (module `Draws`). The
clock is a string input. `window.open` becomes an emitted URL, and the
deferred logout becomes a flag. The browser's local storage is a
`map<string, string>`.

Modules follow the source files:

| module | source |
|---|---|
| `Wrappers`, `Text`, `Draws` | JavaScript `Option`/`undefined`, string built-ins, `Math.random` |
| `Rendering` | `src/app/services/terminal-utility.service.ts` |
| `Commands` | `src/app/services/terminal-command.service.ts` |
| `Terminal` | `src/app/terminal/terminal.component.ts` |
| `Profile` | `src/app/services/profile.service.ts` and `src/app/models/interfaces.ts` |
| `Themes` | `src/app/services/theme.service.ts` |
| `Auth` | `src/app/services/auth.service.ts` |
| `Login` | `src/app/login/login.component.ts` |
| `IdleOverlay` | `src/app/idle-overlay/idle-overlay.component.ts` |
| `Typewriter` | `src/app/services/typewriter.service.ts` |

Some descriptions of this terminal differ from its code. The model follows
the code:

- Commands are dispatched on the whole trimmed, lowercased line, not on its
  first word. `Commands.Dispatch` compares the whole line for fixed
  commands and tests prefixes for `echo `, `theme `, `showcase `, `open `,
  `code ` and `cv `.
- `showcase 99`, with three projects, does not print the "number out of
  range" message. The index branch runs only for numbers in range. Any
  other parameter goes to the name lookup, which prints
  `Project "99" not found.` (`Commands.ShowcaseNumberBeyond`).
- `cv  1` (two spaces) reaches the generic `cv ` branch. Its trimmed
  sub-command `1` is in the allowed list, so it prints nothing
  (`Commands.ParseCvDoubleSpace`, `Commands.CvOtherOutput`).
- The echo text and the `showcase`/`open`/`code` parameters are cut at a
  fixed offset of the raw line, but the command word is matched against the
  trimmed line. Leading spaces therefore shift the cut: `  echo hi` echoes
  `o hi` (`Commands.EchoCutsRawLine`).
- The "Zeitraum" (period) row of an experience panel is written as the code
  writes it, one column wider than the box border
  (`Commands.ExperiencePeriodRow`). The row the padding evidently intends
  is `Commands.PeriodRow`, under "## Findings".

## Model

| member | source | states |
|---|---|---|
| Text.Trim | src/app/services/terminal-command.service.ts:35-36 | `trim` is never longer than its input, yields the empty string exactly when every character is JavaScript whitespace, and otherwise has no whitespace at either end |
| Text.TrimKeepsMiddle | src/app/services/terminal-command.service.ts:35-36 | `trim` removes whitespace from the two ends and nothing else: the result is a contiguous slice of the input with only whitespace before and after it |
| Text.JoinSplit | src/app/services/terminal-utility.service.ts:86-87 | splitting on a separator and joining with it again gives back the original text |
| Text.LeadingDigitsMaximal | src/app/services/terminal-command.service.ts:92 | the digit run `parseInt` reads is all digits of the radix and stops at the first non-digit |
| Text.ParseIntOfNatToString | src/app/services/terminal-command.service.ts:92 | `parseInt` reads a printed project number back as that number, so "showcase 2" selects the number the terminal printed |
| Text.ParseIntNeedsDigit | src/app/services/terminal-command.service.ts:92-96 | a parameter with no decimal digit parses to NaN, so the name lookup runs |
| Draws.Scale | src/app/services/terminal-command.service.ts:294-296 | `Math.floor(Math.random() * n)` is an index below n |
| Draws.DrawLine | src/app/services/terminal-command.service.ts:295-297 | a generated line has one character per draw, each from the given alphabet |
| Rendering.LineRow | src/app/services/terminal-utility.service.ts:10-19 | a whitespace-only text becomes a non-breaking-space row; any other text is kept verbatim; the row is plain |
| Rendering.AddLine | src/app/services/terminal-utility.service.ts:10-19 | appends exactly one row and keeps every earlier row unchanged |
| Rendering.ClearTerminal | src/app/services/terminal-utility.service.ts:21-23 | no row survives |
| Rendering.RevealByChar | src/app/services/terminal-utility.service.ts:36-58 | the reveal loop ends with prior + text, and after step k the content is prior + the first k + 1 characters |
| Rendering.TypeText | src/app/services/terminal-utility.service.ts:29-60 | the row ends holding its old text followed by the new text, one character per step; the glitch flag never changes the text or style |
| Rendering.MatrixCascade | src/app/services/terminal-utility.service.ts:62-83 | the row ends holding old text + text, marked as matrix text, one character per step |
| Rendering.WrapTextKeepsWords | src/app/services/terminal-utility.service.ts:85-104 | the non-empty words of the wrapped lines, in order, are exactly the non-empty words of the input: none is split or lost |
| Rendering.WrapWordsKeepsWords | src/app/services/terminal-utility.service.ts:90-97 | the word loop keeps every word it has consumed, in order, across the finished lines and the current line |
| Rendering.WrapWordsInvariant | src/app/services/terminal-utility.service.ts:90-97 | the word loop only appends finished lines, and every finished line fits or holds a single word |
| Rendering.WrapTextShape | src/app/services/terminal-utility.service.ts:91-95 | every output line that contains a space fits in maxWidth, and a line is closed only when the next word would not fit (greedy) |
| Rendering.WrapEmptyText | src/app/services/terminal-utility.service.ts:85-104 | wrapping the empty text gives no lines when maxWidth is at least 1 |
| Rendering.WrapLeadingEmptyLine | src/app/services/terminal-utility.service.ts:91-95 | when the first word plus one does not fit, the first output line is empty, because the fit test counts a space even for an empty line |
| Profile.GetProjectByIndex | src/app/services/profile.service.ts:92-97 | returns projects[i] exactly when 0 <= i < #projects, and nothing otherwise |
| Profile.GetProjectByName | src/app/services/profile.service.ts:99-103 | returns nothing exactly when no name matches case-insensitively; otherwise the first matching project |
| Profile.NameLookupAgreesWithIndex | src/app/services/profile.service.ts:92-103 | with names distinct under lowercasing, looking up project i by its name in any casing gives the same project as looking up index i |
| Profile.ShippedNamesDistinct | src/app/services/profile.service.ts:17-39 | the three shipped project names are distinct under lowercasing |
| Profile.ShippedNameLookup | src/app/services/profile.service.ts:17-103 | for the shipped data, name lookup in any casing agrees with index lookup |
| Themes.GetThemes | src/app/services/theme.service.ts:90-92 | four themes, in the order matrix, cyberpunk, retro, hacker |
| Themes.Lookup | src/app/services/theme.service.ts:99-100 | the registry's own entries, as the corrected `setTheme` reads them: the theme with exactly the given name, and nothing when no registered name is equal (the property lookup as written also answers for inherited members; see `Themes.SetThemeAsWritten`) |
| Themes.SetTheme | src/app/services/theme.service.ts:98-102 | the corrected `setTheme`: a registered name makes that theme current and is stored under `terminal_theme`; any other name changes neither current theme nor storage; the current theme stays registered |
| Themes.SetThemeAsWritten | src/app/services/theme.service.ts:98-102 | `setTheme` as written: a registered name behaves as in the corrected one, an inherited `Object.prototype` name becomes current and is stored, any other name changes nothing |
| Themes.SetThemeAgreesOffInherited | src/app/services/theme.service.ts:98-102 | for every name that is not an inherited member, `setTheme` as written and the corrected one reach the same state |
| Themes.SetThemeAsWrittenAdmitsInherited | src/app/services/theme.service.ts:99-100 | as written, `setTheme("toString")` makes the inherited function current and stores `toString`; the corrected `setTheme` leaves the state unchanged |
| Themes.Restore | src/app/services/theme.service.ts:80-88 | a new service adopts the stored name only when it names a registered theme, otherwise starts on matrix; the current theme is registered |
| Themes.SetThemePersists | src/app/services/theme.service.ts:83-102 | after setting a registered theme, a new service instance starts on that theme |
| Themes.AlwaysRegistered | src/app/services/theme.service.ts:80-101 | from any storage and after any sequence of `setTheme` calls, the current theme is one of the registered themes |
| Themes.RestoreAsWritten | src/app/services/theme.service.ts:83-88 | the constructor as written: with no stored value the current theme is matrix |
| Themes.RestoreAsWrittenCallsSetTheme | src/app/services/theme.service.ts:83-88 | every stored value the constructor's guard admits, inherited names included, is handed to `setTheme` as written, whose current theme the constructor ends with |
| Themes.RestoreAsWrittenAdmitsInherited | src/app/services/theme.service.ts:85 | as written, the stored value `toString` passes the registry test and is adopted; the corrected constructor keeps matrix |
| Auth.Restore | src/app/services/auth.service.ts:12-17 | a new service is authenticated exactly when the stored value is the string `true` |
| Auth.Login | src/app/services/auth.service.ts:19-23 | every username and password is accepted |
| Auth.CompleteAuthentication | src/app/services/auth.service.ts:25-28 | sets the flag and stores `true`; no other stored key changes |
| Auth.Logout | src/app/services/auth.service.ts:30-33 | clears the flag and removes the key; no other stored key changes |
| Auth.LoginPersists | src/app/services/auth.service.ts:12-28 | after completing authentication, a new service instance starts authenticated |
| Auth.LogoutPersists | src/app/services/auth.service.ts:12-33 | after authentication then logout, a new service instance starts unauthenticated |
| Login.UpdateUsername | src/app/login/login.component.ts:41-44 | the username takes the input's value and nothing else changes |
| Login.StartAuthentication | src/app/login/login.component.ts:46-54 | an empty username or password only sets "Username and password required"; otherwise the phase becomes authenticating with progress 0 and message "Authenticating" |
| Login.HandleKeydown | src/app/login/login.component.ts:26-39 | outside the input phase nothing changes; Backspace drops the last password character if any; a one-character key is appended; Enter starts authentication; other keys are ignored |
| Login.EnterLeavesInputIffFilled | src/app/login/login.component.ts:29-54 | Enter leaves the input phase exactly when both fields are non-empty |
| Login.DotsTick | src/app/login/login.component.ts:57-59 | the dots grow by one up to three and never exceed three |
| Login.DotsCycle | src/app/login/login.component.ts:57-59 | the dots cycle "" → "." → ".." → "..." → "" |
| Login.ProgressTick | src/app/login/login.component.ts:62-68 | progress never decreases and never passes 100; below 100 it grew by the draw times 15 |
| Login.OnLoginResult | src/app/login/login.component.ts:70-91 | success shows "Access Granted" in the success phase; failure shows "Access Denied" in the failed phase; the fields are kept |
| Login.FailureTimeout | src/app/login/login.component.ts:92-96 | after a failure the form returns to input with password and message cleared and the username kept |
| Login.FailureReturnsToInput | src/app/login/login.component.ts:89-96 | after a failed attempt the next typed character starts a fresh password |
| Login.RandomHexLine | src/app/login/login.component.ts:102-112 | a generated line has length in [20, 49] and uses only upper-case hexadecimal digits |
| IdleOverlay.LogLength | src/app/idle-overlay/idle-overlay.component.ts:39 | a log line's length is in [20, 49] |
| IdleOverlay.LogLine | src/app/idle-overlay/idle-overlay.component.ts:37-42 | a log line has length in [20, 49] and uses the 62-character alphanumeric alphabet |
| IdleOverlay.PushLog | src/app/idle-overlay/idle-overlay.component.ts:43-46 | the new line goes at the end; the front line is dropped first when more than ten are shown; a log of at most eleven stays at most eleven |
| IdleOverlay.LogStaysBounded | src/app/idle-overlay/idle-overlay.component.ts:43-46 | however many ticks run, the log never holds more than eleven lines |
| IdleOverlay.RotateTick | src/app/idle-overlay/idle-overlay.component.ts:60-64 | the index stays below the number of slides and advances by one except when it wraps to 0 |
| IdleOverlay.RotateTicksModulo | src/app/idle-overlay/idle-overlay.component.ts:60-64 | after t ticks the index is (start + t) mod count |
| IdleOverlay.RotationReturns | src/app/idle-overlay/idle-overlay.component.ts:51-64 | with the seven slides, seven ticks bring the index back to where it started |
| Typewriter.TypeText | src/app/services/typewriter.service.ts:5-17 | the container ends with prior + text; characters arrive in index order, one per tick; the loop resolves after max(1, length) ticks, and empty text leaves the content unchanged |
| Commands.HexLength | src/app/services/terminal-command.service.ts:294 | a hack line's length is in [30, 79] |
| Commands.HexLine | src/app/services/terminal-command.service.ts:293-297 | a hack line has length in [30, 79] and only lower-case hexadecimal digits |
| Commands.MatrixLine | src/app/services/terminal-command.service.ts:323-327 | a matrix line has exactly 50 characters of the matrix alphabet |
| Commands.ParseUnknownIff | src/app/services/terminal-command.service.ts:42-130 | a line is "not found" exactly when its trimmed, lowercased form is neither a fixed command nor starts with a command prefix |
| Commands.DispatchUnknownIff | src/app/services/terminal-command.service.ts:45-130 | the dispatch chain falls through to its last branch exactly for unrecognised normalized lines |
| Commands.NormalizeIdentity | src/app/services/terminal-command.service.ts:35-42 | a line already trimmed and lowercase normalizes to itself |
| Commands.HackRowsShape | src/app/services/terminal-command.service.ts:284-307 | `hack` writes the opening line, ten hexadecimal lines, all typed with flicker, then one glitch-styled closing row |
| Commands.FindTheme | src/app/services/terminal-command.service.ts:355-356 | a found theme is in the list and its name equals the query ignoring case; nothing is found exactly when no name does |
| Commands.ChangeTheme | src/app/services/terminal-command.service.ts:350-363 | a theme registered under the name ignoring case becomes current and its display name is announced; otherwise the state is unchanged and the not-found message quotes the name; a registered current theme stays registered |
| Commands.FindThemeIsLookup | src/app/services/terminal-command.service.ts:355-358 | the case-insensitive search over the registry agrees with the registry lookup of the lowercased name |
| Commands.ThemeNamesLowercase | src/app/services/theme.service.ts:24-77 | every registered theme name is already lowercase |
| Commands.Resolve | src/app/services/terminal-command.service.ts:91-93 | the index branch is chosen exactly when parseInt(param) is a number in [1, #projects], selecting that number minus one; otherwise the raw parameter is looked up by name |
| Commands.IndexOfName | src/app/services/terminal-command.service.ts:430 | `findIndex` with exact equality: the first project bearing the name, or -1 exactly when none does |
| Commands.IndexOfOwnName | src/app/services/terminal-command.service.ts:430 | with distinct names, a project's own name finds its own index |
| Commands.LookupByNumber | src/app/services/terminal-command.service.ts:92-96 | the decimal numeral of i + 1 always selects the i-th project, whatever the projects are named |
| Commands.HintSelectsProject | src/app/services/terminal-command.service.ts:430-440 | the number printed in a project's "open N"/"code N" hint resolves back to that same project |
| Commands.NumberAndNameAgree | src/app/services/terminal-command.service.ts:90-113 | addressing a project by its number or by its name in any casing shows the same details and opens the same link |
| Commands.BoxLine | src/app/services/terminal-command.service.ts:418-420 | a border line is two wider than its fill and starts and ends with the given corners |
| Commands.BorderKept | src/app/services/terminal-command.service.ts:418-420 | `addLine` keeps a border line's text verbatim |
| Commands.HeaderCentered | src/app/services/terminal-command.service.ts:419 | for a name of length n ≤ 60, the header row is 62 wide, framed by ║, the name centred with ⌊(60−n)/2⌋ spaces before and ⌈(60−n)/2⌉ after |
| Commands.OpenLink | src/app/services/terminal-command.service.ts:445-507 | one row is printed; a URL is opened exactly when the project resolves and its link is non-empty, and it is that link, announced by the opening message |
| Commands.OpenCommandEffect | src/app/services/terminal-command.service.ts:98-105 | `open` opens a URL exactly when the parameter resolves to a project with a non-empty live-demo link, and then that link; it writes echo + one row + blank and leaves the session alone |
| Commands.CodeCommandEffect | src/app/services/terminal-command.service.ts:106-113 | `code` opens a URL exactly when the parameter resolves to a project with a non-empty source link, and then that link; it writes echo + one row + blank and leaves the session alone |
| Commands.ShowcaseNumberBeyond | src/app/services/terminal-command.service.ts:90-97 | with names that do not start with a digit, a number outside [1, #projects] ends in the "not found" listing, not the out-of-range message |
| Commands.ShippedNamesShape | src/app/services/profile.service.ts:17-39 | the shipped project names fit the 60-wide header and none starts with a digit |
| Commands.ShowcaseNotFound | src/app/services/terminal-command.service.ts:394-407 | a name that matches no project prints the not-found message and the numbered list |
| Commands.DispatchEcho | src/app/services/terminal-command.service.ts:45-71 | a line whose normalized form starts with `echo ` echoes the raw line from its sixth character on; no earlier command word catches it |
| Commands.EchoCutsRawLine | src/app/services/terminal-command.service.ts:35-71 | the cut counts from the raw line while the test uses the trimmed one: `echo hi` echoes `hi`, but `  echo hi` echoes `o hi` |
| Commands.ParseOpen | src/app/services/terminal-command.service.ts:98-99 | any line whose trimmed, lowercased form starts with `open ` is the `open` command, whose parameter is the raw, untrimmed line from its sixth character on, trimmed |
| Commands.DispatchOpen | src/app/services/terminal-command.service.ts:45-99 | no command word checked before `open ` catches a line starting with `open ` |
| Commands.DispatchCvOther | src/app/services/terminal-command.service.ts:45-123 | a line starting with `cv ` that is none of the eight section commands reaches the generic `cv ` branch with the rest of the normalized line as sub-command |
| Commands.ShippedOpenFirst | src/app/services/terminal-command.service.ts:445-461 | with the shipped projects, `open 1` opens the first project's live demo |
| Commands.BoxRow | src/app/services/terminal-command.service.ts:536-541 | a CV box row is 60 wide, framed by │, and carries its content verbatim from the third character on |
| Commands.BoxPanelShape | src/app/services/terminal-command.service.ts:524-548 | a CV panel has three rows more than its lines, and the rows after the top border are the box rows of its lines in order; every row but the last, blank one is 60 wide |
| Commands.EducationLinesFit | src/app/services/terminal-command.service.ts:531-545 | degree, institution/year and every wrapped description line fit inside the box |
| Commands.ExperienceLinesFit | src/app/services/terminal-command.service.ts:556-572 | when every `repeat` count of the panel is non-negative (position and company at most 56 characters, period at most 47, wrapped lines at most 56), the position, company, spacer and description texts fit the 56-wide box rows |
| Commands.SpacerRow | src/app/services/terminal-command.service.ts:567 | the spacer row is │, 57 spaces, a space and │ |
| Commands.PeriodRowWidths | src/app/services/terminal-command.service.ts:566 | the "Zeitraum" row the code writes is one character wider than the box border; the corrected row (padding one space less) matches the border |
| Commands.ExperiencePeriodRow | src/app/services/terminal-command.service.ts:556-572 | in the panel the code writes, the period row sits right after the position and, when present, the company; it is the 61-wide row of line 566, while every other row but the closing blank is 60 wide like the border |
| Commands.PaddedRow | src/app/services/terminal-command.service.ts:586-594 | a language or certification row is exactly as wide as its box border |
| Commands.NextSession | src/app/services/terminal-command.service.ts:61-87 | the glitch flag flips exactly for `glitch`; only `theme X` can change the theme; the theme stays registered |
| Commands.Execute | src/app/services/terminal-command.service.ts:30-143 | empty or whitespace-only input writes nothing and has no effect; any other input is submitted as its parsed command |
| Commands.Submit | src/app/services/terminal-command.service.ts:40-141 | the echo `> raw` of the raw, untrimmed line comes first after the old screen, then the command's own rows, and a blank row comes last; after `clear` only the blank row remains; a URL only for open/code; glitch flips only for `glitch`; logout is scheduled exactly for `logout` |
| Commands.UnknownCommandOutput | src/app/services/terminal-command.service.ts:130-141 | an unknown line writes the echo, `Command not found: ` + raw line as a glitch row, the help hint and a blank row, with no effect |
| Commands.ThemeCommandEffect | src/app/services/terminal-command.service.ts:85-87 | `theme X` applies the registered theme named X ignoring case and prints its display name; otherwise the theme is unchanged and a not-found row is printed |
| Commands.ParseGlitch | src/app/services/terminal-command.service.ts:61-62 | `glitch` is the glitch toggle |
| Commands.GlitchTwice | src/app/services/terminal-command.service.ts:169-184 | `glitch` flips the flag, and a second `glitch` restores the session |
| Commands.ParseCvDoubleSpace | src/app/services/terminal-command.service.ts:116-125 | `cv  1` is not the education section but the generic `cv ` branch with sub-command `1` |
| Commands.CvOtherOutput | src/app/services/terminal-command.service.ts:124-129 | a `cv ` sub-command in the allowed list prints nothing between echo and blank; any other prints the German error and hint |
| Commands.AddLineTypewriter | src/app/services/terminal-command.service.ts:145-167 | the typewriter row appended by a handler ends holding exactly its text |
| Commands.AddMatrixLine | src/app/services/terminal-command.service.ts:318-329 | each matrix row ends holding exactly its generated line |
| Terminal.Record | src/app/terminal/terminal.component.ts:111-117 | a non-blank command goes raw to the front and the cursor resets to -1; beyond fifty entries the oldest is dropped; a blank command changes nothing; the history bound is kept |
| Terminal.Navigate | src/app/terminal/terminal.component.ts:90-108 | an empty history changes nothing; "up" stops at the oldest entry and "down" at -1; the input shows "" at -1 and the entry otherwise; the entries never change |
| Terminal.KeyDown | src/app/terminal/terminal.component.ts:80-88 | only the arrow keys navigate; every other key leaves history and input alone |
| Terminal.FirstUpShowsSubmission | src/app/terminal/terminal.component.ts:90-117 | the first "up" after a submission shows that submission |
| Terminal.DownUndoesUp | src/app/terminal/terminal.component.ts:93-107 | "down" right after a moving "up" restores the cursor and the input |
| Terminal.NavigateTimes | src/app/terminal/terminal.component.ts:90-108 | any number of arrow presses keep the cursor in range and the entries unchanged |
| Terminal.UpTimesStopsAtOldest | src/app/terminal/terminal.component.ts:93-96 | k presses of "up" move k entries back, stopping at the oldest |
| Terminal.DownTimesStopsAtInput | src/app/terminal/terminal.component.ts:97-101 | k presses of "down" move k entries forward, stopping at -1 |
| Terminal.Replay | src/app/terminal/terminal.component.ts:110-117 | any sequence of submissions leaves a history of at most fifty entries with a cursor in range |
| Terminal.ReplayKeepsNewest | src/app/terminal/terminal.component.ts:110-117 | after any sequence of submissions the history is the fifty most recent non-blank commands, newest first, with the cursor at -1 |
| Terminal.LegacyUnknownIff | src/app/terminal/terminal.component.ts:122-154 | the component reports "not found" exactly for a non-blank line whose normalized form is none of its commands |
| Terminal.LegacyCommandsKnownToService | src/app/terminal/terminal.component.ts:124-150 | every line the component's own dispatcher understands, the command service understands too |
| Terminal.ServiceKnowsMore | src/app/terminal/terminal.component.ts:124-150 | the converse fails: `glitch` is a service command the component does not know |
| Terminal.ProjectText | src/app/terminal/terminal.component.ts:209-219 | the projects listing has four lines per project, and each project's first line is its number (counting on from the start number, 1 in the listing), a dot and its name |
| Terminal.HandleCommand | src/app/terminal/terminal.component.ts:110-163 | history is updated as `Record`; `> command` is written first even for blank input, then the command's rows, then a blank row; `clear` leaves only the blank row; every new row is plain |
| Terminal.LegacyUnknownOutput | src/app/terminal/terminal.component.ts:151-156 | an unknown line writes the echo, `Command not found: ` + raw line, the help hint and a blank row |
| Terminal.RunHackInterval | src/app/terminal/terminal.component.ts:239-265 | the `hack` interval runs 25 ticks, writes its 25 lines in order, then a blank row, `HACK COMPLETE. ACCESS GRANTED.` and a blank row, keeping the earlier rows |
| Terminal.RunMatrixInterval | src/app/terminal/terminal.component.ts:267-295 | the `matrix` interval runs 15 ticks, writes its 15 lines in order, then a blank row, `Matrix rain sequence complete.` and a blank row, keeping the earlier rows |
| Terminal.RunInterval | src/app/terminal/terminal.component.ts:239-265 | the hack (and matrix) interval stops after exactly its line count of ticks, having written every generated line in order, then a blank row, the closing message and a blank row |
| Terminal.WelcomeScreen | src/app/terminal/terminal.component.ts:59-78 | five plain rows, each written verbatim: the banner, `Matrix Terminal v1.0`, the help hint and a line of 40 dashes (none of them becomes a non-breaking-space row), then a blank row |

## Left out

- Browser details are not modelled: DOM nodes, CSS classes (`typing`, `flicker-text`, `glitch-text`), `data-text`, scrolling, focus and `preventDefault`. Rows carry only a style tag.
- Timing is not modelled: typing speed and jitter delays, the scroll keep-alive interval, and the one-second delay before logout. The logout becomes the `logoutScheduled` flag.
- The login success message chain (`login.component.ts` 77-88) is not modelled. It is a sequence of timed message changes ending in `completeAuthentication`, which `Auth.CompleteAuthentication` models.
- Math.random, `new Date()`, `window.open` and local storage become inputs, outputs and maps, as described above. The flicker probability inside `typeText` is left out because it only toggles a CSS class.
- The theme service's CSS custom-property writes (`theme.service.ts` 104-111) are left out. They only restyle the page.
- `setGlitchMode`, `isGlitchEnabled`, `getCurrentTheme` and the profile getters are plain field reads and writes. They are the fields of `Commands.Session`, `Themes.ThemeState` and `Profile.PersonalInfo`.
- The unused `args` variable of `executeCommand` and the empty `handleSudo` stub are not modelled.
- The status bar, the idle-detection service, the theme switcher menu and the application shell are not part of this model. They consist of clock subscriptions, event streams and UI flags.
- Text.Lower: lowercases ASCII letters only. JavaScript's `toLowerCase` also maps other Unicode letters, and a few of them to ASCII letters; U+212A KELVIN SIGN, for one, becomes `k`. Typed input holding such characters is therefore dispatched differently: the source runs `hac` followed by U+212A as `hack`, while the model reports it as an unknown command. Every command word, theme name and project name in the data is ASCII.
- Themes.SetTheme: reads only the registry's own keys. The source's `this.themes[themeName]` also finds members inherited from `Object.prototype`, which reach `setTheme` through the constructor at line 86 when one is stored under `terminal_theme`. That behaviour is `Themes.SetThemeAsWritten`, under "## Findings". The `theme` command passes only registered names (`Commands.FindThemeIsLookup`), and there the two agree (`Themes.SetThemeAgreesOffInherited`).
- Strings are sequences of code points, while JavaScript counts UTF-16 code units. The two agree on every character in the data, since all of them are in the Basic Multilingual Plane. They differ for typed astral-plane keys such as U+1F600. `Login.HandleKeydown` appends such a key as one character, where the source's `event.key.length === 1` test is false for it and the key is ignored. After such a character, Backspace's `slice(0, -1)` in the source removes half a surrogate pair, where the model removes the whole character.
- Text.ParseInt: the number is an unbounded integer; JavaScript's double precision for very long digit strings is not modelled.
- Login.ProgressTick: uses exact reals for JavaScript's floating-point progress.
- Commands.HandleRows: requires `WellFormed`. This says every `String.repeat` count is non-negative, which the source needs to avoid an exception. That the shipped CV data meets it is not proved: evaluating the word wrap on the long shipped descriptions is too costly for the verifier.
- Commands.Execute: the lemmas about individual commands are stated on `Commands.Submit` for a given parsed command. `Execute` is proved equal to `Submit` of `Parse(raw)` for non-blank input, and parsing is covered by separate lemmas (`ParseGlitch`, `ParseOpen`, `ParseCvDoubleSpace`, `ParseUnknownIff`).
- Commands.HackRowsShape: the ten hexadecimal lines are an input. Their shape is assumed through `ValidEnvironment` and proved separately for generated lines (`Commands.HexLine`).
- Terminal.Navigate: requires the history invariant `Valid`. The component keeps this invariant (`Terminal.Record`, `Terminal.Navigate`); it is not a check the source performs.
- Terminal.RunInterval: models one interval running to completion. Rows that other commands write while the interval is still running, interleaved with its ticks, are not modelled.
- Terminal.HandleCommand: writes only the first lines of `hack` and `matrix`; their interval tails are `Terminal.RunInterval`.

## Findings

| source | as written | input that shows it | evidently intended | confidence | as-written member | corrected member |
|---|---|---|---|---|---|---|
| src/app/services/terminal-command.service.ts:566 | the "Zeitraum" row pads with `boxWidth - period.length - 11` spaces, but its fixed text `│ Zeitraum: ` plus ` │` is 14 characters | any experience, e.g. period `2024 - Heute`: the row is 61 characters against the 60 of the border and every other box row | pad with `boxWidth - period.length - 12`, so the row is as wide as the box | not executed | Commands.PeriodRowAsWritten (shown by Commands.PeriodRowWidths; written by `Commands.ExperiencePanel`, as the code does) | Commands.PeriodRow |
| src/app/services/theme.service.ts:85 | the constructor accepts a stored name when `this.themes[saved]` is truthy, and a property lookup also finds members inherited from `Object.prototype` | stored `terminal_theme` = `toString`: the lookup yields a function, which becomes the current theme | adopt only the registry's own four theme names | not executed | Themes.RestoreAsWritten (shown by Themes.RestoreAsWrittenAdmitsInherited) | Themes.Restore |
| src/app/services/theme.service.ts:99-100 | `setTheme` applies a theme when `this.themes[themeName]` is truthy, the same property lookup as the constructor, so inherited `Object.prototype` members pass too; the constructor at line 86 hands such a stored name to it | `setTheme("toString")`, reached from a stored `terminal_theme` of `toString`: the inherited function becomes current and `toString` is stored | apply only the registry's own four theme names | not executed | Themes.SetThemeAsWritten (shown by Themes.SetThemeAsWrittenAdmitsInherited) | Themes.SetTheme |
