/**
 * The command interpreter: classifying a submitted line, the handlers'
 * output rows, and one submission's effect on the screen, the session
 * (glitch flag and theme) and the outside world (a URL opened, a logout
 * scheduled). Animated rows appear here in their final state; the bridge
 * methods at the end show that the animations reach exactly that state.
 */
module Commands {
  import opened Wrappers
  import opened Text
  import opened Profile
  import Themes
  import opened Rendering
  import opened Draws

  /**
   * What the source takes from its surroundings: `new Date().toString()`,
   * and the randomly generated lines of `hack` and `matrix`.
   */
  datatype Environment = Environment(now: string, hexLines: seq<string>, matrixLines: seq<string>)

  const HackLineCount: nat := 10
  const HexAlphabet: string := "0123456789abcdef"

  const MatrixLineCount: nat := 8
  const MatrixLineLength: nat := 50
  const MatrixAlphabet: string := "ABCDEFGHIJKLMNOPQRSTUVWXYZabcdefghijklmnopqrstuvwxyz0123456789$#@!*%&"

  predicate HexLineShape(line: string) {
    30 <= |line| <= 79 && forall i :: 0 <= i < |line| ==> line[i] in HexAlphabet
  }

  predicate MatrixLineShape(line: string) {
    |line| == MatrixLineLength && forall i :: 0 <= i < |line| ==> line[i] in MatrixAlphabet
  }

  /** The hack line's length, `Math.floor(Math.random() * 50) + 30`. */
  function HexLength(draw: real): (n: nat)
    requires IsDraw(draw)
    ensures 30 <= n <= 79
  {
    Scale(draw, 50) + 30
  }

  /** One `hack` line: a drawn length, then one hexadecimal digit per draw. */
  function HexLine(lengthDraw: real, charDraws: seq<real>): (line: string)
    requires IsDraw(lengthDraw) && |charDraws| == HexLength(lengthDraw) && AllDraws(charDraws)
    ensures HexLineShape(line)
  {
    DrawLine(HexAlphabet, charDraws)
  }

  /** One `matrix` line: fifty characters of the matrix alphabet. */
  function MatrixLine(charDraws: seq<real>): (line: string)
    requires |charDraws| == MatrixLineLength && AllDraws(charDraws)
    ensures MatrixLineShape(line)
  {
    DrawLine(MatrixAlphabet, charDraws)
  }

  /** The environment the source can produce: ten hack lines and eight matrix lines of the generated shapes. */
  predicate ValidEnvironment(env: Environment) {
    && |env.hexLines| == HackLineCount
    && (forall i :: 0 <= i < |env.hexLines| ==> HexLineShape(env.hexLines[i]))
    && |env.matrixLines| == MatrixLineCount
    && (forall i :: 0 <= i < |env.matrixLines| ==> MatrixLineShape(env.matrixLines[i]))
  }

  /** The command service's own state: the glitch flag, plus the theme service it drives. */
  datatype Session = Session(glitch: bool, theme: Themes.ThemeState)

  /** One submission's result. `url` is the URL handed to `window.open`, if any. */
  datatype Outcome = Outcome(screen: seq<Row>, session: Session, url: Option<string>, logoutScheduled: bool)

  datatype CvSection = EducationSection | ExperienceSection | LanguagesSection | CertificationsSection

  datatype Command =
    | Help | Clear | About | Skills | Projects | ContactCard | Hack | MatrixRain | ToggleGlitch | Sudo
    | Echo(text: string) | Date | Whoami | ListDirectory | Logout
    | ThemeList | ThemeSet(themeName: string)
    | ShowcaseList | Showcase(param: string) | Open(param: string) | Code(param: string)
    | CvOverview | CvShow(section: CvSection) | CvOther(sub: string)
    | Unknown(raw: string)

  /** The normalized line every test is made against: trimmed, then lowercased. */
  function Normalize(raw: string): string {
    Lower(Trim(raw))
  }

  /**
   * The dispatch chain, in source order, over the whole normalized line.
   * Echo text and project parameters are cut from the raw line at fixed
   * offsets; the theme name and CV sub-command from the normalized one.
   */
  function Parse(raw: string): Command {
    Dispatch(Normalize(raw), raw)
  }

  /** The chain's first part: the exact command words up to `sudo rm -rf /`. */
  function Dispatch(cmd: string, raw: string): Command {
    if cmd == "help" then Help
    else if cmd == "clear" then Clear
    else if cmd == "about" then About
    else if cmd == "skills" then Skills
    else if cmd == "projects" then Projects
    else if cmd == "contact" then ContactCard
    else if cmd == "hack" then Hack
    else if cmd == "matrix" then MatrixRain
    else if cmd == "glitch" then ToggleGlitch
    else if cmd == "sudo rm -rf /" then Sudo
    else DispatchMiddle(cmd, raw)
  }

  /** The chain continued: from `echo ` to `code `. */
  function DispatchMiddle(cmd: string, raw: string): Command {
    if StartsWith(cmd, "echo ") then Echo(Substring(raw, 5))
    else if cmd == "date" then Date
    else if cmd == "whoami" then Whoami
    else if cmd == "ls" || cmd == "dir" then ListDirectory
    else if cmd == "logout" then Logout
    else if cmd == "theme" then ThemeList
    else if StartsWith(cmd, "theme ") then ThemeSet(Param(cmd, 6))
    else if cmd == "showcase" then ShowcaseList
    else if StartsWith(cmd, "showcase ") then Showcase(Param(raw, 9))
    else if StartsWith(cmd, "open ") then Open(Param(raw, 5))
    else if StartsWith(cmd, "code ") then Code(Param(raw, 5))
    else DispatchCv(cmd, raw)
  }

  /** The chain's end: the `cv` family, then the unknown-command fallback. */
  function DispatchCv(cmd: string, raw: string): Command {
    if cmd == "cv" then CvOverview
    else if cmd == "cv education" || cmd == "cv 1" then CvShow(EducationSection)
    else if cmd == "cv experience" || cmd == "cv 2" then CvShow(ExperienceSection)
    else if cmd == "cv languages" || cmd == "cv 3" then CvShow(LanguagesSection)
    else if cmd == "cv certifications" || cmd == "cv 4" then CvShow(CertificationsSection)
    else if StartsWith(cmd, "cv ") then CvOther(Param(cmd, 3))
    else Unknown(raw)
  }

  /** A parameter: the line from a fixed offset on (nothing when it is shorter), trimmed. */
  function Param(line: string, offset: nat): string {
    Trim(Substring(line, offset))
  }

  /** The command words the first part of the chain matches exactly. */
  const FirstWords: set<string> := {
    "help", "clear", "about", "skills", "projects", "contact", "hack", "matrix", "glitch", "sudo rm -rf /"}

  /** The command words the middle part of the chain matches exactly. */
  const MiddleWords: set<string> := {"date", "whoami", "ls", "dir", "logout", "theme", "showcase"}

  /** The command words matched exactly. */
  const FixedCommands: set<string> := FirstWords + MiddleWords + {"cv"}

  /** The command words matched as prefixes (each includes its separating space). */
  const CommandPrefixes: set<string> := {"echo ", "theme ", "showcase ", "open ", "code ", "cv "}

  predicate Recognized(cmd: string) {
    cmd in FixedCommands || exists p :: p in CommandPrefixes && StartsWith(cmd, p)
  }

  /** A line is unknown exactly when its normalized form is neither a fixed command nor starts with a command prefix. */
  lemma ParseUnknownIff(raw: string)
    ensures Parse(raw).Unknown? <==> !Recognized(Normalize(raw))
  {
    DispatchUnknownIff(Normalize(raw), raw);
  }

  lemma DispatchUnknownIff(cmd: string, raw: string)
    ensures Dispatch(cmd, raw).Unknown? <==> !Recognized(cmd)
  {
    FirstUnknown(cmd, raw);
    MiddleUnknown(cmd, raw);
    CvUnknown(cmd, raw);
    PrefixedIff(cmd);
  }

  lemma FirstUnknown(cmd: string, raw: string)
    ensures Dispatch(cmd, raw).Unknown? <==> cmd !in FirstWords && DispatchMiddle(cmd, raw).Unknown?
  {
    if cmd !in FirstWords {
      assert cmd != "help" && cmd != "clear" && cmd != "about" && cmd != "skills" && cmd != "projects";
      assert cmd != "contact" && cmd != "hack" && cmd != "matrix" && cmd != "glitch" && cmd != "sudo rm -rf /";
    } else {
      assert cmd == "help" || cmd == "clear" || cmd == "about" || cmd == "skills" || cmd == "projects" ||
        cmd == "contact" || cmd == "hack" || cmd == "matrix" || cmd == "glitch" || cmd == "sudo rm -rf /";
    }
  }

  lemma MiddleUnknown(cmd: string, raw: string)
    ensures DispatchMiddle(cmd, raw).Unknown? <==>
      cmd !in MiddleWords && DispatchCv(cmd, raw).Unknown? &&
      !StartsWith(cmd, "echo ") && !StartsWith(cmd, "theme ") && !StartsWith(cmd, "showcase ") &&
      !StartsWith(cmd, "open ") && !StartsWith(cmd, "code ")
  {
    if cmd !in MiddleWords {
      assert cmd != "date" && cmd != "whoami" && cmd != "ls" && cmd != "dir";
      assert cmd != "logout" && cmd != "theme" && cmd != "showcase";
    } else {
      assert cmd == "date" || cmd == "whoami" || cmd == "ls" || cmd == "dir" ||
        cmd == "logout" || cmd == "theme" || cmd == "showcase";
    }
  }

  lemma CvUnknown(cmd: string, raw: string)
    ensures DispatchCv(cmd, raw).Unknown? <==> cmd != "cv" && !StartsWith(cmd, "cv ")
  {
    if cmd in CvSectionCommands {
      SectionsStartCv(cmd);
    }
  }

  lemma SectionsStartCv(cmd: string)
    requires cmd in CvSectionCommands
    ensures StartsWith(cmd, "cv ")
  {
  }

  /** Starting with some command prefix is starting with one of the six. */
  lemma PrefixedIff(cmd: string)
    ensures (exists p :: p in CommandPrefixes && StartsWith(cmd, p)) <==>
      StartsWith(cmd, "echo ") || StartsWith(cmd, "theme ") || StartsWith(cmd, "showcase ") ||
      StartsWith(cmd, "open ") || StartsWith(cmd, "code ") || StartsWith(cmd, "cv ")
  {
    if exists p :: p in CommandPrefixes && StartsWith(cmd, p) {
      var p :| p in CommandPrefixes && StartsWith(cmd, p);
      assert p == "echo " || p == "theme " || p == "showcase " || p == "open " || p == "code " || p == "cv ";
    } else {
      assert "echo " in CommandPrefixes && "theme " in CommandPrefixes && "showcase " in CommandPrefixes;
      assert "open " in CommandPrefixes && "code " in CommandPrefixes && "cv " in CommandPrefixes;
    }
  }

  /** A line starting with `open ` reaches the `open` branch: no earlier test matches it. */
  lemma DispatchOpen(cmd: string, raw: string)
    requires StartsWith(cmd, "open ")
    ensures Dispatch(cmd, raw) == Open(Param(raw, 5))
  {
    assert cmd[0] == 'o';
    PastFirstWords(cmd, raw);
    MiddleOpen(cmd, raw);
  }

  lemma MiddleOpen(cmd: string, raw: string)
    requires StartsWith(cmd, "open ")
    ensures DispatchMiddle(cmd, raw) == Open(Param(raw, 5))
  {
    assert cmd[0] == 'o';
    assert !StartsWith(cmd, "echo ") && !StartsWith(cmd, "theme ") && !StartsWith(cmd, "showcase ");
    assert cmd != "date" && cmd != "whoami" && cmd != "ls" && cmd != "dir";
    assert cmd != "logout" && cmd != "theme" && cmd != "showcase";
  }

  /** A `cv ` line other than the four section commands reaches the generic `cv ` branch. */
  lemma DispatchCvOther(cmd: string, raw: string)
    requires StartsWith(cmd, "cv ")
    requires cmd !in CvSectionCommands
    ensures Dispatch(cmd, raw) == CvOther(Param(cmd, 3))
  {
    assert cmd[0] == 'c' && cmd[1] == 'v';
    assert Dispatch(cmd, raw) == DispatchMiddle(cmd, raw) by { PastFirstWords(cmd, raw); }
    assert DispatchMiddle(cmd, raw) == DispatchCv(cmd, raw) by { PastMiddle(cmd, raw); }
    assert cmd != "cv" && cmd != "cv education" && cmd != "cv 1" && cmd != "cv experience" && cmd != "cv 2";
    assert cmd != "cv languages" && cmd != "cv 3" && cmd != "cv certifications" && cmd != "cv 4";
  }

  /** A line whose first two letters begin none of the first ten command words passes them. */
  lemma PastFirstWords(cmd: string, raw: string)
    requires |cmd| >= 2
    requires cmd[0] !in "hasmgp" && (cmd[0] == 'c' ==> cmd[1] != 'l' && cmd[1] != 'o')
    ensures Dispatch(cmd, raw) == DispatchMiddle(cmd, raw)
  {
    assert cmd != "help" && cmd != "clear" && cmd != "about" && cmd != "skills" && cmd != "projects";
    assert cmd != "contact" && cmd != "hack" && cmd != "matrix" && cmd != "glitch" && cmd != "sudo rm -rf /";
  }

  /** A line starting with `cv` passes the middle of the chain. */
  lemma PastMiddle(cmd: string, raw: string)
    requires |cmd| >= 2 && cmd[0] == 'c' && cmd[1] == 'v'
    ensures DispatchMiddle(cmd, raw) == DispatchCv(cmd, raw)
  {
    assert !StartsWith(cmd, "echo ") && !StartsWith(cmd, "theme ") && !StartsWith(cmd, "showcase ");
    assert !StartsWith(cmd, "open ") && !StartsWith(cmd, "code ");
    assert cmd != "date" && cmd != "whoami" && cmd != "ls" && cmd != "dir";
    assert cmd != "logout" && cmd != "theme" && cmd != "showcase";
  }

  /** The exact section commands, matched before the generic `cv ` branch. */
  const CvSectionCommands: set<string> := {
    "cv education", "cv 1", "cv experience", "cv 2", "cv languages", "cv 3", "cv certifications", "cv 4"}

  // ---------------------------------------------------------------------
  // Row helpers
  // ---------------------------------------------------------------------

  /** A row written by the animated typewriter, in its final state. */
  function Say(text: string, glitch: bool): Row {
    Row(text, Typed(glitch))
  }

  const BlankRow: Row := LineRow("")

  function EchoRow(raw: string, glitch: bool): Row {
    Say("> " + raw, glitch)
  }

  const HelpHint: string := "Type \"help\" to see available commands."

  // ---------------------------------------------------------------------
  // Fixed listings
  // ---------------------------------------------------------------------

  /** What `help` prints: the command summary. */
  function HelpRows(g: bool): seq<Row> {
    SayAll([
      "Available commands:",
      "  help     - Show this help message",
      "  about    - Show information about me",
      "  skills   - Show my technical skills",
      "  projects - List my projects",
      "  contact  - Display contact information",
      "  cv       - Show interactive resume",
      "  clear    - Clear terminal",
      "  date     - Show current date and time",
      "  whoami   - Show user name",
      "  ls/dir   - List directory contents",
      "  echo     - Echo a message",
      "  hack     - Start hacking animation",
      "  matrix   - Start Matrix rain effect",
      "  glitch   - Toggle glitch mode",
      "  theme    - Show or change terminal themes",
      "  logout   - Log out of the terminal",
      "  showcase           - List all projects",
      "  showcase [number/name] - Show details about a specific project",
      "  open [number/name]     - Open project live demo",
      "  code [number/name]     - View project source code",
      "",
      "Try to find the hidden easter eggs!"
    ], g)
  }

  /** What `ls` and `dir` print: a fixed, fictional listing. */
  function DirectoryRows(g: bool): seq<Row> {
    SayAll([
      "Directory contents:",
      "",
      "drwxr-xr-x  about.txt",
      "drwxr-xr-x  skills.md",
      "drwxr-xr-x  projects/",
      "drwxr-xr-x  contact.json",
      "drwxr-xr-x  cv/",
      "drwxr-xr-x  secrets/"
    ], g)
  }

  /** What `cv` prints: the section overview. */
  function CvOverviewRows(g: bool): seq<Row> {
    SayAll([
      "Interactive CV - Marcel Menke",
      "",
      "Verfügbare Abschnitte:",
      "  [1] cv education      - Zeigt Bildungsweg an",
      "  [2] cv experience     - Zeigt Berufserfahrung an",
      "  [3] cv languages      - Zeigt Sprachkenntnisse an",
      "  [4] cv certifications - Zeigt Zertifikate an",
      "",
      "Direktzugriff mit \"cv 1\", \"cv 2\", usw."
    ], g)
  }

  /** Typewriter rows for fixed lines. */
  function SayAll(lines: seq<string>, glitch: bool): (rows: seq<Row>)
    ensures |rows| == |lines|
    ensures forall i :: 0 <= i < |lines| ==> rows[i] == Say(lines[i], glitch)
  {
    seq(|lines|, i requires 0 <= i < |lines| => Say(lines[i], glitch))
  }

  // ---------------------------------------------------------------------
  // Profile handlers
  // ---------------------------------------------------------------------

  function AboutRows(info: PersonalInfo, g: bool): seq<Row> {
    SayAll(["Name: " + info.name, "Title: " + info.title, "Location: " + info.location, "", "Bio:", info.bio], g)
  }

  function SkillGroupRows(skills: seq<Skill>, g: bool): seq<Row>
    decreases |skills|
  {
    if |skills| == 0 then []
    else
      SayAll(["[" + skills[0].category + "]", Join(skills[0].items, ", "), ""], g)
      + SkillGroupRows(skills[1..], g)
  }

  function SkillsRows(info: PersonalInfo, g: bool): seq<Row> {
    SayAll(["Technical Skills:", ""], g) + SkillGroupRows(info.skills, g)
  }

  /** Four rows per project, numbered from `start + 1`. */
  function ProjectEntries(ps: seq<Project>, start: nat, g: bool): seq<Row>
    decreases |ps|
  {
    if |ps| == 0 then []
    else
      SayAll([
        NatToString(start + 1) + ". " + ps[0].name,
        "   " + ps[0].description,
        "   Technologies: " + Join(ps[0].tech, ", "),
        ""], g)
      + ProjectEntries(ps[1..], start + 1, g)
  }

  function ProjectsRows(ps: seq<Project>, g: bool): seq<Row> {
    SayAll(["Projects:", ""], g) + ProjectEntries(ps, 0, g)
      + [Say("For more details, type: showcase [number/name]", g)]
  }

  function ContactRows(c: Contact, g: bool): seq<Row> {
    SayAll(["Contact Information:", "", "Email: " + c.email, "GitHub: " + c.github, "LinkedIn: " + c.linkedin], g)
  }

  // ---------------------------------------------------------------------
  // Effects
  // ---------------------------------------------------------------------

  /** `hack`: glitch-flagged typewriter rows, the random lines, and a static glitch-styled closing row. */
  function HackRows(env: Environment): seq<Row> {
    [Say("INITIATING HACK SEQUENCE...", true)]
      + SayAll(env.hexLines, true)
      + [Row("HACK COMPLETE. ACCESS GRANTED.", GlitchText)]
  }

  /** With the generated lines, `hack` writes twelve rows, all but the last glitch-flagged, the middle ten hexadecimal. */
  lemma HackRowsShape(env: Environment)
    requires ValidEnvironment(env)
    ensures var rows := HackRows(env);
      && |rows| == HackLineCount + 2
      && (forall i :: 0 <= i < |rows| - 1 ==> rows[i].style == Typed(true))
      && (forall i :: 1 <= i <= HackLineCount ==> HexLineShape(rows[i].text))
      && rows[|rows| - 1].style == GlitchText
  {
    var rows := HackRows(env);
    var mid := SayAll(env.hexLines, true);
    assert rows == [Say("INITIATING HACK SEQUENCE...", true)] + mid + [Row("HACK COMPLETE. ACCESS GRANTED.", GlitchText)];
    forall i | 1 <= i <= HackLineCount ensures rows[i] == mid[i - 1] {
    }
  }

  function MatrixRows(env: Environment, g: bool): seq<Row> {
    SayAll(["Initiating Matrix rain sequence...", ""], g)
      + seq(|env.matrixLines|, i requires 0 <= i < |env.matrixLines| => Row(env.matrixLines[i], MatrixText))
      + SayAll(["", "Matrix rain sequence complete."], g)
  }

  /** `toggleGlitchMode`: the confirmation row reflects the new flag; the "disabled" row is written without flicker. */
  function GlitchToggleRows(enabled: bool): seq<Row> {
    if enabled then [Row("Glitch mode enabled. System unstable.", GlitchText)]
    else [Say("Glitch mode disabled. System stabilized.", false)]
  }

  // ---------------------------------------------------------------------
  // Themes
  // ---------------------------------------------------------------------

  function ThemeListRows(current: Themes.Theme, g: bool): seq<Row> {
    var ts := Themes.GetThemes();
    SayAll(["Available themes:", ""], g)
      + seq(|ts|, i requires 0 <= i < |ts| =>
          Say((if ts[i].name == current.name then "* " else "  ") + ts[i].name + " - " + ts[i].description, g))
      + SayAll(["", "Usage: theme [name]  - Change to specified theme"], g)
  }

  /** `themes.find`: the first theme whose name equals `name` ignoring case. */
  function FindTheme(ts: seq<Themes.Theme>, name: string): (r: Option<Themes.Theme>)
    ensures r.Some? ==> r.value in ts && SameIgnoringCase(r.value.name, name)
    ensures r.None? <==> forall i :: 0 <= i < |ts| ==> !SameIgnoringCase(ts[i].name, name)
    decreases |ts|
  {
    if |ts| == 0 then None
    else if SameIgnoringCase(ts[0].name, name) then Some(ts[0])
    else FindTheme(ts[1..], name)
  }

  /** `changeTheme`: apply the registered theme matching ignoring case, or report it missing. */
  function ChangeTheme(st: Themes.ThemeState, themeName: string, g: bool): (r: (Themes.ThemeState, seq<Row>))
    ensures Themes.Valid(st) ==> Themes.Valid(r.0)
    ensures match Themes.Lookup(Lower(themeName))
      case Some(t) => r == (Themes.SetTheme(st, t.name), [Say("Theme changed to " + t.displayName + ".", g)])
      case None => r == (st, [Say("Theme \"" + themeName + "\" not found. Type \"theme\" to see available themes.", g)])
  {
    FindThemeIsLookup(themeName);
    match FindTheme(Themes.GetThemes(), themeName)
    case Some(t) => (Themes.SetTheme(st, t.name), [Say("Theme changed to " + t.displayName + ".", g)])
    case None => (st, [Say("Theme \"" + themeName + "\" not found. Type \"theme\" to see available themes.", g)])
  }

  // ---------------------------------------------------------------------
  // Projects: showcase, open, code
  // ---------------------------------------------------------------------

  /** How a project parameter is resolved. */
  datatype Target = ByIndex(index: nat) | ByName(name: string)

  /**
   * `parseInt(param) - 1` in range selects by index; anything else (NaN,
   * zero, negative, too large) falls back to name lookup with the parameter
   * itself, so an in-range number always wins over a project so named.
   */
  function Resolve(param: string, count: nat): (t: Target)
    ensures t.ByIndex? <==> ParseInt(param).Some? && 1 <= ParseInt(param).value <= count
    ensures t.ByIndex? ==> t.index + 1 == ParseInt(param).value
    ensures t.ByName? ==> t.name == param
  {
    match ParseInt(param)
    case Some(n) => if 1 <= n <= count then ByIndex(n - 1) else ByName(param)
    case None => ByName(param)
  }

  /** The project a parameter designates, if any: by index or by case-insensitive name. */
  function LookupProject(ps: seq<Project>, param: string): Option<Project> {
    match Resolve(param, |ps|)
    case ByIndex(i) => GetProjectByIndex(ps, i)
    case ByName(q) => GetProjectByName(ps, q)
  }

  /** `findIndex` with exact name equality: the first position, or -1. */
  function IndexOfName(ps: seq<Project>, name: string): (r: int)
    ensures -1 <= r < |ps|
    ensures r >= 0 ==> ps[r].name == name && forall j :: 0 <= j < r ==> ps[j].name != name
    ensures r == -1 <==> forall j :: 0 <= j < |ps| ==> ps[j].name != name
    decreases |ps|
  {
    if |ps| == 0 then -1
    else if ps[0].name == name then 0
    else var k := IndexOfName(ps[1..], name); if k == -1 then -1 else k + 1
  }

  const HeaderWidth: nat := 60

  function BoxLine(left: char, fill: char, right: char, width: nat): (r: string)
    ensures |r| == width + 2 && r[0] == left && r[|r| - 1] == right
  {
    [left] + Repeat(fill, width) + [right]
  }

  /** A border written with `addLine` keeps its text: its first character is not whitespace. */
  lemma BorderKept(left: char, fill: char, right: char, width: nat)
    requires !IsWhitespace(left)
    ensures LineRow(BoxLine(left, fill, right, width)).text == BoxLine(left, fill, right, width)
  {
    var b := BoxLine(left, fill, right, width);
    assert !IsWhitespace(b[0]);
  }

  /**
   * The centered title row of the project box: ⌊(60-n)/2⌋ spaces before the
   * name, ⌈(60-n)/2⌉ after (`Math.floor`/`Math.ceil` of a non-negative half).
   */
  function HeaderRow(name: string): string
    requires |name| <= HeaderWidth
  {
    "║" + Spaces((HeaderWidth - |name|) / 2) + name + Spaces((HeaderWidth - |name| + 1) / 2) + "║"
  }

  /** The title row is 62 wide, framed by `║`, and the name sits centered (left padding at most one less than right). */
  lemma HeaderCentered(name: string)
    requires |name| <= HeaderWidth
    ensures var h := HeaderRow(name);
      var left := (HeaderWidth - |name|) / 2;
      var right := HeaderWidth - |name| - left;
      && |h| == HeaderWidth + 2
      && h[0] == '║' && h[|h| - 1] == '║'
      && h[1 + left .. 1 + left + |name|] == name
      && (forall i :: 1 <= i < 1 + left ==> h[i] == ' ')
      && (forall i :: 1 + left + |name| <= i < |h| - 1 ==> h[i] == ' ')
      && left <= right <= left + 1
  {
    var h := HeaderRow(name);
    var left := (HeaderWidth - |name|) / 2;
    var pre := "║" + Spaces(left);
    assert h == pre + name + Spaces((HeaderWidth - |name| + 1) / 2) + "║";
    assert h[1 + left .. 1 + left + |name|] == name;
  }

  /** `displayProjectDetails`; the "type open/code N" hints use the project's position in the list. */
  function DetailRows(ps: seq<Project>, p: Project, g: bool): seq<Row>
    requires |p.name| <= HeaderWidth
  {
    var number := NatToString(IndexOfName(ps, p.name) + 1);
    [Say("", g),
     LineRow(BoxLine('╔', '═', '╗', HeaderWidth)),
     LineRow(HeaderRow(p.name)),
     LineRow(BoxLine('╚', '═', '╝', HeaderWidth))]
    + SayAll(["", "Description:", p.description, "", "Technologies:", Join(p.tech, ", "), ""], g)
    + (if p.liveDemo != "" then
         SayAll(["Live Demo:", "  " + p.liveDemo, "Type \"open " + number + "\" to visit the live demo", ""], g)
       else [])
    + (if p.githubRepo != "" then
         SayAll(["Source Code:", "  " + p.githubRepo, "Type \"code " + number + "\" to view the source code", ""], g)
       else [])
  }

  function NumberedNames(ps: seq<Project>, indent: string, g: bool): seq<Row> {
    seq(|ps|, i requires 0 <= i < |ps| => Say(indent + NatToString(i + 1) + ". " + ps[i].name, g))
  }

  function OutOfRangeRow(ps: seq<Project>, g: bool): Row {
    Say("Project number out of range. Available: 1-" + NatToString(|ps|), g)
  }

  predicate NamesFit(ps: seq<Project>) {
    forall i :: 0 <= i < |ps| ==> |ps[i].name| <= HeaderWidth
  }

  /** `showcase` with a parameter. */
  function ShowcaseRows(ps: seq<Project>, param: string, g: bool): seq<Row>
    requires NamesFit(ps)
  {
    match Resolve(param, |ps|)
    case ByIndex(i) =>
      (match GetProjectByIndex(ps, i)
       case Some(p) => DetailRows(ps, p, g)
       case None => [OutOfRangeRow(ps, g)])
    case ByName(q) =>
      (match GetProjectByName(ps, q)
       case Some(p) => DetailRows(ps, p, g)
       case None => ProjectNotFoundRows(ps, q, g))
  }

  /** A name matching no project: the name is reported and every project listed with its number. */
  function ProjectNotFoundRows(ps: seq<Project>, q: string, g: bool): seq<Row> {
    SayAll(["Project \"" + q + "\" not found.", "Available projects:"], g) + NumberedNames(ps, "  ", g)
  }

  /** `showcase` without a parameter. */
  function ShowcaseListRows(ps: seq<Project>, g: bool): seq<Row> {
    SayAll(["Project Showcase:", ""], g) + NumberedNames(ps, "", g)
      + SayAll(["", "Type \"showcase [number]\" to view project details",
                "Type \"open [number]\" to open live demo", "Type \"code [number]\" to view source code"], g)
  }

  /** The two kinds of project link. */
  datatype LinkKind = LiveDemo | SourceCode

  function LinkOf(p: Project, kind: LinkKind): string {
    match kind
    case LiveDemo => p.liveDemo
    case SourceCode => p.githubRepo
  }

  function LinkNotFound(kind: LinkKind, what: string): string {
    match kind
    case LiveDemo => "Live demo for \"" + what + "\" not found."
    case SourceCode => "Source code for \"" + what + "\" not found."
  }

  function LinkOpening(kind: LinkKind, name: string): string {
    match kind
    case LiveDemo => "Opening " + name + " live demo..."
    case SourceCode => "Opening " + name + " source code repository..."
  }

  /**
   * `open`/`code` with a parameter: one row, and a URL opened only for a
   * resolved project whose link is non-empty. A missing link is reported
   * under the project's name when resolved by index, under the parameter
   * when resolved by name.
   */
  function OpenLink(ps: seq<Project>, param: string, kind: LinkKind, g: bool): (r: (seq<Row>, Option<string>))
    ensures |r.0| == 1
    ensures r.1.Some? <==> LookupProject(ps, param).Some? && LinkOf(LookupProject(ps, param).value, kind) != ""
    ensures r.1.Some? ==> r.1.value == LinkOf(LookupProject(ps, param).value, kind)
    ensures r.1.Some? ==> r.0[0] == Say(LinkOpening(kind, LookupProject(ps, param).value.name), g)
  {
    match Resolve(param, |ps|)
    case ByIndex(i) =>
      (match GetProjectByIndex(ps, i)
       case None => ([OutOfRangeRow(ps, g)], None)
       case Some(p) =>
         if LinkOf(p, kind) == "" then ([Say(LinkNotFound(kind, p.name), g)], None)
         else ([Say(LinkOpening(kind, p.name), g)], Some(LinkOf(p, kind))))
    case ByName(q) =>
      (match GetProjectByName(ps, q)
       case Some(p) =>
         if LinkOf(p, kind) == "" then ([Say(LinkNotFound(kind, q), g)], None)
         else ([Say(LinkOpening(kind, p.name), g)], Some(LinkOf(p, kind)))
       case None => ([Say(LinkNotFound(kind, q), g)], None))
  }

  // ---------------------------------------------------------------------
  // CV panels
  // ---------------------------------------------------------------------

  /** The interior width of the education and experience boxes. */
  const BoxWidth: nat := 58

  /** Width available to a text inside a box row (`│ ` and ` │` take four columns, two of them inside). */
  const BoxText: nat := 56

  /** Width the descriptions are wrapped to. */
  const WrapWidth: nat := 54

  /** A text row of a 58-wide box, padded to the interior width. */
  function BoxRow(content: string, g: bool): (r: Row)
    requires |content| <= BoxText
    ensures |r.text| == BoxWidth + 2
    ensures r.text[0] == '│' && r.text[|r.text| - 1] == '│'
    ensures forall k :: 0 <= k < |content| ==> r.text[2 + k] == content[k]
  {
    Say("│ " + content + Spaces(BoxText - |content|) + " │", g)
  }

  predicate LinesFit(lines: seq<string>) {
    forall i :: 0 <= i < |lines| ==> |lines[i]| <= BoxText
  }

  function BoxRows(lines: seq<string>, g: bool): (rows: seq<Row>)
    requires LinesFit(lines)
    ensures |rows| == |lines|
    ensures forall i :: 0 <= i < |rows| ==> rows[i] == BoxRow(lines[i], g)
  {
    seq(|lines|, i requires 0 <= i < |lines| => BoxRow(lines[i], g))
  }

  /** A 58-wide box around `lines`, one padded row per line, followed by a blank typewriter row. */
  function BoxPanel(lines: seq<string>, g: bool): seq<Row>
    requires LinesFit(lines)
  {
    [LineRow(BoxLine('┌', '─', '┐', BoxWidth))] + BoxRows(lines, g)
      + [LineRow(BoxLine('└', '─', '┘', BoxWidth)), Say("", g)]
  }

  /**
   * Every row of a panel but the closing blank is exactly as wide as the
   * border, and row `i + 1` shows line `i` after the `│ ` frame.
   */
  lemma BoxPanelShape(lines: seq<string>, g: bool)
    requires LinesFit(lines)
    ensures var rows := BoxPanel(lines, g);
      && |rows| == |lines| + 3
      && (forall i :: 0 <= i < |rows| - 1 ==> |rows[i].text| == BoxWidth + 2)
      && (forall i :: 0 <= i < |lines| ==> rows[i + 1] == BoxRow(lines[i], g))
  {
    var top := LineRow(BoxLine('┌', '─', '┐', BoxWidth));
    var bottom := LineRow(BoxLine('└', '─', '┘', BoxWidth));
    var body := BoxRows(lines, g);
    BordersWide();
    BoxRowsWide(lines, g);
    FramedWidths(top, body, bottom, Say("", g), BoxWidth + 2);
  }

  lemma BoxRowsWide(lines: seq<string>, g: bool)
    requires LinesFit(lines)
    ensures forall i :: 0 <= i < |lines| ==> |BoxRows(lines, g)[i].text| == BoxWidth + 2
  {
    var body := BoxRows(lines, g);
    forall i | 0 <= i < |lines| ensures |body[i].text| == BoxWidth + 2 {
      assert body[i] == BoxRow(lines[i], g);
    }
  }

  /** Both box borders keep their full width as rows. */
  lemma BordersWide()
    ensures |LineRow(BoxLine('┌', '─', '┐', BoxWidth)).text| == BoxWidth + 2
    ensures |LineRow(BoxLine('└', '─', '┘', BoxWidth)).text| == BoxWidth + 2
  {
    BorderKept('┌', '─', '┐', BoxWidth);
    BorderKept('└', '─', '┘', BoxWidth);
  }

  /** Index bookkeeping for `[top] + body + [bottom, last]`. */
  lemma FramedWidths(top: Row, body: seq<Row>, bottom: Row, last: Row, w: nat)
    requires |top.text| == w && |bottom.text| == w
    requires forall i :: 0 <= i < |body| ==> |body[i].text| == w
    ensures var rows := [top] + body + [bottom, last];
      && (forall i :: 0 <= i < |rows| - 1 ==> |rows[i].text| == w)
      && (forall i :: 0 <= i < |body| ==> rows[i + 1] == body[i])
  {
  }

  /** The education "institution (year)" text. */
  function InstitutionYear(e: Education): string {
    e.institution + " (" + e.year + ")"
  }

  /** The texts of an education panel: degree, institution and year, then the description wrapped at 54. */
  function EducationLines(e: Education): seq<string> {
    [e.degree, InstitutionYear(e)] + WrapText(e.description, WrapWidth)
  }

  predicate EducationFits(e: Education) {
    |e.degree| <= BoxText && |InstitutionYear(e)| <= BoxText && LinesFit(WrapText(e.description, WrapWidth))
  }

  lemma EducationLinesFit(e: Education)
    requires EducationFits(e)
    ensures LinesFit(EducationLines(e))
  {
    var lines := EducationLines(e);
    var wrapped := WrapText(e.description, WrapWidth);
    assert lines == [e.degree, InstitutionYear(e)] + wrapped;
    forall i | 0 <= i < |lines| ensures |lines[i]| <= BoxText {
      if i >= 2 {
        assert lines[i] == wrapped[i - 2];
      }
    }
  }

  function EducationPanel(e: Education, g: bool): seq<Row>
    requires EducationFits(e)
  {
    EducationLinesFit(e);
    BoxPanel(EducationLines(e), g)
  }

  /** The "Zeitraum" (period) text. */
  function PeriodText(period: string): string {
    "Zeitraum: " + period
  }

  /** The period row, corrected: padded like every other row of the box. */
  function PeriodRow(period: string, g: bool): Row
    requires |PeriodText(period)| <= BoxText
  {
    BoxRow(PeriodText(period), g)
  }

  /**
   * The period row as the source writes it: the padding subtracts 11 where
   * the prefix `│ Zeitraum: ` and the closing ` │` take 14 columns, one more
   * than the 13 the count leaves room for.
   */
  function PeriodRowAsWritten(period: string, g: bool): (r: Row)
    requires |period| <= BoxWidth - 11
    ensures |r.text| == BoxWidth + 3
    ensures r.text[..12] == "│ Zeitraum: " && r.text[12..12 + |period|] == period
  {
    var text := "│ Zeitraum: " + period + Spaces(BoxWidth - |period| - 11) + " │";
    assert text[12..12 + |period|] == period;
    Say(text, g)
  }

  /** The source's period row is one column wider than the box's border; the corrected row has the border's width. */
  lemma PeriodRowWidths(period: string, g: bool)
    requires |PeriodText(period)| <= BoxText
    ensures |PeriodRowAsWritten(period, g).text| == |BoxLine('┌', '─', '┐', BoxWidth)| + 1
    ensures |PeriodRow(period, g).text| == |BoxLine('┌', '─', '┐', BoxWidth)|
  {
  }

  /** The texts boxed above the period row: the position, then the company when it is non-empty. */
  function ExperienceHead(e: Experience): seq<string> {
    [e.position] + (if e.company != "" then [e.company] else [])
  }

  /** The texts boxed below the period row: the empty spacer, then the description wrapped at 54. */
  function ExperienceBody(e: Experience): seq<string> {
    [""] + WrapText(e.description, WrapWidth)
  }

  /** Every padding count of an experience panel is non-negative. */
  predicate ExperienceFits(e: Experience) {
    && |e.position| <= BoxText
    && |e.company| <= BoxText
    && |e.period| <= BoxWidth - 11
    && LinesFit(WrapText(e.description, WrapWidth))
  }

  lemma ExperienceLinesFit(e: Experience)
    requires ExperienceFits(e)
    ensures LinesFit(ExperienceHead(e)) && LinesFit(ExperienceBody(e))
  {
    var wrapped := WrapText(e.description, WrapWidth);
    var body := ExperienceBody(e);
    forall i | 0 <= i < |body| ensures |body[i]| <= BoxText {
      if i > 0 {
        assert body[i] == wrapped[i - 1];
      }
    }
  }

  /**
   * An experience panel as the source writes it: the top border, the
   * position and company rows, the period row as written, the spacer and
   * description rows, the bottom border and a blank typewriter row.
   */
  function ExperiencePanel(e: Experience, g: bool): seq<Row>
    requires ExperienceFits(e)
  {
    ExperienceLinesFit(e);
    [LineRow(BoxLine('┌', '─', '┐', BoxWidth))] + BoxRows(ExperienceHead(e), g)
      + [PeriodRowAsWritten(e.period, g)] + BoxRows(ExperienceBody(e), g)
      + [LineRow(BoxLine('└', '─', '┘', BoxWidth)), Say("", g)]
  }

  /** The empty spacer line renders as the source's `│`, 57 spaces, ` │`. */
  lemma SpacerRow(g: bool)
    ensures BoxRow("", g).text == "│" + Spaces(BoxWidth - 1) + " │"
  {
    assert BoxRow("", g).text == "│ " + Spaces(BoxText) + " │";
    assert " " + Spaces(BoxText) == Spaces(BoxWidth - 1);
  }

  /**
   * In an experience panel the period row follows the position (and the
   * company, when there is one) and is the source's row, one column wider
   * than the border; every other row but the closing blank is exactly as
   * wide as the border.
   */
  lemma ExperiencePeriodRow(e: Experience, g: bool)
    requires ExperienceFits(e)
    ensures var rows := ExperiencePanel(e, g);
      var k := if e.company != "" then 3 else 2;
      && |rows| == k + |ExperienceBody(e)| + 3
      && rows[k] == PeriodRowAsWritten(e.period, g)
      && |rows[k].text| == BoxWidth + 3
      && (forall i :: 0 <= i < |rows| - 1 && i != k ==> |rows[i].text| == BoxWidth + 2)
  {
    ExperienceLinesFit(e);
    var head := BoxRows(ExperienceHead(e), g);
    var body := BoxRows(ExperienceBody(e), g);
    BordersWide();
    BoxRowsWide(ExperienceHead(e), g);
    BoxRowsWide(ExperienceBody(e), g);
    SplicedWidths(LineRow(BoxLine('┌', '─', '┐', BoxWidth)), head, PeriodRowAsWritten(e.period, g), body,
      LineRow(BoxLine('└', '─', '┘', BoxWidth)), Say("", g), BoxWidth + 2);
  }

  /** Index bookkeeping for `[top] + head + [mid] + body + [bottom, last]`. */
  lemma SplicedWidths(top: Row, head: seq<Row>, mid: Row, body: seq<Row>, bottom: Row, last: Row, w: nat)
    requires |top.text| == w && |bottom.text| == w
    requires forall i :: 0 <= i < |head| ==> |head[i].text| == w
    requires forall i :: 0 <= i < |body| ==> |body[i].text| == w
    ensures var rows := [top] + head + [mid] + body + [bottom, last];
      && |rows| == |head| + |body| + 4
      && rows[|head| + 1] == mid
      && (forall i :: 0 <= i < |rows| - 1 && i != |head| + 1 ==> |rows[i].text| == w)
  {
    var rows := [top] + head + [mid] + body + [bottom, last];
    forall i | 0 <= i < |rows| - 1 && i != |head| + 1 ensures |rows[i].text| == w {
      if i == 0 {
      } else if i <= |head| {
        assert rows[i] == head[i - 1];
      } else if i < |head| + 2 + |body| {
        assert rows[i] == body[i - |head| - 2];
      } else {
        assert rows[i] == bottom;
      }
    }
  }

  function EducationPanels(es: seq<Education>, g: bool): seq<Row>
    requires forall i :: 0 <= i < |es| ==> EducationFits(es[i])
    decreases |es|
  {
    if |es| == 0 then [] else EducationPanel(es[0], g) + EducationPanels(es[1..], g)
  }

  function ExperiencePanels(es: seq<Experience>, g: bool): seq<Row>
    requires forall i :: 0 <= i < |es| ==> ExperienceFits(es[i])
    decreases |es|
  {
    if |es| == 0 then [] else ExperiencePanel(es[0], g) + ExperiencePanels(es[1..], g)
  }

  const LanguageBox: nat := 40
  const CertificationBox: nat := 50

  function LanguageText(l: Language): string {
    "│ " + l.name + ": " + l.level
  }

  function CertificationText(c: Certification): string {
    "│ " + c.name + " (" + c.issuer + ", " + c.year + ")"
  }

  /** A row of the language or certification box: the text padded to the box width, then ` │`. */
  function PaddedRow(text: string, width: nat, g: bool): (r: Row)
    requires |text| <= width
    ensures |r.text| == width + 2
  {
    Say(text + Spaces(width - |text|) + " │", g)
  }

  function LanguageRows(ls: seq<Language>, g: bool): seq<Row>
    requires forall i :: 0 <= i < |ls| ==> |LanguageText(ls[i])| <= LanguageBox
  {
    SayAll(["[ Sprachkenntnisse ]", ""], g)
      + [LineRow(BoxLine('┌', '─', '┐', LanguageBox))]
      + seq(|ls|, i requires 0 <= i < |ls| => PaddedRow(LanguageText(ls[i]), LanguageBox, g))
      + [LineRow(BoxLine('└', '─', '┘', LanguageBox))]
  }

  function CertificationRows(cs: seq<Certification>, g: bool): seq<Row>
    requires forall i :: 0 <= i < |cs| ==> |CertificationText(cs[i])| <= CertificationBox
  {
    SayAll(["[ Zertifikate ]", ""], g)
      + [LineRow(BoxLine('┌', '─', '┐', CertificationBox))]
      + seq(|cs|, i requires 0 <= i < |cs| => PaddedRow(CertificationText(cs[i]), CertificationBox, g))
      + [LineRow(BoxLine('└', '─', '┘', CertificationBox))]
  }

  /** Every padding count the handlers pass to `repeat` is non-negative. */
  predicate WellFormed(info: PersonalInfo) {
    && NamesFit(info.projects)
    && (forall i :: 0 <= i < |info.cv.education| ==> EducationFits(info.cv.education[i]))
    && (forall i :: 0 <= i < |info.cv.experience| ==> ExperienceFits(info.cv.experience[i]))
    && (forall i :: 0 <= i < |info.cv.languages| ==> |LanguageText(info.cv.languages[i])| <= LanguageBox)
    && (forall i :: 0 <= i < |info.cv.certifications| ==> |CertificationText(info.cv.certifications[i])| <= CertificationBox)
  }

  function CvRows(cv: CV, section: CvSection, g: bool): seq<Row>
    requires forall i :: 0 <= i < |cv.education| ==> EducationFits(cv.education[i])
    requires forall i :: 0 <= i < |cv.experience| ==> ExperienceFits(cv.experience[i])
    requires forall i :: 0 <= i < |cv.languages| ==> |LanguageText(cv.languages[i])| <= LanguageBox
    requires forall i :: 0 <= i < |cv.certifications| ==> |CertificationText(cv.certifications[i])| <= CertificationBox
  {
    match section
    case EducationSection => SayAll(["[ Bildungsweg ]", ""], g) + EducationPanels(cv.education, g)
    case ExperienceSection => SayAll(["[ Berufserfahrung ]", ""], g) + ExperiencePanels(cv.experience, g)
    case LanguagesSection => LanguageRows(cv.languages, g)
    case CertificationsSection => CertificationRows(cv.certifications, g)
  }

  const CvSubCommands: set<string> := {"1", "2", "3", "4", "education", "experience", "languages", "certifications"}

  /** `cv` followed by something other than the exact section commands: silent for a listed sub-command. */
  function CvOtherRows(sub: string, g: bool): seq<Row> {
    if sub in CvSubCommands then []
    else SayAll(["Unbekannter CV-Unterbefehl: " + sub, "Gib \"cv\" ein, um verfügbare CV-Befehle anzuzeigen."], g)
  }

  // ---------------------------------------------------------------------
  // Dispatch
  // ---------------------------------------------------------------------

  /** The rows a command writes after its echo. */
  function HandleRows(info: PersonalInfo, env: Environment, session: Session, c: Command): seq<Row>
    requires WellFormed(info)
  {
    var g := session.glitch;
    match c
    case Help => HelpRows(g)
    case Clear => []
    case About => AboutRows(info, g)
    case Skills => SkillsRows(info, g)
    case Projects => ProjectsRows(info.projects, g)
    case ContactCard => ContactRows(info.contact, g)
    case Hack => HackRows(env)
    case MatrixRain => MatrixRows(env, g)
    case ToggleGlitch => GlitchToggleRows(!g)
    case Sudo => [Row("Nice try. This terminal has advanced security features!", GlitchText)]
    case Echo(text) => [Say(text, g)]
    case Date => [Say(env.now, g)]
    case Whoami => [Say(info.name, g)]
    case ListDirectory => DirectoryRows(g)
    case Logout => [Say("Logging out...", g)]
    case ThemeList => ThemeListRows(session.theme.current, g)
    case ThemeSet(name) => ChangeTheme(session.theme, name, g).1
    case ShowcaseList => ShowcaseListRows(info.projects, g)
    case Showcase(param) => ShowcaseRows(info.projects, param, g)
    case Open(param) => OpenLink(info.projects, param, LiveDemo, g).0
    case Code(param) => OpenLink(info.projects, param, SourceCode, g).0
    case CvOverview => CvOverviewRows(g)
    case CvShow(section) => CvRows(info.cv, section, g)
    case CvOther(sub) => CvOtherRows(sub, g)
    case Unknown(raw) => [Row("Command not found: " + raw, GlitchText), Say(HelpHint, g)]
  }

  /** The session after a command: only `glitch` flips the flag, only `theme <name>` touches the theme. */
  function NextSession(session: Session, c: Command): (r: Session)
    ensures r.glitch != session.glitch <==> c == ToggleGlitch
    ensures !c.ThemeSet? ==> r.theme == session.theme
    ensures Themes.Valid(session.theme) ==> Themes.Valid(r.theme)
  {
    match c
    case ToggleGlitch => session.(glitch := !session.glitch)
    case ThemeSet(name) => session.(theme := ChangeTheme(session.theme, name, session.glitch).0)
    case _ => session
  }

  /** The URL a command hands to `window.open`: only `open` and `code` ever do. */
  function OpenedUrl(ps: seq<Project>, c: Command): (r: Option<string>)
    ensures r.Some? ==> c.Open? || c.Code?
  {
    match c
    case Open(param) => OpenLink(ps, param, LiveDemo, false).1
    case Code(param) => OpenLink(ps, param, SourceCode, false).1
    case _ => None
  }

  /**
   * `executeCommand`: blank input does nothing; otherwise the line is
   * classified and submitted.
   */
  function Execute(info: PersonalInfo, env: Environment, session: Session, screen: seq<Row>, raw: string): (r: Outcome)
    requires WellFormed(info)
    ensures IsBlank(raw) ==> r == Outcome(screen, session, None, false)
    ensures !IsBlank(raw) ==> r == Submit(info, env, session, screen, raw, Parse(raw))
  {
    if IsBlank(raw) then Outcome(screen, session, None, false)
    else Submit(info, env, session, screen, raw, Parse(raw))
  }

  /**
   * The frame around a handler's rows: echo `> raw` after the old screen
   * (or nothing, for `clear`), the rows, one closing blank row; the session
   * moves on as the command dictates.
   */
  function Respond(screen: seq<Row>, raw: string, session: Session, c: Command, rows: seq<Row>, url: Option<string>): (r: Outcome)
    requires c == Clear ==> rows == []
    ensures |r.screen| > 0 && r.screen[|r.screen| - 1] == BlankRow
    ensures c != Clear ==> r.screen == screen + [EchoRow(raw, session.glitch)] + rows + [BlankRow]
    ensures c != Clear ==>
      |r.screen| >= |screen| + 2 && r.screen[..|screen|] == screen && r.screen[|screen|] == EchoRow(raw, session.glitch)
    ensures c == Clear ==> r.screen == [BlankRow]
    ensures r.session == NextSession(session, c) && r.url == url
    ensures r.logoutScheduled <==> c == Logout
  {
    var body := if c == Clear then [] else screen + [EchoRow(raw, session.glitch)] + rows;
    assert c != Clear ==> (body + [BlankRow])[..|screen|] == screen;
    Outcome(body + [BlankRow], NextSession(session, c), url, c == Logout)
  }

  /**
   * A non-blank line `raw`, classified as `c`: echo `> raw`, run the handler
   * (which may clear the screen), close with one blank row.
   */
  function Submit(info: PersonalInfo, env: Environment, session: Session, screen: seq<Row>, raw: string, c: Command): (r: Outcome)
    requires WellFormed(info)
    ensures |r.screen| > 0 && r.screen[|r.screen| - 1] == BlankRow
    ensures c != Clear ==>
      |r.screen| >= |screen| + 2 && r.screen[..|screen|] == screen && r.screen[|screen|] == EchoRow(raw, session.glitch)
    ensures c != Clear ==> r.screen == screen + [EchoRow(raw, session.glitch)] + HandleRows(info, env, session, c) + [BlankRow]
    ensures c == Clear ==> r.screen == [BlankRow]
    ensures r.session == NextSession(session, c)
    ensures Themes.Valid(session.theme) ==> Themes.Valid(r.session.theme)
    ensures r.url == OpenedUrl(info.projects, c)
    ensures r.url.Some? ==> c.Open? || c.Code?
    ensures r.session.glitch != session.glitch <==> c == ToggleGlitch
    ensures r.logoutScheduled <==> c == Logout
  {
    Respond(screen, raw, session, c, HandleRows(info, env, session, c), OpenedUrl(info.projects, c))
  }

  // ---------------------------------------------------------------------
  // Animations
  // ---------------------------------------------------------------------

  /**
   * `addLineTypewriter`: a fresh row styled for the glitch flag is appended
   * and typed character by character; the screen ends with exactly one new
   * row, `Say(text, glitch)`, after showing every prefix of the text.
   */
  method AddLineTypewriter(out: seq<Row>, text: string, glitch: bool) returns (r: seq<Row>, frames: seq<string>)
    ensures r == out + [Say(text, glitch)]
    ensures |frames| == |text|
    ensures forall k :: 0 <= k < |text| ==> frames[k] == text[..k + 1]
  {
    var typed;
    typed, frames := TypeText(Row("", Typed(glitch)), text, glitch);
    assert "" + text == text;
    forall k | 0 <= k < |text| ensures frames[k] == text[..k + 1] {
      assert "" + text[..k + 1] == text[..k + 1];
    }
    r := out + [typed];
  }

  /** A `matrix` line: an empty row appended, then cascaded; it ends as the line in matrix style. */
  method AddMatrixLine(out: seq<Row>, text: string) returns (r: seq<Row>, frames: seq<string>)
    ensures r == out + [Row(text, MatrixText)]
    ensures |frames| == |text|
    ensures forall k :: 0 <= k < |text| ==> frames[k] == text[..k + 1]
  {
    var cascaded;
    cascaded, frames := MatrixCascade(Row("", Plain), text);
    assert "" + text == text;
    forall k | 0 <= k < |text| ensures frames[k] == text[..k + 1] {
      assert "" + text[..k + 1] == text[..k + 1];
    }
    r := out + [cascaded];
  }

  // ---------------------------------------------------------------------
  // Properties of submissions
  // ---------------------------------------------------------------------

  /** A line without surrounding whitespace or capitals is its own normalized form. */
  lemma NormalizeIdentity(s: string)
    requires |s| > 0 && !IsWhitespace(s[0]) && !IsWhitespace(s[|s| - 1])
    requires forall i :: 0 <= i < |s| ==> LowerChar(s[i]) == s[i]
    ensures Normalize(s) == s
  {
    assert TrimStart(s) == s;
    assert TrimEnd(s) == s;
  }

  /**
   * An unrecognized line echoes, reports "Command not found" with the raw
   * line in glitch style, hints at `help`, closes with a blank row, and has
   * no other effect.
   */
  lemma UnknownCommandOutput(info: PersonalInfo, env: Environment, session: Session, screen: seq<Row>, raw: string)
    requires WellFormed(info)
    ensures Submit(info, env, session, screen, raw, Unknown(raw)) == Outcome(
      screen + [EchoRow(raw, session.glitch), Row("Command not found: " + raw, GlitchText), Say(HelpHint, session.glitch), BlankRow],
      session, None, false)
  {
    UnknownRows(info, env, session, raw);
  }

  /** What an unrecognized line prints. */
  lemma UnknownRows(info: PersonalInfo, env: Environment, session: Session, raw: string)
    requires WellFormed(info)
    ensures HandleRows(info, env, session, Unknown(raw)) == [Row("Command not found: " + raw, GlitchText), Say(HelpHint, session.glitch)]
  {
  }

  /** The registered theme names are all lowercase. */
  lemma ThemeNamesLowercase()
    ensures forall i :: 0 <= i < 4 ==> Lower(Themes.GetThemes()[i].name) == Themes.GetThemes()[i].name
  {
    var ts := Themes.GetThemes();
    assert Lower("matrix") == "matrix";
    assert Lower("cyberpunk") == "cyberpunk";
    assert Lower("retro") == "retro";
    assert Lower("hacker") == "hacker";
  }

  /** Matching theme names ignoring case is the registry's exact lookup of the lowercased name. */
  lemma FindThemeIsLookup(name: string)
    ensures FindTheme(Themes.GetThemes(), name) == Themes.Lookup(Lower(name))
  {
    var ts := Themes.GetThemes();
    ThemeNamesLowercase();
    var r := FindTheme(ts, name);
    assert forall i :: 0 <= i < |ts| ==> (SameIgnoringCase(ts[i].name, name) <==> ts[i].name == Lower(name));
    match Themes.Lookup(Lower(name))
    case Some(t) =>
      var k :| 0 <= k < |ts| && ts[k] == t;
      assert SameIgnoringCase(ts[k].name, name);
      var j :| 0 <= j < |ts| && ts[j] == r.value;
      assert ts[j].name == ts[k].name;
    case None =>
  }

  /**
   * `theme <name>`: the echo, the outcome of the theme change (see
   * `ChangeTheme`: a registered name in any casing becomes the current,
   * persisted theme; anything else is reported), a blank row; no link, no
   * logout.
   */
  lemma ThemeCommandEffect(info: PersonalInfo, env: Environment, session: Session, screen: seq<Row>, raw: string, name: string)
    requires WellFormed(info)
    ensures var change := ChangeTheme(session.theme, name, session.glitch);
      Submit(info, env, session, screen, raw, ThemeSet(name))
      == Outcome(screen + [EchoRow(raw, session.glitch)] + change.1 + [BlankRow], session.(theme := change.0), None, false)
  {
    var c := ThemeSet(name);
    assert HandleRows(info, env, session, c) == ChangeTheme(session.theme, name, session.glitch).1;
  }

  /**
   * `open`: three rows (echo, one message, blank), and the URL opened is the
   * resolved project's live-demo link exactly when there is such a project
   * and that link is non-empty.
   */
  lemma OpenCommandEffect(info: PersonalInfo, env: Environment, session: Session, screen: seq<Row>, raw: string, param: string)
    requires WellFormed(info)
    ensures LinkEffect(info.projects, param, LiveDemo, screen, session, Submit(info, env, session, screen, raw, Open(param)))
  {
    OpenRows(info, env, session, param);
  }

  /** `code`: the same as `open`, with the source-code link. */
  lemma CodeCommandEffect(info: PersonalInfo, env: Environment, session: Session, screen: seq<Row>, raw: string, param: string)
    requires WellFormed(info)
    ensures LinkEffect(info.projects, param, SourceCode, screen, session, Submit(info, env, session, screen, raw, Code(param)))
  {
    CodeRows(info, env, session, param);
  }

  /** What `open` prints: the one row `OpenLink` produces. */
  lemma OpenRows(info: PersonalInfo, env: Environment, session: Session, param: string)
    requires WellFormed(info)
    ensures HandleRows(info, env, session, Open(param)) == OpenLink(info.projects, param, LiveDemo, session.glitch).0
  {
  }

  /** What `code` prints: the one row `OpenLink` produces. */
  lemma CodeRows(info: PersonalInfo, env: Environment, session: Session, param: string)
    requires WellFormed(info)
    ensures HandleRows(info, env, session, Code(param)) == OpenLink(info.projects, param, SourceCode, session.glitch).0
  {
  }

  /** What `open`/`code` promise of an outcome `r` on `screen`. */
  predicate LinkEffect(ps: seq<Project>, param: string, kind: LinkKind, screen: seq<Row>, session: Session, r: Outcome) {
    var p := LookupProject(ps, param);
    && r.url == (if p.Some? && LinkOf(p.value, kind) != "" then Some(LinkOf(p.value, kind)) else None)
    && |r.screen| == |screen| + 3
    && r.session == session && !r.logoutScheduled
  }

  /** With distinct names, the first exact occurrence of a project's name is its own position. */
  lemma IndexOfOwnName(ps: seq<Project>, i: int)
    requires DistinctNames(ps) && 0 <= i < |ps|
    ensures IndexOfName(ps, ps[i].name) == i
  {
    var r := IndexOfName(ps, ps[i].name);
    if r != i {
      assert false;
    }
  }

  /**
   * The number a project's detail view prints in its "Type open N" and
   * "Type code N" hints selects that same project when typed back.
   */
  lemma HintSelectsProject(ps: seq<Project>, i: int)
    requires DistinctNames(ps) && 0 <= i < |ps|
    ensures IndexOfName(ps, ps[i].name) + 1 >= 1
    ensures LookupProject(ps, NatToString(IndexOfName(ps, ps[i].name) + 1)) == Some(ps[i])
  {
    assert IndexOfName(ps, ps[i].name) == i by { IndexOfOwnName(ps, i); }
    LookupByNumber(ps, i);
  }

  /** The decimal number i + 1 designates project i. */
  lemma LookupByNumber(ps: seq<Project>, i: int)
    requires 0 <= i < |ps|
    ensures LookupProject(ps, NatToString(i + 1)) == Some(ps[i])
  {
    ParseIntOfNatToString(i + 1);
    assert Resolve(NatToString(i + 1), |ps|) == ByIndex(i);
  }

  /**
   * A project's number and its name (in any casing, unless the name itself
   * reads as an in-range number) show the same details and open the same
   * links.
   */
  lemma NumberAndNameAgree(ps: seq<Project>, i: int, query: string, kind: LinkKind, g: bool)
    requires NamesFit(ps) && DistinctNames(ps)
    requires 0 <= i < |ps| && SameIgnoringCase(query, ps[i].name)
    requires Resolve(query, |ps|).ByName?
    ensures ShowcaseRows(ps, NatToString(i + 1), g) == DetailRows(ps, ps[i], g)
    ensures ShowcaseRows(ps, query, g) == DetailRows(ps, ps[i], g)
    ensures OpenLink(ps, NatToString(i + 1), kind, g).1 == OpenLink(ps, query, kind, g).1
  {
    ParseIntOfNatToString(i + 1);
    NameLookupAgreesWithIndex(ps, i, query);
    assert Resolve(NatToString(i + 1), |ps|) == ByIndex(i);
    assert GetProjectByIndex(ps, i) == Some(ps[i]);
    assert LookupProject(ps, NatToString(i + 1)) == LookupProject(ps, query);
  }

  /** The literal `glitch` is the toggle. */
  lemma ParseGlitch()
    ensures Parse("glitch") == ToggleGlitch
  {
    NormalizeIdentity("glitch");
  }

  /** `glitch` toggles the flag: two in a row restore the session. */
  lemma GlitchTwice(info: PersonalInfo, env: Environment, session: Session, screen: seq<Row>)
    requires WellFormed(info)
    ensures var first := Execute(info, env, session, screen, "glitch");
      && first.session.glitch == !session.glitch
      && Execute(info, env, first.session, first.screen, "glitch").session == session
  {
    ParseGlitch();
    assert !IsBlank("glitch") by {
      assert !IsWhitespace("glitch"[0]);
    }
    var first := Execute(info, env, session, screen, "glitch");
    assert first.session == NextSession(session, ToggleGlitch);
    assert Execute(info, env, first.session, first.screen, "glitch").session == NextSession(first.session, ToggleGlitch);
  }

  /** `cv  1` (two spaces) is no section command: it falls to the sub-command check as `1`. */
  lemma ParseCvDoubleSpace()
    ensures Parse("cv  1") == CvOther("1")
  {
    var line := "cv  1";
    NormalizeIdentity(line);
    DispatchCvOther(line, line);
    assert Substring(line, 3) == line[3..];
    assert TrimStart(line[3..]) == "1";
    assert TrimEnd("1") == "1";
  }

  /**
   * A `cv` sub-command that names a section but did not match the exact
   * section commands (as `cv  1` does) prints nothing between its echo and
   * the closing blank; any other sub-command is reported.
   */
  lemma CvOtherOutput(info: PersonalInfo, env: Environment, session: Session, screen: seq<Row>, raw: string, sub: string)
    requires WellFormed(info)
    ensures var g := session.glitch;
      Submit(info, env, session, screen, raw, CvOther(sub)).screen
      == screen + [EchoRow(raw, g)]
        + (if sub in CvSubCommands then []
           else [Say("Unbekannter CV-Unterbefehl: " + sub, g), Say("Gib \"cv\" ein, um verfügbare CV-Befehle anzuzeigen.", g)])
        + [BlankRow]
  {
    assert HandleRows(info, env, session, CvOther(sub)) == CvOtherRows(sub, session.glitch);
  }


  /** Every project name starts with something other than a digit. */
  predicate NamesStartNonDigit(ps: seq<Project>) {
    forall i :: 0 <= i < |ps| ==> |ps[i].name| > 0 && !IsDigit(ps[i].name[0])
  }

  /**
   * When no project name starts with a digit, `showcase N` for a number
   * outside 1..count (0, or 99 with three projects) falls back to a name
   * lookup, finds nothing, and lists the projects: there is no out-of-range
   * message on this path.
   */
  lemma ShowcaseNumberBeyond(ps: seq<Project>, n: nat, g: bool)
    requires NamesFit(ps) && NamesStartNonDigit(ps)
    requires !(1 <= n <= |ps|)
    ensures ShowcaseRows(ps, NatToString(n), g) == ProjectNotFoundRows(ps, NatToString(n), g)
  {
    var q := NatToString(n);
    ParseIntOfNatToString(n);
    assert Resolve(q, |ps|) == ByName(q);
    forall i | 0 <= i < |ps| ensures !NameMatches(ps[i], q) {
      assert Lower(ps[i].name)[0] != Lower(q)[0];
    }
    ShowcaseNotFound(ps, q, g);
  }

  /** The shipped project names fit the header and start with letters. */
  lemma ShippedNamesShape()
    ensures NamesFit(ShippedProjects) && NamesStartNonDigit(ShippedProjects)
  {
    var ps := ShippedProjects;
    assert ps[0].name[0] == 'J' && ps[1].name[0] == 'E' && ps[2].name[0] == 'F';
  }

  /** A parameter that is no in-range number and names no project lists the projects. */
  lemma ShowcaseNotFound(ps: seq<Project>, q: string, g: bool)
    requires NamesFit(ps) && Resolve(q, |ps|).ByName? && GetProjectByName(ps, q) == None
    ensures ShowcaseRows(ps, q, g) == ProjectNotFoundRows(ps, q, g)
  {
  }

  /** Any line whose normalized form starts with `open ` is the `open` command, its parameter cut from the raw line. */
  lemma ParseOpen(raw: string)
    requires StartsWith(Normalize(raw), "open ")
    ensures Parse(raw) == Open(Param(raw, 5))
  {
    DispatchOpen(Normalize(raw), raw);
  }

  /** A line starting with `echo ` echoes the raw line from its sixth character on. */
  lemma DispatchEcho(cmd: string, raw: string)
    requires StartsWith(cmd, "echo ")
    ensures Dispatch(cmd, raw) == Echo(Substring(raw, 5))
  {
    assert cmd[0] == 'e';
    PastFirstWords(cmd, raw);
  }

  /**
   * The command word is matched on the trimmed line but the echo text is cut
   * from the raw one at a fixed offset, so leading spaces shift the cut:
   * `echo hi` echoes `hi`, and `  echo hi` echoes `o hi`.
   */
  lemma EchoCutsRawLine()
    ensures Parse("echo hi") == Echo("hi")
    ensures Parse("  echo hi") == Echo("o hi")
  {
    var line := "echo hi";
    var padded := "  echo hi";
    NormalizeIdentity(line);
    assert Normalize(padded) == line by {
      assert padded[1..] == " echo hi" && padded[1..][1..] == line;
      assert TrimStart(padded) == line;
      assert TrimEnd(line) == line;
    }
    DispatchEcho(line, line);
    DispatchEcho(line, padded);
    assert Substring(line, 5) == "hi";
    assert Substring(padded, 5) == "o hi";
  }

  /** With the shipped projects, `open 1` opens the first project's live demo. */
  lemma ShippedOpenFirst(g: bool)
    ensures OpenLink(ShippedProjects, "1", LiveDemo, g).1 == Some(ShippedProjects[0].liveDemo)
  {
    ParseIntOfNatToString(1);
    assert NatToString(1) == "1";
    assert Resolve("1", |ShippedProjects|) == ByIndex(0);
  }
}
