/**
 * The terminal component: its bounded, newest-first command history with a
 * navigation cursor, and its own inline dispatcher, an older and smaller
 * command set than the command service's that writes plain `addLine` rows.
 */
module Terminal {
  import opened Wrappers
  import opened Text
  import opened Profile
  import opened Rendering
  import Commands

  // ---------------------------------------------------------------------
  // Command history
  // ---------------------------------------------------------------------

  const HistoryLimit: nat := 50

  /** `commandHistory`, newest first, and `historyIndex`; a cursor of -1 means "not navigating". */
  datatype History = History(entries: seq<string>, cursor: int)

  const InitialHistory: History := History([], -1)

  /** What the component keeps true: at most fifty entries and a cursor in [-1, length - 1]. */
  predicate Valid(h: History) {
    |h.entries| <= HistoryLimit && -1 <= h.cursor < |h.entries|
  }

  /**
   * The history update of `handleCommand`: a non-blank command, untrimmed,
   * goes to the front, the oldest entry falls off once there are more than
   * fifty, and navigation restarts; a blank command changes nothing.
   */
  function Record(h: History, command: string): (r: History)
    ensures IsBlank(command) ==> r == h
    ensures !IsBlank(command) ==> r.cursor == -1 && |r.entries| > 0 && r.entries[0] == command
    ensures !IsBlank(command) && |h.entries| < HistoryLimit ==> r.entries == [command] + h.entries
    ensures !IsBlank(command) && |h.entries| >= HistoryLimit ==> r.entries == [command] + h.entries[..|h.entries| - 1]
    ensures Valid(h) ==> Valid(r)
  {
    if IsBlank(command) then h
    else
      var pushed := [command] + h.entries;
      History(if |pushed| > HistoryLimit then pushed[..|pushed| - 1] else pushed, -1)
  }

  datatype Direction = Up | Down

  /** The input box's value for a cursor: empty when not navigating, else that entry. */
  function Shown(h: History): string
    requires Valid(h)
  {
    if h.cursor == -1 then "" else h.entries[h.cursor]
  }

  /**
   * `navigateHistory`: with no history nothing happens (`None`: the input
   * box is left alone); otherwise "up" moves towards older entries and stops
   * at the oldest, "down" moves back and stops at -1, and the input box is
   * set from the new cursor. The entries are never touched.
   */
  function Navigate(h: History, d: Direction): (r: (History, Option<string>))
    requires Valid(h)
    ensures Valid(r.0) && r.0.entries == h.entries
    ensures |h.entries| == 0 ==> r == (h, None)
    ensures |h.entries| > 0 ==> r.1 == Some(Shown(r.0))
    ensures |h.entries| > 0 && d == Up ==>
      r.0.cursor == (if h.cursor + 1 < |h.entries| then h.cursor + 1 else |h.entries| - 1)
    ensures |h.entries| > 0 && d == Down ==> r.0.cursor == (if h.cursor > -1 then h.cursor - 1 else -1)
  {
    if |h.entries| == 0 then (h, None)
    else
      var cursor :=
        if d == Up then (if h.cursor < |h.entries| - 1 then h.cursor + 1 else h.cursor)
        else (if h.cursor > -1 then h.cursor - 1 else h.cursor);
      var moved := History(h.entries, cursor);
      (moved, Some(Shown(moved)))
  }

  /** `handleKeyDown`: the arrow keys navigate; every other key leaves history and input box alone. */
  function KeyDown(h: History, key: string): (r: (History, Option<string>))
    requires Valid(h)
    ensures Valid(r.0) && r.0.entries == h.entries
    ensures key != "ArrowUp" && key != "ArrowDown" ==> r == (h, None)
    ensures key == "ArrowUp" ==> r == Navigate(h, Up)
    ensures key == "ArrowDown" ==> r == Navigate(h, Down)
  {
    if key == "ArrowUp" then Navigate(h, Up)
    else if key == "ArrowDown" then Navigate(h, Down)
    else (h, None)
  }

  /** The first "up" after submitting a command brings back exactly that command. */
  lemma FirstUpShowsSubmission(h: History, command: string)
    requires Valid(h) && !IsBlank(command)
    ensures Navigate(Record(h, command), Up).1 == Some(command)
    ensures Navigate(Record(h, command), Up).0.cursor == 0
  {
  }

  /** "Down" undoes "up" whenever "up" moved: the cursor and the input box are restored. */
  lemma DownUndoesUp(h: History)
    requires Valid(h) && h.cursor < |h.entries| - 1
    ensures Navigate(Navigate(h, Up).0, Down) == (h, Some(Shown(h)))
  {
  }

  /** Pressing the same arrow key k times. */
  function NavigateTimes(h: History, d: Direction, k: nat): (r: History)
    requires Valid(h)
    ensures Valid(r) && r.entries == h.entries
    decreases k
  {
    if k == 0 then h else NavigateTimes(Navigate(h, d).0, d, k - 1)
  }

  /** k presses of "up" walk k entries back, stopping at the oldest one. */
  lemma {:induction false} UpTimesStopsAtOldest(h: History, k: nat)
    requires Valid(h) && |h.entries| > 0
    ensures NavigateTimes(h, Up, k).cursor ==
      (if h.cursor + k < |h.entries| then h.cursor + k else |h.entries| - 1)
    decreases k
  {
    if k > 0 {
      UpTimesStopsAtOldest(Navigate(h, Up).0, k - 1);
    }
  }

  /** k presses of "down" walk k entries forward, stopping at -1 (the empty input box). */
  lemma {:induction false} DownTimesStopsAtInput(h: History, k: nat)
    requires Valid(h) && |h.entries| > 0
    ensures NavigateTimes(h, Down, k).cursor == (if h.cursor - k > -1 then h.cursor - k else -1)
    decreases k
  {
    if k > 0 {
      DownTimesStopsAtInput(Navigate(h, Down).0, k - 1);
    }
  }

  /** The history after submitting `commands` in order, from the initial state. */
  function Replay(commands: seq<string>): (r: History)
    ensures Valid(r)
    decreases |commands|
  {
    if |commands| == 0 then InitialHistory
    else Record(Replay(commands[..|commands| - 1]), commands[|commands| - 1])
  }

  /** The non-blank commands, in submission order. */
  function NonBlank(commands: seq<string>): seq<string>
    decreases |commands|
  {
    if |commands| == 0 then []
    else if IsBlank(commands[|commands| - 1]) then NonBlank(commands[..|commands| - 1])
    else NonBlank(commands[..|commands| - 1]) + [commands[|commands| - 1]]
  }

  function Reverse<T>(s: seq<T>): (r: seq<T>)
    ensures |r| == |s|
    decreases |s|
  {
    if |s| == 0 then [] else [s[|s| - 1]] + Reverse(s[..|s| - 1])
  }

  /** The first n elements, or all of them when there are fewer. */
  function Take<T>(s: seq<T>, n: nat): (r: seq<T>)
    ensures |r| <= n && |r| <= |s| && r == s[..|r|]
    ensures |s| <= n ==> r == s
  {
    if |s| <= n then s else s[..n]
  }

  /**
   * Whatever was typed, the history holds the fifty most recent non-blank
   * commands, newest first, and the cursor is back at -1.
   */
  lemma {:induction false} ReplayKeepsNewest(commands: seq<string>)
    ensures Replay(commands).entries == Take(Reverse(NonBlank(commands)), HistoryLimit)
    ensures Replay(commands).cursor == -1
    decreases |commands|
  {
    if |commands| > 0 {
      var init := commands[..|commands| - 1];
      var c := commands[|commands| - 1];
      ReplayKeepsNewest(init);
      var e := Replay(init).entries;
      assert Replay(commands) == Record(Replay(init), c);
      if !IsBlank(c) {
        assert NonBlank(commands) == NonBlank(init) + [c];
        ReverseSnoc(NonBlank(init), c);
        TakeCons(c, Reverse(NonBlank(init)), HistoryLimit);
      } else {
        assert NonBlank(commands) == NonBlank(init);
      }
    }
  }

  lemma ReverseSnoc<T>(s: seq<T>, x: T)
    ensures Reverse(s + [x]) == [x] + Reverse(s)
  {
    assert (s + [x])[..|s|] == s;
  }

  /** Taking n from a sequence with a new head: the head, then the old take, shortened by one if it was full. */
  lemma TakeCons<T>(x: T, rs: seq<T>, n: nat)
    requires n > 0
    ensures var e := Take(rs, n);
      Take([x] + rs, n) == if |e| < n then [x] + e else [x] + e[..|e| - 1]
  {
    var e := Take(rs, n);
    if |rs| >= n {
      assert ([x] + rs)[..n] == [x] + rs[..n - 1];
    }
  }

  // ---------------------------------------------------------------------
  // The component's inline dispatcher
  // ---------------------------------------------------------------------

  /** The component's own project records: no links. */
  datatype LegacyProject = LegacyProject(name: string, description: string, tech: seq<string>)

  /** The component's own copy of the owner's data, older than the profile service's. */
  datatype LegacyInfo = LegacyInfo(
    name: string,
    title: string,
    location: string,
    bio: string,
    skills: seq<Skill>,
    projects: seq<LegacyProject>,
    contact: Contact)

  const LegacyData: LegacyInfo := LegacyInfo(
    "Marcel Menke",
    "Frontend Developer",
    "Steinfeld, Germany",
    "Specialized in creating innovative web applications using modern technologies.\nAlways looking for the next challenge in the digital realm.",
    [Skill("Frontend", ["Angular", "HTML5", "CSS3/SASS", "JavaScript/TypeScript"])],
    [ LegacyProject(
        "Join Kanban",
        "A collaborative Kanban board for project management.",
        ["HTML5", "CSS3", "Realtime Database", "JavaScript"]),
      LegacyProject(
        "Task Management System",
        "A collaborative project management tool with real-time updates.",
        ["React", "Express", "Socket.io", "PostgreSQL"]),
      LegacyProject(
        "Weather Analytics Dashboard",
        "Interactive visualization of weather data with prediction models.",
        ["Vue.js", "D3.js", "Python", "TensorFlow"]) ],
    Contact("marcel.menke1981@gmail.com", "https://github.com/Bi7hop", "www.linkedin.com/in/marcel-menke"))

  /** A submitted line as the component classifies it. */
  datatype LegacyCommand =
    | Nothing | Help | Clear | About | Skills | Projects | ContactCard | Hack | MatrixRain | Sudo
    | Echo(text: string) | Date | Whoami | ListDirectory | Unknown(raw: string)

  /**
   * Classification on the whole trimmed, lowercased line, in the source's
   * order; the echoed text is the raw line from its sixth character on.
   */
  function LegacyParse(command: string): LegacyCommand {
    LegacyDispatch(Lower(Trim(command)), command)
  }

  function LegacyDispatch(cmd: string, command: string): LegacyCommand {
    if cmd == "" then Nothing
    else if cmd == "help" then Help
    else if cmd == "clear" then Clear
    else if cmd == "about" then About
    else if cmd == "skills" then Skills
    else if cmd == "projects" then Projects
    else if cmd == "contact" then ContactCard
    else if cmd == "hack" then Hack
    else if cmd == "matrix" then MatrixRain
    else if cmd == "sudo rm -rf /" then Sudo
    else if StartsWith(cmd, "echo ") then Echo(Substring(command, 5))
    else if cmd == "date" then Date
    else if cmd == "whoami" then Whoami
    else if cmd == "ls" || cmd == "dir" then ListDirectory
    else Unknown(command)
  }

  const LegacyFixedCommands: set<string> := {
    "help", "clear", "about", "skills", "projects", "contact", "hack", "matrix",
    "sudo rm -rf /", "date", "whoami", "ls", "dir"}

  predicate LegacyRecognized(cmd: string) {
    cmd in LegacyFixedCommands || StartsWith(cmd, "echo ")
  }

  /** A line is unknown to the component exactly when it is not blank and its normalized form is no command. */
  lemma LegacyUnknownIff(command: string)
    ensures LegacyParse(command).Unknown? <==> !IsBlank(command) && !LegacyRecognized(Lower(Trim(command)))
  {
    LegacyDispatchUnknownIff(Lower(Trim(command)), command);
  }

  lemma LegacyDispatchUnknownIff(cmd: string, command: string)
    ensures LegacyDispatch(cmd, command).Unknown? <==> cmd != "" && !LegacyRecognized(cmd)
    ensures LegacyDispatch(cmd, command).Unknown? ==> LegacyDispatch(cmd, command) == Unknown(command)
  {
  }

  /** Every line the component understands, the command service understands too. */
  lemma LegacyCommandsKnownToService(cmd: string)
    requires LegacyRecognized(cmd)
    ensures Commands.Recognized(cmd)
  {
    if cmd !in LegacyFixedCommands {
      assert "echo " in Commands.CommandPrefixes && StartsWith(cmd, "echo ");
    }
  }

  /** The converse fails: `glitch` is a service command the component does not know. */
  lemma ServiceKnowsMore()
    ensures Commands.Recognized("glitch") && !LegacyRecognized("glitch")
  {
    assert "glitch" in Commands.FixedCommands;
    assert !StartsWith("glitch", "echo ") by {
      assert "glitch"[0] != "echo "[0];
    }
  }

  /** The rows `addLine` writes for each text in turn. */
  function Lines(texts: seq<string>): (r: seq<Row>)
    ensures |r| == |texts|
    ensures forall i :: 0 <= i < |texts| ==> r[i] == LineRow(texts[i])
  {
    seq(|texts|, i requires 0 <= i < |texts| => LineRow(texts[i]))
  }

  lemma LinesAppend(a: seq<string>, b: seq<string>)
    ensures Lines(a + b) == Lines(a) + Lines(b)
  {
    assert forall i :: 0 <= i < |a + b| ==> Lines(a + b)[i] == (Lines(a) + Lines(b))[i];
  }

  const HelpText: seq<string> := [
    "Available commands:",
    "  help     - Show this help message",
    "  about    - Show information about me",
    "  skills   - Show my technical skills",
    "  projects - List my projects",
    "  contact  - Display contact information",
    "  clear    - Clear terminal",
    "  date     - Show current date and time",
    "  whoami   - Show user name",
    "  ls/dir   - List directory contents",
    "  echo     - Echo a message",
    "  hack     - Start hacking animation",
    "  matrix   - Start Matrix rain effect",
    "",
    "Try to find the hidden easter eggs!"]

  const DirectoryText: seq<string> := [
    "Directory contents:",
    "",
    "drwxr-xr-x  about.txt",
    "drwxr-xr-x  skills.md",
    "drwxr-xr-x  projects/",
    "drwxr-xr-x  contact.json",
    "drwxr-xr-x  secrets/"]

  function SkillText(skills: seq<Skill>): (r: seq<string>)
    ensures |r| == 3 * |skills|
    decreases |skills|
  {
    if |skills| == 0 then []
    else ["[" + skills[0].category + "]", Join(skills[0].items, ", "), ""] + SkillText(skills[1..])
  }

  /** `showProjects`'s four lines per project, numbered from `start`. */
  function ProjectText(ps: seq<LegacyProject>, start: nat): (r: seq<string>)
    ensures |r| == 4 * |ps|
    ensures forall i :: 0 <= i < |ps| ==> r[4 * i] == NatToString(start + i) + ". " + ps[i].name
    decreases |ps|
  {
    if |ps| == 0 then []
    else
      var rest := ProjectText(ps[1..], start + 1);
      assert forall i :: 1 <= i < |ps| ==> rest[4 * (i - 1)] == NatToString(start + i) + ". " + ps[i].name;
      [ NatToString(start) + ". " + ps[0].name,
        "   " + ps[0].description,
        "   Technologies: " + Join(ps[0].tech, ", "),
        "" ] + rest
  }

  /**
   * The texts a command writes between the echo and the closing blank row.
   * `hack` and `matrix` write only their opening lines here; the rest
   * arrives later from an interval (`RunInterval`). `now` is
   * `new Date().toString()`.
   */
  function LegacyText(info: LegacyInfo, now: string, c: LegacyCommand): seq<string> {
    match c
    case Nothing => []
    case Help => HelpText
    case Clear => []
    case About =>
      ["Name: " + info.name, "Title: " + info.title, "Location: " + info.location, "", "Bio:", info.bio]
    case Skills => ["Technical Skills:", ""] + SkillText(info.skills)
    case Projects => ["Projects:", ""] + ProjectText(info.projects, 1)
    case ContactCard =>
      [ "Contact Information:", "",
        "Email: " + info.contact.email,
        "GitHub: " + info.contact.github,
        "LinkedIn: " + info.contact.linkedin ]
    case Hack => ["INITIATING HACK SEQUENCE..."]
    case MatrixRain => ["Initiating Matrix rain sequence...", ""]
    case Sudo => ["Nice try. This terminal has advanced security features!"]
    case Echo(text) => [text]
    case Date => [now]
    case Whoami => [info.name]
    case ListDirectory => DirectoryText
    case Unknown(raw) => ["Command not found: " + raw, Commands.HelpHint]
  }

  /** The component's visible state: its output rows and its history. */
  datatype TerminalState = TerminalState(screen: seq<Row>, history: History)

  /**
   * `handleCommand`: record the command, write `> command` (even for a blank
   * line), write the command's rows (`clear` wipes everything, the echo
   * included), then always one blank row. Every row is a plain `addLine` row.
   */
  function HandleCommand(info: LegacyInfo, now: string, st: TerminalState, command: string): (r: TerminalState)
    ensures r.history == Record(st.history, command)
    ensures |r.screen| > 0 && r.screen[|r.screen| - 1] == BlankLine
    ensures LegacyParse(command) != Clear ==>
      |r.screen| >= |st.screen| + 2 && r.screen[..|st.screen|] == st.screen
      && r.screen[|st.screen|] == Row("> " + command, Plain)
    ensures LegacyParse(command) != Clear ==>
      r.screen == st.screen + [Row("> " + command, Plain)] + Lines(LegacyText(info, now, LegacyParse(command))) + [BlankLine]
    ensures LegacyParse(command) == Clear ==> r.screen == [BlankLine]
    ensures IsBlank(command) ==> r.screen == st.screen + [Row("> " + command, Plain), BlankLine]
    ensures LegacyParse(command) != Clear ==> AllPlain(r.screen[|st.screen|..])
  {
    var echo := "> " + command;
    NotBlankAt(echo, 0);
    var c := LegacyParse(command);
    if IsBlank(command) then
      assert c == Nothing;
      TerminalState(Frame(st.screen, LineRow(echo), [], false), st.history)
    else
      var body := Lines(LegacyText(info, now, c));
      LinesPlain(LegacyText(info, now, c));
      TerminalState(Frame(st.screen, LineRow(echo), body, c == Clear), Record(st.history, command))
  }

  /** A text with a character that is not whitespace is kept verbatim by `addLine`. */
  lemma NotBlankAt(s: string, i: nat)
    requires i < |s| && !IsWhitespace(s[i])
    ensures LineRow(s) == Row(s, Plain)
  {
  }

  lemma Regroup<T>(s: seq<T>, a: T, b: T, c: T, d: T)
    ensures s + [a] + [b, c] + [d] == s + [a, b, c, d]
  {
  }

  /** The closing row every command ends with. */
  const BlankLine: Row := LineRow("")

  predicate AllPlain(rows: seq<Row>) {
    forall i :: 0 <= i < |rows| ==> rows[i].style == Plain
  }

  lemma LinesPlain(texts: seq<string>)
    ensures AllPlain(Lines(texts))
  {
  }

  /** The echo row, then the body, then a blank row; `clear` leaves only the blank row. */
  function Frame(screen: seq<Row>, echo: Row, body: seq<Row>, clear: bool): (r: seq<Row>)
    requires echo.style == Plain && AllPlain(body)
    ensures |r| > 0 && r[|r| - 1] == BlankLine
    ensures clear ==> r == [BlankLine]
    ensures !clear ==> r == screen + [echo] + body + [BlankLine]
    ensures clear ==> AllPlain(r)
    ensures !clear ==> AllPlain(r[|screen|..])
  {
    if clear then [BlankLine]
    else
      var written := [echo] + body + [BlankLine];
      assert (screen + written)[|screen|..] == written;
      screen + written
  }

  /** An unknown line: the echo, `Command not found` with the raw line, the help hint, a blank row. */
  lemma LegacyUnknownOutput(info: LegacyInfo, now: string, st: TerminalState, command: string)
    requires !IsBlank(command) && !LegacyRecognized(Lower(Trim(command)))
    ensures HandleCommand(info, now, st, command).screen ==
      st.screen + [ Row("> " + command, Plain), Row("Command not found: " + command, Plain),
                    Row(Commands.HelpHint, Plain), BlankLine ]
  {
    LegacyUnknownIff(command);
    LegacyDispatchUnknownIff(Lower(Trim(command)), command);
    assert LegacyParse(command) == Unknown(command);
    var echoRow := Row("> " + command, Plain);
    var body := Lines(LegacyText(info, now, Unknown(command)));
    UnknownBody(info, now, command);
    assert HandleCommand(info, now, st, command).screen == st.screen + [echoRow] + body + [BlankLine];
    Regroup(st.screen, echoRow, body[0], body[1], BlankLine);
  }

  lemma UnknownBody(info: LegacyInfo, now: string, command: string)
    ensures Lines(LegacyText(info, now, Unknown(command))) ==
      [Row("Command not found: " + command, Plain), Row(Commands.HelpHint, Plain)]
  {
    var notFound := "Command not found: " + command;
    assert LegacyText(info, now, Unknown(command)) == [notFound, Commands.HelpHint];
    NotBlankAt(notFound, 0);
    NotBlankAt(Commands.HelpHint, 0);
    LinesPair(notFound, Commands.HelpHint);
  }

  lemma LinesPair(a: string, b: string)
    requires LineRow(a) == Row(a, Plain) && LineRow(b) == Row(b, Plain)
    ensures Lines([a, b]) == [Row(a, Plain), Row(b, Plain)]
  {
  }

  /**
   * The tail of `hack` and `matrix`: an interval that writes one generated
   * line per tick and, at the last of `total` ticks, stops and writes a
   * blank row, the closing message and another blank row. The generated
   * lines (25 hexadecimal lines for `hack`, 15 matrix lines for `matrix`)
   * are inputs.
   */
  method RunInterval(out: seq<Row>, total: nat, generated: seq<string>, closing: string) returns (r: seq<Row>, ticks: nat)
    requires total > 0 && |generated| == total
    ensures ticks == total
    ensures r == out + Lines(generated + ["", closing, ""])
  {
    r := out;
    var count := 0;
    var stopped := false;
    while !stopped
      invariant 0 <= count <= total
      invariant stopped <==> count == total
      invariant !stopped ==> r == out + Lines(generated[..count])
      invariant stopped ==> r == out + Lines(generated + ["", closing, ""])
      decreases total - count
    {
      LinesGrow(out, generated, count);
      r := AddLine(r, generated[count]);
      count := count + 1;
      if count >= total {
        LinesClose(out, generated, closing);
        r := r + Lines(["", closing, ""]);
        stopped := true;
      }
    }
    ticks := count;
  }

  /** `startHackingAnimation`'s interval: how many lines it writes, and its closing message. */
  const HackIntervalLines: nat := 25
  const HackClosing: string := "HACK COMPLETE. ACCESS GRANTED."

  /** `startMatrixRain`'s interval: how many lines it writes, and its closing message. */
  const MatrixIntervalLines: nat := 15
  const MatrixClosing: string := "Matrix rain sequence complete."

  /** The closing three rows of an interval: a blank row, the message verbatim, a blank row. */
  lemma ClosingRows(closing: string)
    requires |closing| > 0 && !IsWhitespace(closing[0])
    ensures Lines(["", closing, ""]) == [BlankLine, Row(closing, Plain), BlankLine]
  {
    NotBlankAt(closing, 0);
  }

  /**
   * The `hack` interval: 25 ticks, each writing one generated line, then a
   * blank row, `HACK COMPLETE. ACCESS GRANTED.` and a blank row.
   */
  method RunHackInterval(out: seq<Row>, generated: seq<string>) returns (r: seq<Row>, ticks: nat)
    requires |generated| == HackIntervalLines
    ensures ticks == 25
    ensures |r| == |out| + 28 && r[..|out|] == out
    ensures r == out + Lines(generated) + [BlankLine, Row("HACK COMPLETE. ACCESS GRANTED.", Plain), BlankLine]
  {
    r, ticks := RunInterval(out, HackIntervalLines, generated, HackClosing);
    LinesAppend(generated, ["", HackClosing, ""]);
    ClosingRows(HackClosing);
  }

  /**
   * The `matrix` interval: 15 ticks, each writing one generated line, then
   * a blank row, `Matrix rain sequence complete.` and a blank row.
   */
  method RunMatrixInterval(out: seq<Row>, generated: seq<string>) returns (r: seq<Row>, ticks: nat)
    requires |generated| == MatrixIntervalLines
    ensures ticks == 15
    ensures |r| == |out| + 18 && r[..|out|] == out
    ensures r == out + Lines(generated) + [BlankLine, Row("Matrix rain sequence complete.", Plain), BlankLine]
  {
    r, ticks := RunInterval(out, MatrixIntervalLines, generated, MatrixClosing);
    LinesAppend(generated, ["", MatrixClosing, ""]);
    ClosingRows(MatrixClosing);
  }

  lemma LinesGrow(out: seq<Row>, texts: seq<string>, k: nat)
    requires k < |texts|
    ensures out + Lines(texts[..k]) + [LineRow(texts[k])] == out + Lines(texts[..k + 1])
  {
    assert texts[..k + 1] == texts[..k] + [texts[k]];
    LinesAppend(texts[..k], [texts[k]]);
  }

  lemma LinesClose(out: seq<Row>, texts: seq<string>, closing: string)
    ensures out + Lines(texts[..|texts|]) + Lines(["", closing, ""]) == out + Lines(texts + ["", closing, ""])
  {
    assert texts[..|texts|] == texts;
    LinesAppend(texts, ["", closing, ""]);
  }

  /** The banner's figure, one string per text line. */
  const ArtRows: seq<string> := [
    " __  __       _        _      ",
    "|  \\/  | __ _| |_ _ __(_)_  __",
    "| |\\/| |/ _` | __| '__| \\ \\/ /",
    "| |  | | (_| | |_| |  | |>  < ",
    "|_|  |_|\\__,_|\\__|_|  |_/_/\\_\\",
    "                               "
  ]

  /** The banner: the figure between line breaks, as the template literal holds it. */
  const AsciiArt: string :=
    "\n" + ArtRows[0] + "\n" + ArtRows[1] + "\n" + ArtRows[2] + "\n" + ArtRows[3] + "\n" + ArtRows[4]
    + "\n" + ArtRows[5] + "\n"

  const WelcomeText: seq<string> :=
    [AsciiArt, "Matrix Terminal v1.0", Commands.HelpHint, "----------------------------------------", ""]

  /** `ngAfterViewInit`: the banner, the title, the help hint and a dashed rule as plain rows, verbatim, ending with a blank row. */
  function WelcomeScreen(): (r: seq<Row>)
    ensures |r| == |WelcomeText| == 5
    ensures r[0] == Row(AsciiArt, Plain)
    ensures r[1] == Row("Matrix Terminal v1.0", Plain)
    ensures r[2] == Row(Commands.HelpHint, Plain)
    ensures r[3] == Row("----------------------------------------", Plain)
    ensures r[4] == BlankLine
    ensures AllPlain(r)
  {
    WelcomeRows();
    Lines(WelcomeText)
  }

  /** None of the welcome texts but the last is blank, so each is kept verbatim. */
  lemma WelcomeRows()
    ensures Lines(WelcomeText) == [Row(AsciiArt, Plain), Row("Matrix Terminal v1.0", Plain),
      Row(Commands.HelpHint, Plain), Row("----------------------------------------", Plain), BlankLine]
  {
    KeptThenBlank(AsciiArt, "Matrix Terminal v1.0", Commands.HelpHint, "----------------------------------------");
  }

  /** Four texts that each hold a non-whitespace character, then an empty one. */
  lemma KeptThenBlank(a: string, b: string, c: string, d: string)
    requires |a| > 2 && !IsWhitespace(a[2])
    requires |b| > 0 && !IsWhitespace(b[0]) && |c| > 0 && !IsWhitespace(c[0]) && |d| > 0 && !IsWhitespace(d[0])
    ensures Lines([a, b, c, d, ""]) == [Row(a, Plain), Row(b, Plain), Row(c, Plain), Row(d, Plain), BlankLine]
  {
    NotBlankAt(a, 2);
    NotBlankAt(b, 0);
    NotBlankAt(c, 0);
    NotBlankAt(d, 0);
  }
}
