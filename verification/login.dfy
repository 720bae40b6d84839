/**
 * The login screen: keyboard handling for the password field, the guard and
 * phase changes of `startAuthentication`, and the bodies of its timers
 * (the cycling dots and the progress bar), each timer tick a step function.
 */
module Login {
  import opened Draws

  datatype Phase = Input | Authenticating | Success | Failed

  datatype LoginState = LoginState(
    username: string,
    password: string,
    phase: Phase,
    progress: real,
    message: string,
    dots: string)

  /** The component's field initializers. */
  const Initial: LoginState := LoginState("", "", Input, 0.0, "", "")

  /** `updateUsername`: the field takes the input element's value. */
  function UpdateUsername(st: LoginState, value: string): (r: LoginState)
    ensures r.username == value && r == st.(username := value)
  {
    st.(username := value)
  }

  /**
   * `startAuthentication`: with an empty username or password only the
   * message changes; otherwise the phase becomes authenticating with
   * progress 0 and message "Authenticating".
   */
  function StartAuthentication(st: LoginState): (r: LoginState)
    ensures st.username == "" || st.password == "" ==> r == st.(message := "Username and password required")
    ensures st.username != "" && st.password != "" ==>
      r.phase == Authenticating && r.progress == 0.0 && r.message == "Authenticating"
      && r.username == st.username && r.password == st.password && r.dots == st.dots
  {
    if st.username == "" || st.password == "" then
      st.(message := "Username and password required")
    else
      st.(phase := Authenticating, message := "Authenticating", progress := 0.0)
  }

  /**
   * `handleKeydown` for a key name: ignored outside the input phase; Enter
   * starts authentication; Backspace drops the last password character; any
   * other one-character key is appended; other named keys are ignored.
   */
  function HandleKeydown(st: LoginState, key: string): (r: LoginState)
    ensures st.phase != Input ==> r == st
    ensures st.phase == Input && key == "Backspace" ==>
      r == st.(password := if |st.password| > 0 then st.password[..|st.password| - 1] else st.password)
    ensures st.phase == Input && |key| == 1 ==> r == st.(password := st.password + key)
    ensures st.phase == Input && key != "Enter" && key != "Backspace" && |key| != 1 ==> r == st
    ensures st.phase == Input && key == "Enter" ==> r == StartAuthentication(st)
  {
    if st.phase != Input then st
    else if key == "Enter" then StartAuthentication(st)
    else if key == "Backspace" then
      if |st.password| > 0 then st.(password := st.password[..|st.password| - 1]) else st
    else if |key| == 1 then st.(password := st.password + key)
    else st
  }

  /** Enter with both fields filled leaves the input phase; with either empty it stays in input. */
  lemma EnterLeavesInputIffFilled(st: LoginState)
    requires st.phase == Input
    ensures HandleKeydown(st, "Enter").phase == Input <==> st.username == "" || st.password == ""
  {
  }

  /** The dots timer: one more dot below three, otherwise back to none. */
  function DotsTick(dots: string): (r: string)
    ensures |r| <= 3
    ensures |dots| < 3 ==> |r| == |dots| + 1
  {
    if |dots| < 3 then dots + "." else ""
  }

  /** From no dots, four ticks return to no dots after showing one, two and three. */
  lemma DotsCycle()
    ensures DotsTick("") == "." && DotsTick(".") == ".." && DotsTick("..") == "..."
    ensures DotsTick("...") == ""
  {
  }

  /**
   * The progress timer: add the random draw scaled by 15, then clamp at 100.
   * `draw` stands for `Math.random()`.
   */
  function ProgressTick(progress: real, draw: real): (r: real)
    requires IsDraw(draw)
    ensures 0.0 <= progress <= 100.0 ==> progress <= r <= 100.0
    ensures r < 100.0 ==> r == progress + draw * 15.0
  {
    var p := progress + draw * 15.0;
    if p >= 100.0 then 100.0 else p
  }

  /**
   * The answer of `login`: success shows "Access Granted"; failure shows
   * "Access Denied" in the failed phase (the dots timer stops either way).
   */
  function OnLoginResult(st: LoginState, success: bool): (r: LoginState)
    ensures success ==> r.phase == Success && r.message == "Access Granted"
    ensures !success ==> r.phase == Failed && r.message == "Access Denied"
    ensures r.password == st.password && r.username == st.username
  {
    if success then st.(phase := Success, message := "Access Granted")
    else st.(phase := Failed, message := "Access Denied")
  }

  /** Two seconds after a failure: back to input with password and message cleared. */
  function FailureTimeout(st: LoginState): (r: LoginState)
    ensures r.phase == Input && r.password == "" && r.message == ""
    ensures r.username == st.username
  {
    st.(phase := Input, password := "", message := "")
  }

  /** After a failed attempt the user can type again: keys reach the password field. */
  lemma FailureReturnsToInput(st: LoginState, key: string)
    requires |key| == 1
    ensures HandleKeydown(FailureTimeout(OnLoginResult(st, false)), key).password == key
  {
  }

  const HexDigits: string := "0123456789ABCDEF"

  /** `getRandomHexLine`: a drawn length in [20, 49], then one upper-case hexadecimal digit per draw. */
  function RandomHexLine(lengthDraw: real, charDraws: seq<real>): (line: string)
    requires IsDraw(lengthDraw)
    requires |charDraws| == Scale(lengthDraw, 30) + 20
    requires AllDraws(charDraws)
    ensures 20 <= |line| <= 49
    ensures forall i :: 0 <= i < |line| ==> line[i] in HexDigits
  {
    DrawLine(HexDigits, charDraws)
  }
}
