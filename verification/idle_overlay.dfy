/**
 * The idle screen: the timer bodies that feed its scrolling log and rotate
 * its info slides. `Math.random()` draws are inputs in [0, 1).
 */
module IdleOverlay {
  import opened Draws

  const LogAlphabet: string := "ABCDEFGHIJKLMNOPQRSTUVWXYZabcdefghijklmnopqrstuvwxyz0123456789"

  /** The log keeps at most this many lines before a push (eleven after it). */
  const LogKeep: nat := 10

  /** The length of a generated log line, `Math.floor(random * 30) + 20`. */
  function LogLength(draw: real): (n: nat)
    requires IsDraw(draw)
    ensures 20 <= n <= 49
  {
    Scale(draw, 30) + 20
  }

  /** One generated log line: one alphabet character per character draw. */
  function LogLine(lengthDraw: real, charDraws: seq<real>): (line: string)
    requires IsDraw(lengthDraw)
    requires |charDraws| == LogLength(lengthDraw)
    requires AllDraws(charDraws)
    ensures 20 <= |line| <= 49
    ensures forall i :: 0 <= i < |line| ==> line[i] in LogAlphabet
  {
    DrawLine(LogAlphabet, charDraws)
  }

  /** A log tick: drop the oldest line when more than ten are shown, then append the new one at the end. */
  function PushLog(lines: seq<string>, line: string): (r: seq<string>)
    ensures |lines| <= 11 ==> |r| <= 11
    ensures |r| > 0 && r[|r| - 1] == line
    ensures |lines| > LogKeep ==> r[..|r| - 1] == lines[1..]
    ensures |lines| <= LogKeep ==> r[..|r| - 1] == lines
  {
    if |lines| > LogKeep then lines[1..] + [line] else lines + [line]
  }

  /** However many ticks run, the log never shows more than eleven lines. */
  lemma {:induction false} LogStaysBounded(news: seq<string>)
    ensures |PushAll([], news)| <= 11
    decreases |news|
  {
    if |news| > 0 {
      LogStaysBounded(news[..|news| - 1]);
    }
  }

  function PushAll(lines: seq<string>, news: seq<string>): seq<string>
    decreases |news|
  {
    if |news| == 0 then lines else PushLog(PushAll(lines, news[..|news| - 1]), news[|news| - 1])
  }

  /** The slides `startRotatingInfo` installs. */
  const RotatingInfo: seq<string> := [
    "Du wurde gehackt!",
    "Hacker: Marcel Menke",
    "Junior Frontend Developer",
    "Angular, TypeScript, JavaScript",
    "CSS, SASS, HTML5",
    "Projects: Join, El Pollo Loco, Finanz Buddy",
    "Contact: marcel.menke1981@gmail.com"
  ]

  /** A rotation tick: advance, wrapping to 0 at the end of `count` slides. */
  function RotateTick(index: nat, count: nat): (r: nat)
    ensures count > 0 ==> r < count
    ensures index + 1 < count ==> r == index + 1
    ensures index + 1 >= count ==> r == 0
  {
    if index + 1 >= count then 0 else index + 1
  }

  function RotateTicks(index: nat, count: nat, ticks: nat): nat
    decreases ticks
  {
    if ticks == 0 then index else RotateTick(RotateTicks(index, count, ticks - 1), count)
  }

  /** k ticks from a slide in range land on slide (index + k) mod count. */
  lemma {:induction false} RotateTicksModulo(index: nat, count: nat, ticks: nat)
    requires index < count
    ensures RotateTicks(index, count, ticks) == (index + ticks) % count
    decreases ticks
  {
    if ticks > 0 {
      RotateTicksModulo(index, count, ticks - 1);
      var prev := (index + ticks - 1) % count;
      if prev + 1 >= count {
        assert (index + ticks) % count == 0 by {
          assert (index + ticks) == (index + ticks - 1) + 1;
          ModuloStep(index + ticks - 1, count);
        }
      } else {
        ModuloStep(index + ticks - 1, count);
      }
    }
  }

  lemma ModuloStep(a: nat, m: nat)
    requires m > 0
    ensures (a + 1) % m == if a % m + 1 == m then 0 else a % m + 1
  {
    var q, r := a / m, a % m;
    assert a == q * m + r;
    if r + 1 == m {
      assert a + 1 == (q + 1) * m + 0;
      ModuloUnique(a + 1, m, q + 1, 0);
    } else {
      assert a + 1 == q * m + (r + 1);
      ModuloUnique(a + 1, m, q, r + 1);
    }
  }

  /** The remainder is determined by any quotient-remainder decomposition. */
  lemma ModuloUnique(x: nat, m: nat, q: int, r: int)
    requires m > 0 && 0 <= r < m && x == q * m + r
    ensures x % m == r
  {
    var q', r' := x / m, x % m;
    assert (q - q') * m == r' - r;
    if q - q' >= 1 {
      assert false;
    } else if q - q' <= -1 {
      assert false;
    }
  }

  /** After seven ticks the info index is back where it started. */
  lemma RotationReturns(index: nat)
    requires index < |RotatingInfo|
    ensures RotateTicks(index, |RotatingInfo|, 7) == index
  {
    RotateTicksModulo(index, |RotatingInfo|, 7);
  }
}
