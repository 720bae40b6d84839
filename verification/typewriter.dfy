/**
 * The interval-driven typewriter: every tick appends `text.charAt(i)` to the
 * container and advances i; the loop stops once i reaches the text's length.
 * Time is abstracted to the tick count.
 */
module Typewriter {

  /** `s.charAt(i)`: the one-character string at i, or "" past the end. */
  function CharAt(s: string, i: nat): (r: string)
    ensures i < |s| ==> r == [s[i]]
    ensures i >= |s| ==> r == []
  {
    if i < |s| then [s[i]] else []
  }

  function Min(a: nat, b: nat): nat {
    if a <= b then a else b
  }

  /**
   * `typeText`: `frames[k]` is the container after tick k + 1. The loop runs
   * max(1, |text|) ticks, tick k appends character k, and the container ends
   * as prior + text (for empty text its single tick appends "").
   */
  method TypeText(prior: string, text: string) returns (content: string, frames: seq<string>)
    ensures |frames| == if |text| == 0 then 1 else |text|
    ensures forall k :: 0 <= k < |frames| ==> frames[k] == prior + text[..Min(k + 1, |text|)]
    ensures content == prior + text
  {
    var i: nat := 0;
    content := prior;
    frames := [];
    var done := false;
    while !done
      invariant i <= if |text| == 0 then 1 else |text|
      invariant done <==> i >= 1 && i >= |text|
      invariant content == prior + text[..Min(i, |text|)]
      invariant |frames| == i
      invariant forall k :: 0 <= k < i ==> frames[k] == prior + text[..Min(k + 1, |text|)]
      decreases |text| + 1 - i
    {
      content := content + CharAt(text, i);
      assert text[..Min(i + 1, |text|)] == text[..Min(i, |text|)] + CharAt(text, i);
      i := i + 1;
      frames := frames + [content];
      done := i >= |text|;
    }
    assert text[..Min(i, |text|)] == text;
  }
}
