/** The `wrapText(text, maxLength)` helper that both document builders of the
    print agent define (backend/local-client/local-client.js:174-190 and, the
    same code again, 398-411). */
module Wrap {
  import opened JsText

  /** Where one pass of the loop cuts `text`: the last space at or before
      `maxLength`, or `maxLength` itself when there is none. */
  function BreakIndex(text: string, maxLength: nat): (b: nat)
    requires |text| > maxLength
    ensures b <= maxLength
    ensures (text[b] == ' ' && forall k | b < k <= maxLength :: text[k] != ' ')
         || (b == maxLength && forall k | 0 <= k <= maxLength :: text[k] != ' ')
  {
    var lastSpaceIndex := LastIndexOf(text, ' ', maxLength);
    if lastSpaceIndex == -1 then maxLength else lastSpaceIndex
  }

  /** One pass of the loop strictly shortens the text still to wrap. */
  lemma RestShrinks(text: string, maxLength: nat)
    requires maxLength >= 1 && |text| > maxLength
    ensures |Trim(text[BreakIndex(text, maxLength)..])| < |text|
  {
    var b := BreakIndex(text, maxLength);
    if b == 0 {
      assert text[b..][0] == ' ';
    }
  }

  /** The text wrapText returns: while the text is longer than `maxLength`,
      emit its trimmed head up to the break and a newline, and go on with the
      trimmed rest; the last, short enough rest ends the result. */
  function Wrapped(text: string, maxLength: nat): (r: string)
    requires maxLength >= 1
    ensures |text| <= maxLength ==> r == text
    decreases |text|
  {
    if |text| <= maxLength then text
    else
      var b := BreakIndex(text, maxLength);
      RestShrinks(text, maxLength);
      Trim(text[..b]) + "\n" + Wrapped(Trim(text[b..]), maxLength)
  }

  /** wrapText, the loop as the agent runs it. */
  method WrapText(text: string, maxLength: nat) returns (wrappedText: string)
    requires maxLength >= 1
    ensures wrappedText == Wrapped(text, maxLength)
  {
    wrappedText := "";
    var remaining := text;
    assert wrappedText + Wrapped(remaining, maxLength) == Wrapped(text, maxLength);
    while |remaining| > maxLength
      invariant wrappedText + Wrapped(remaining, maxLength) == Wrapped(text, maxLength)
      decreases |remaining|
    {
      wrappedText, remaining := WrapOnce(wrappedText, remaining, maxLength);
    }
    assert Wrapped(remaining, maxLength) == remaining;
    wrappedText := wrappedText + remaining;
  }

  /** The body of the loop: cut at the break, append the trimmed head and a
      newline, and keep the trimmed rest. */
  method WrapOnce(wrappedText: string, text: string, maxLength: nat) returns (wrapped: string, rest: string)
    requires maxLength >= 1 && |text| > maxLength
    ensures |rest| < |text|
    ensures wrapped + Wrapped(rest, maxLength) == wrappedText + Wrapped(text, maxLength)
  {
    var lastSpaceIndex := BreakIndex(text, maxLength);
    var line := Trim(text[..lastSpaceIndex]);
    rest := Trim(text[lastSpaceIndex..]);
    WrapPass(wrappedText, text, maxLength, line, rest);
    wrapped := wrappedText + line + "\n";
  }

  /** One pass of the loop keeps its invariant and shortens the rest. */
  lemma WrapPass(done: string, text: string, maxLength: nat, line: string, rest: string)
    requires maxLength >= 1 && |text| > maxLength
    requires line == Trim(text[..BreakIndex(text, maxLength)])
    requires rest == Trim(text[BreakIndex(text, maxLength)..])
    ensures |rest| < |text|
    ensures done + Wrapped(text, maxLength) == (done + line + "\n") + Wrapped(rest, maxLength)
  {
    WrappedStep(done, text, maxLength);
    RestShrinks(text, maxLength);
  }

  /** One unfolding of Wrapped for a text that is still too long. */
  lemma WrappedUnfold(text: string, maxLength: nat)
    requires maxLength >= 1 && |text| > maxLength
    ensures Wrapped(text, maxLength)
         == Trim(text[..BreakIndex(text, maxLength)]) + "\n"
            + Wrapped(Trim(text[BreakIndex(text, maxLength)..]), maxLength)
  {
  }

  /** The loop invariant carried over one pass. */
  lemma WrappedStep(done: string, text: string, maxLength: nat)
    requires maxLength >= 1 && |text| > maxLength
    ensures done + Wrapped(text, maxLength)
         == (done + Trim(text[..BreakIndex(text, maxLength)]) + "\n")
            + Wrapped(Trim(text[BreakIndex(text, maxLength)..]), maxLength)
  {
    WrappedUnfold(text, maxLength);
    AppendLineAssoc(done, Trim(text[..BreakIndex(text, maxLength)]),
      Wrapped(Trim(text[BreakIndex(text, maxLength)..]), maxLength));
  }

  lemma AppendLineAssoc(done: string, line: string, tail: string)
    ensures done + (line + "\n" + tail) == (done + line + "\n") + tail
  {
  }

  /** Wrapping only splits and trims: the non-whitespace characters of the
      result are those of the input, in the same order. */
  lemma {:induction false} WrappedKeepsNonWhitespace(text: string, maxLength: nat)
    requires maxLength >= 1
    ensures NonWhitespace(Wrapped(text, maxLength)) == NonWhitespace(text)
    decreases |text|
  {
    if |text| > maxLength {
      var b := BreakIndex(text, maxLength);
      WrappedUnfold(text, maxLength);
      RestShrinks(text, maxLength);
      WrappedKeepsNonWhitespace(Trim(text[b..]), maxLength);
      NewlineIsBlank();
      KeepsNonWhitespaceStep(text[..b], "\n", text[b..], Wrapped(Trim(text[b..]), maxLength));
      SplitAt(text, b);
    }
  }

  /** One line cut off: trimming the head and the rest and putting a blank
      separator between them loses no non-whitespace character. */
  lemma KeepsNonWhitespaceStep(head: string, sep: string, rest: string, tail: string)
    requires NonWhitespace(sep) == []
    requires NonWhitespace(tail) == NonWhitespace(Trim(rest))
    ensures NonWhitespace(Trim(head) + sep + tail) == NonWhitespace(head + rest)
  {
    NonWhitespaceAppend(Trim(head) + sep, tail);
    NonWhitespaceAppend(Trim(head), sep);
    NonWhitespaceTrim(head);
    NonWhitespaceTrim(rest);
    NonWhitespaceAppend(head, rest);
  }

  lemma SplitAt(s: string, b: nat)
    requires b <= |s|
    ensures s == s[..b] + s[b..]
  {
  }

  /** Every line of the result, as `split("\n")` cuts it, is at most
      `maxLength` long. */
  lemma {:induction false} WrappedLinesFit(text: string, maxLength: nat)
    requires maxLength >= 1
    ensures forall line | line in Split(Wrapped(text, maxLength), '\n') :: |line| <= maxLength
    decreases |text|
  {
    if |text| > maxLength {
      var b := BreakIndex(text, maxLength);
      var head, tail := Trim(text[..b]), Wrapped(Trim(text[b..]), maxLength);
      RestShrinks(text, maxLength);
      WrappedLinesFit(Trim(text[b..]), maxLength);
      SplitAroundSeparator(head, tail, '\n');
      assert Wrapped(text, maxLength) == head + ['\n'] + tail;
    }
  }

  /** Why the helper needs a positive width: with `maxLength` 0, a text that
      neither starts nor ends with whitespace breaks at 0 and its rest, once
      trimmed, is the whole text again, so the loop never ends. */
  lemma ZeroWidthMakesNoProgress(text: string)
    requires |text| > 0 && !IsWhitespace(text[0]) && !IsWhitespace(text[|text| - 1])
    ensures BreakIndex(text, 0) == 0
    ensures Trim(text[BreakIndex(text, 0)..]) == text
  {
    assert text[0] != ' ';
    assert TrimStart(text) == text;
    assert text[0..] == text;
  }
}
