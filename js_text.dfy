/** The JavaScript string built-ins that the print agent's layout code relies on:
    String.prototype.trim, lastIndexOf, padStart, padEnd, split, includes and
    Number.prototype.toString / toFixed(2), stated over `seq<char>`. */
module JsText {

  /** The code points String.prototype.trim removes: ECMAScript WhiteSpace
      (tab, vertical tab, form feed, space, no-break space, the zero-width
      no-break space and the Unicode "Zs" separators) and LineTerminator
      (line feed, carriage return, line and paragraph separators). */
  predicate IsWhitespace(c: char)
  {
    var n := c as int;
    n == 0x09 || n == 0x0A || n == 0x0B || n == 0x0C || n == 0x0D || n == 0x20
    || n == 0xA0 || n == 0x1680 || (0x2000 <= n <= 0x200A) || n == 0x2028
    || n == 0x2029 || n == 0x202F || n == 0x205F || n == 0x3000 || n == 0xFEFF
  }

  /** Leading whitespace removed: a suffix of `s` that starts with a
      non-whitespace character, everything cut off being whitespace. */
  function TrimStart(s: string): (r: string)
    ensures |r| <= |s| && r == s[|s| - |r|..]
    ensures r == [] || !IsWhitespace(r[0])
    ensures forall k | 0 <= k < |s| - |r| :: IsWhitespace(s[k])
  {
    if |s| > 0 && IsWhitespace(s[0]) then
      var r := TrimStart(s[1..]);
      assert r == s[|s| - |r|..];
      assert forall k | 1 <= k < |s| - |r| :: s[k] == s[1..][k - 1];
      r
    else s
  }

  /** Trailing whitespace removed: a prefix of `s` that ends with a
      non-whitespace character, everything cut off being whitespace. */
  function TrimEnd(s: string): (r: string)
    ensures |r| <= |s| && r == s[..|r|]
    ensures r == [] || !IsWhitespace(r[|r| - 1])
    ensures forall k | |r| <= k < |s| :: IsWhitespace(s[k])
  {
    if |s| > 0 && IsWhitespace(s[|s| - 1]) then TrimEnd(s[..|s| - 1]) else s
  }

  /** `r` is the window of `s` starting at `i`, and only whitespace lies
      before and after it. */
  predicate WhitespaceAround(s: string, r: string, i: int)
  {
    0 <= i <= |s| - |r| && r == s[i..i + |r|]
    && (forall k | 0 <= k < i :: IsWhitespace(s[k]))
    && (forall k | i + |r| <= k < |s| :: IsWhitespace(s[k]))
  }

  /** String.prototype.trim: a window of `s` with no whitespace at either end,
      everything cut off before and after it being whitespace. */
  function Trim(s: string): (r: string)
    ensures |r| <= |s|
    ensures r == [] || (!IsWhitespace(r[0]) && !IsWhitespace(r[|r| - 1]))
    ensures |s| > 0 && IsWhitespace(s[0]) ==> |r| < |s|
    ensures exists i :: WhitespaceAround(s, r, i)
  {
    var t := TrimStart(s);
    var u := TrimEnd(t);
    TrimWindow(s, t, u);
    u
  }

  /** A prefix of a suffix, with whitespace cut from both sides. */
  lemma TrimWindow(s: string, t: string, u: string)
    requires |t| <= |s| && t == s[|s| - |t|..]
    requires forall k | 0 <= k < |s| - |t| :: IsWhitespace(s[k])
    requires |u| <= |t| && u == t[..|u|]
    requires forall k | |u| <= k < |t| :: IsWhitespace(t[k])
    ensures WhitespaceAround(s, u, |s| - |t|)
  {
    var i := |s| - |t|;
    assert u == t[..|u|];
    assert s[i..i + |u|] == t[..|u|];
    forall k | i + |u| <= k < |s|
      ensures IsWhitespace(s[k])
    {
      assert s[k] == t[k - i];
    }
  }

  /** The non-whitespace characters of `s`, in order. */
  function NonWhitespace(s: string): (r: string)
    ensures |r| <= |s|
  {
    if s == [] then []
    else (if IsWhitespace(s[0]) then [] else [s[0]]) + NonWhitespace(s[1..])
  }

  lemma {:induction false} NonWhitespaceAppend(a: string, b: string)
    ensures NonWhitespace(a + b) == NonWhitespace(a) + NonWhitespace(b)
  {
    if a == [] {
      assert a + b == b;
    } else {
      assert (a + b)[0] == a[0];
      assert (a + b)[1..] == a[1..] + b;
      NonWhitespaceAppend(a[1..], b);
    }
  }

  lemma NewlineIsBlank()
    ensures NonWhitespace("\n") == []
  {
  }

  lemma {:induction false} NonWhitespaceOfBlank(s: string)
    requires forall k | 0 <= k < |s| :: IsWhitespace(s[k])
    ensures NonWhitespace(s) == []
  {
    if s != [] {
      NonWhitespaceOfBlank(s[1..]);
    }
  }

  lemma NonWhitespaceTrimStart(s: string)
    ensures NonWhitespace(TrimStart(s)) == NonWhitespace(s)
  {
    var t := TrimStart(s);
    var lead := s[..|s| - |t|];
    assert s == lead + t;
    NonWhitespaceOfBlank(lead);
    NonWhitespaceAppend(lead, t);
  }

  lemma NonWhitespaceTrimEnd(s: string)
    ensures NonWhitespace(TrimEnd(s)) == NonWhitespace(s)
  {
    var u := TrimEnd(s);
    var trail := s[|u|..];
    assert s == u + trail;
    NonWhitespaceOfBlank(trail);
    NonWhitespaceAppend(u, trail);
  }

  /** Trimming removes only whitespace. */
  lemma NonWhitespaceTrim(s: string)
    ensures NonWhitespace(Trim(s)) == NonWhitespace(s)
  {
    NonWhitespaceTrimStart(s);
    NonWhitespaceTrimEnd(TrimStart(s));
  }

  /** The largest index `k <= i` with `s[k] == c`, or -1. */
  function LastIndexAtOrBefore(s: string, c: char, i: int): (r: int)
    requires -1 <= i < |s|
    ensures -1 <= r <= i
    ensures r >= 0 ==> s[r] == c
    ensures forall k | r < k <= i :: s[k] != c
    decreases i + 1
  {
    if i < 0 then -1 else if s[i] == c then i else LastIndexAtOrBefore(s, c, i - 1)
  }

  /** String.prototype.lastIndexOf(c, from) for a one-character search
      string: the last occurrence at or before `from`, or -1. */
  function LastIndexOf(s: string, c: char, from: nat): (r: int)
    ensures -1 <= r < |s| && r <= from
    ensures r >= 0 ==> s[r] == c
    ensures forall k | r < k < |s| && k <= from :: s[k] != c
  {
    LastIndexAtOrBefore(s, c, if from < |s| then from else |s| - 1)
  }

  function Spaces(n: nat): (r: string)
    ensures |r| == n
    ensures forall k | 0 <= k < n :: r[k] == ' '
  {
    seq(n, _ => ' ')
  }

  function Max(a: int, b: int): int
  {
    if a < b then b else a
  }

  lemma ConcatAssoc<T>(a: seq<T>, b: seq<T>, c: seq<T>)
    ensures a + (b + c) == a + b + c
  {
  }

  /** String.prototype.padStart(width) with the default space filler: never
      truncates, otherwise fills on the left up to `width`. */
  function PadStart(s: string, width: int): (r: string)
    ensures |r| == Max(width, |s|)
    ensures r[|r| - |s|..] == s
    ensures forall k | 0 <= k < |r| - |s| :: r[k] == ' '
  {
    if width <= |s| then s else Spaces(width - |s|) + s
  }

  /** String.prototype.padEnd(width): fills on the right, never truncates. */
  function PadEnd(s: string, width: int): (r: string)
    ensures |r| == Max(width, |s|)
    ensures r[..|s|] == s
    ensures forall k | |s| <= k < |r| :: r[k] == ' '
  {
    if width <= |s| then s else s + Spaces(width - |s|)
  }

  /** String.prototype.split(sep) for a one-character separator: the pieces
      between separators, an empty piece wherever two separators meet or the
      string starts or ends with one; never an empty list. */
  function Split(s: string, sep: char): (parts: seq<string>)
    ensures |parts| >= 1
    ensures forall p | p in parts :: sep !in p && |p| <= |s|
  {
    SplitFromPieces(s, sep, 0);
    SplitFrom(s, sep, 0)
  }

  /** The pieces of `s[i..]`. */
  function SplitFrom(s: string, sep: char, i: nat): (parts: seq<string>)
    requires i <= |s|
    ensures |parts| >= 1
    decreases |s| - i
  {
    if i == |s| then [[]]
    else
      var rest := SplitFrom(s, sep, i + 1);
      if s[i] == sep then [[]] + rest else [[s[i]] + rest[0]] + rest[1..]
  }

  lemma {:induction false} SplitFromPieces(s: string, sep: char, i: nat)
    requires i <= |s|
    ensures forall p | p in SplitFrom(s, sep, i) :: sep !in p && |p| <= |s| - i
    decreases |s| - i
  {
    if i < |s| {
      SplitFromPieces(s, sep, i + 1);
    }
  }

  /** Array.prototype.join(sep), the inverse of Split. */
  function Join(parts: seq<string>, sep: char): string
  {
    if parts == [] then []
    else if |parts| == 1 then parts[0]
    else parts[0] + [sep] + Join(parts[1..], sep)
  }

  lemma JoinSplit(s: string, sep: char)
    ensures Join(Split(s, sep), sep) == s
  {
    JoinSplitFrom(s, sep, 0);
  }

  lemma {:induction false} JoinSplitFrom(s: string, sep: char, i: nat)
    requires i <= |s|
    ensures Join(SplitFrom(s, sep, i), sep) == s[i..]
    decreases |s| - i
  {
    if i < |s| {
      JoinSplitFrom(s, sep, i + 1);
      var rest := SplitFrom(s, sep, i + 1);
      assert s[i..] == [s[i]] + s[i + 1..];
      if s[i] == sep {
        assert Join([[]] + rest, sep) == [] + [sep] + Join(rest, sep);
      } else if |rest| == 1 {
        assert Join(rest, sep) == rest[0];
      } else {
        assert Join(rest, sep) == rest[0] + [sep] + Join(rest[1..], sep);
      }
    }
  }

  lemma {:induction false} SplitJoin(parts: seq<string>, sep: char)
    requires |parts| >= 1
    requires forall p | p in parts :: sep !in p
    ensures Split(Join(parts, sep), sep) == parts
  {
    SplitOfPiece(parts[0], sep, 0);
    if |parts| > 1 {
      SplitJoin(parts[1..], sep);
      SplitAroundSeparator(parts[0], Join(parts[1..], sep), sep);
    }
  }

  lemma {:induction false} SplitOfPiece(p: string, sep: char, i: nat)
    requires i <= |p| && sep !in p
    ensures SplitFrom(p, sep, i) == [p[i..]]
    decreases |p| - i
  {
    if i < |p| {
      assert p[i] in p;
      SplitOfPiece(p, sep, i + 1);
      var rest := SplitFrom(p, sep, i + 1);
      assert rest == [p[i + 1..]];
      assert SplitFrom(p, sep, i) == [[p[i]] + rest[0]] + rest[1..];
      assert [p[i]] + p[i + 1..] == p[i..];
    } else {
      assert p[i..] == [];
    }
  }

  /** Splitting `a + sep + b` splits `a` and `b` separately. */
  lemma SplitAroundSeparator(a: string, b: string, sep: char)
    ensures Split(a + [sep] + b, sep) == Split(a, sep) + Split(b, sep)
  {
    SplitAroundSeparatorFrom(a, b, sep, 0);
  }

  lemma {:induction false} SplitAroundSeparatorFrom(a: string, b: string, sep: char, i: nat)
    requires i <= |a|
    ensures SplitFrom(a + [sep] + b, sep, i) == SplitFrom(a, sep, i) + SplitFrom(b, sep, 0)
    decreases |a| - i
  {
    var s := a + [sep] + b;
    if i == |a| {
      assert s[i] == sep;
      SplitFromSuffix(s, b, sep, |a| + 1, 0);
    } else {
      assert s[i] == a[i];
      SplitAroundSeparatorFrom(a, b, sep, i + 1);
      var r, q := SplitFrom(a, sep, i + 1), SplitFrom(b, sep, 0);
      if a[i] != sep {
        assert (r + q)[0] == r[0] && (r + q)[1..] == r[1..] + q;
      }
    }
  }

  /** The pieces of a suffix depend on that suffix only. */
  lemma {:induction false} SplitFromSuffix(s: string, t: string, sep: char, offset: nat, j: nat)
    requires offset + |t| == |s| && j <= |t|
    requires forall k | 0 <= k < |t| :: s[offset + k] == t[k]
    ensures SplitFrom(s, sep, offset + j) == SplitFrom(t, sep, j)
    decreases |t| - j
  {
    if j < |t| {
      SplitFromSuffix(s, t, sep, offset, j + 1);
    }
  }

  /** The rows, each followed by `sep`: what a builder produces by appending
      `row + sep` for every row in turn. */
  function Terminated(rows: seq<string>, sep: char): (r: string)
    ensures |r| >= |rows|
  {
    if rows == [] then [] else rows[0] + [sep] + Terminated(rows[1..], sep)
  }

  /** Appending one more terminated row. */
  lemma {:induction false} TerminatedSnoc(rows: seq<string>, row: string, sep: char)
    ensures Terminated(rows + [row], sep) == Terminated(rows, sep) + row + [sep]
  {
    if rows != [] {
      assert (rows + [row])[1..] == rows[1..] + [row];
      TerminatedSnoc(rows[1..], row, sep);
    } else {
      assert [row][1..] == [];
    }
  }

  /** Splitting terminated rows gives the rows back, plus the empty piece
      after the last separator. */
  lemma {:induction false} SplitTerminated(rows: seq<string>, sep: char)
    requires forall p | p in rows :: sep !in p
    ensures Split(Terminated(rows, sep), sep) == rows + [[]]
  {
    if rows != [] {
      var head, tail := rows[0], rows[1..];
      assert head in rows;
      forall p | p in tail
        ensures sep !in p
      {
        assert p in rows;
      }
      SplitTerminated(tail, sep);
      assert rows == [head] + tail;
      SplitTerminatedStep(head, tail, sep);
    }
  }

  /** One more row in front: its pieces are the row itself, then the rest. */
  lemma SplitTerminatedStep(head: string, tail: seq<string>, sep: char)
    requires sep !in head
    requires Split(Terminated(tail, sep), sep) == tail + [[]]
    ensures Split(Terminated([head] + tail, sep), sep) == [head] + tail + [[]]
  {
    var t := Terminated(tail, sep);
    assert ([head] + tail)[1..] == tail;
    assert Terminated([head] + tail, sep) == head + [sep] + t;
    SplitAroundSeparator(head, t, sep);
    SplitOfPiece(head, sep, 0);
    assert head[0..] == head;
    ConcatAssoc([head], tail, [[]]);
  }

  /** Padding adds only blanks, so a padded string holds no new character. */
  lemma PadStartAvoids(s: string, width: int, c: char)
    requires c != ' ' && c !in s
    ensures c !in PadStart(s, width)
  {
    if width > |s| {
      var pad := Spaces(width - |s|);
      assert c !in pad;
    }
  }

  lemma PadEndAvoids(s: string, width: int, c: char)
    requires c != ' ' && c !in s
    ensures c !in PadEnd(s, width)
  {
    if width > |s| {
      var pad := Spaces(width - |s|);
      assert c !in pad;
    }
  }

  /** A formatted amount is digits and one point only. */
  lemma FormatCentsAvoids(cents: nat, c: char)
    requires c != '.' && !('0' <= c <= '9')
    ensures c !in FormatCents(cents)
  {
    var r := FormatCents(cents);
    assert r == r[..|r| - 3] + [r[|r| - 3]] + r[|r| - 2..];
  }

  predicate StartsWith(s: string, p: string)
  {
    |p| <= |s| && s[..|p|] == p
  }

  predicate EndsWith(s: string, p: string)
  {
    |p| <= |s| && s[|s| - |p|..] == p
  }

  /** String.prototype.includes(p). */
  predicate Contains(s: string, p: string)
    ensures Contains(s, p) ==> |p| <= |s|
    decreases |s|
  {
    StartsWith(s, p) || (|s| > 0 && Contains(s[1..], p))
  }

  lemma {:induction false} ContainsAt(s: string, p: string, i: nat)
    requires i + |p| <= |s| && s[i..i + |p|] == p
    ensures Contains(s, p)
  {
    if i > 0 {
      assert s[1..][i - 1..i - 1 + |p|] == s[i..i + |p|];
      ContainsAt(s[1..], p, i - 1);
    }
  }

  /** An occurrence is found at some position of `s`. */
  lemma {:induction false} ContainsWitness(s: string, p: string) returns (i: nat)
    requires Contains(s, p)
    ensures i + |p| <= |s| && s[i..i + |p|] == p
  {
    if StartsWith(s, p) {
      i := 0;
    } else {
      var j := ContainsWitness(s[1..], p);
      assert s[1..][j..j + |p|] == s[j + 1..j + 1 + |p|];
      i := j + 1;
    }
  }

  /** A character the string lacks rules out every pattern holding it. */
  lemma ContainsNeedsChar(s: string, p: string, c: char)
    requires c in p && c !in s
    ensures !Contains(s, p)
  {
    if Contains(s, p) {
      var i := ContainsWitness(s, p);
    }
  }

  /** An occurrence in a prefix is an occurrence in the whole. */
  lemma ContainsInPrefix(prefix: string, s: string, p: string, i: nat)
    requires i + |p| <= |prefix| && prefix[i..i + |p|] == p
    ensures Contains(prefix + s, p)
  {
    assert (prefix + s)[i..i + |p|] == prefix[i..i + |p|];
    ContainsAt(prefix + s, p, i);
  }

  /** Putting a prefix in front of `s` adds no occurrence of `p` when the
      prefix lacks a character of `p` and ends with a character `p` lacks:
      no occurrence can lie inside the prefix or straddle its end. */
  lemma ContainsAfterPrefix(prefix: string, s: string, p: string, c: char)
    requires |prefix| > 0 && prefix[|prefix| - 1] !in p
    requires c in p && c !in prefix
    ensures Contains(prefix + s, p) <==> Contains(s, p)
  {
    var t := prefix + s;
    if Contains(s, p) {
      var i := ContainsWitness(s, p);
      assert t[|prefix| + i..|prefix| + i + |p|] == s[i..i + |p|];
      ContainsAt(t, p, |prefix| + i);
    }
    if Contains(t, p) {
      var i := ContainsWitness(t, p);
      OccurrenceAfterPrefix(prefix, s, p, c, i);
      assert s[i - |prefix|..i - |prefix| + |p|] == p;
      ContainsAt(s, p, i - |prefix|);
    }
  }

  lemma OccurrenceAfterPrefix(prefix: string, s: string, p: string, c: char, i: nat)
    requires |prefix| > 0 && prefix[|prefix| - 1] !in p
    requires c in p && c !in prefix
    requires i + |p| <= |prefix + s| && (prefix + s)[i..i + |p|] == p
    ensures i >= |prefix|
  {
    if i < |prefix| {
      OccurrenceInPrefix(prefix, s, p, i);
      assert false;
    }
  }

  /** An occurrence that starts inside the prefix either lies in it whole or
      covers its last character. */
  lemma OccurrenceInPrefix(prefix: string, s: string, p: string, i: nat)
    requires i < |prefix|
    requires i + |p| <= |prefix + s| && (prefix + s)[i..i + |p|] == p
    ensures (forall j | 0 <= j < |p| :: p[j] in prefix) || prefix[|prefix| - 1] in p
  {
    var t := prefix + s;
    if i + |p| <= |prefix| {
      forall j | 0 <= j < |p|
        ensures p[j] in prefix
      {
        assert p[j] == t[i + j] == prefix[i + j];
      }
    } else {
      assert p[|prefix| - 1 - i] == t[|prefix| - 1] == prefix[|prefix| - 1];
    }
  }

  function DigitChar(d: nat): (c: char)
    requires d < 10
    ensures '0' <= c <= '9' && c as int - '0' as int == d
  {
    ('0' as int + d) as char
  }

  predicate IsDigits(s: string)
  {
    forall k | 0 <= k < |s| :: '0' <= s[k] <= '9'
  }

  /** Number.prototype.toString() of a non-negative integer: its decimal
      digits, most significant first, without leading zeros. */
  function NatToString(n: nat): (r: string)
    ensures |r| >= 1 && IsDigits(r)
    ensures |r| > 1 ==> r[0] != '0'
  {
    if n < 10 then [DigitChar(n)] else NatToString(n / 10) + [DigitChar(n % 10)]
  }

  /** The value of a string of decimal digits. */
  function DigitsValue(s: string): nat
    requires IsDigits(s)
  {
    if s == [] then 0
    else DigitsValue(s[..|s| - 1]) * 10 + (s[|s| - 1] as int - '0' as int)
  }

  lemma {:induction false} NatToStringRoundTrip(n: nat)
    ensures DigitsValue(NatToString(n)) == n
  {
    if n >= 10 {
      NatToStringRoundTrip(n / 10);
      var r := NatToString(n);
      assert r[..|r| - 1] == NatToString(n / 10);
    }
  }

  /** Number.prototype.toFixed(2) of `cents / 100` for a non-negative amount
      of cents: the whole part, a point, and exactly two decimals. */
  function FormatCents(cents: nat): (r: string)
    ensures |r| >= 4 && r[|r| - 3] == '.'
    ensures |r| > 4 ==> r[0] != '0'
    ensures IsDigits(r[..|r| - 3]) && IsDigits(r[|r| - 2..])
  {
    NatToString(cents / 100) + "." + [DigitChar(cents % 100 / 10), DigitChar(cents % 10)]
  }

  /** Reading a toFixed(2) string back as cents. */
  function ParseCents(s: string): nat
    requires |s| >= 4 && IsDigits(s[..|s| - 3]) && IsDigits(s[|s| - 2..])
  {
    DigitsValue(s[..|s| - 3]) * 100 + DigitsValue(s[|s| - 2..])
  }

  lemma FormatCentsRoundTrip(cents: nat)
    ensures ParseCents(FormatCents(cents)) == cents
  {
    var r := FormatCents(cents);
    var whole, decimals := NatToString(cents / 100), [DigitChar(cents % 100 / 10), DigitChar(cents % 10)];
    assert r == whole + "." + decimals;
    assert r[..|r| - 3] == whole && r[|r| - 2..] == decimals;
    NatToStringRoundTrip(cents / 100);
    TwoDigits(cents % 100 / 10, cents % 10);
  }

  lemma TwoDigits(a: nat, b: nat)
    requires a < 10 && b < 10
    ensures DigitsValue([DigitChar(a), DigitChar(b)]) == 10 * a + b
  {
    var t := [DigitChar(a), DigitChar(b)];
    assert t[..1] == [DigitChar(a)] && t[..1][..0] == [];
    assert DigitsValue(t[..1]) == a;
    assert DigitsValue(t) == DigitsValue(t[..1]) * 10 + b;
  }
}
