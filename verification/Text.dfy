/** Decimal text and splitting, as the standard library of the source language defines them. */
module Text {
  import opened Core

  predicate IsDigit(c: char) {
    '0' <= c <= '9'
  }

  predicate AllDigits(s: string) {
    forall k :: 0 <= k < |s| ==> IsDigit(s[k])
  }

  function DigitValue(c: char): nat
    requires IsDigit(c)
  {
    c as int - '0' as int
  }

  function DigitChar(d: nat): (c: char)
    requires d < 10
    ensures IsDigit(c) && DigitValue(c) == d
  {
    ('0' as int + d) as char
  }

  /** The number a string of digits spells; leading zeros count for nothing. */
  function Value(s: string): nat
    requires AllDigits(s)
  {
    if |s| == 0 then 0 else 10 * Value(s[..|s| - 1]) + DigitValue(s[|s| - 1])
  }

  /** The shortest digits of a number. */
  function Digits(n: nat): (s: string)
    ensures |s| > 0 && AllDigits(s)
  {
    if n < 10 then [DigitChar(n)] else Digits(n / 10) + [DigitChar(n % 10)]
  }

  lemma {:induction false} ValueOfDigits(n: nat)
    ensures Value(Digits(n)) == n
  {
    if n < 10 {
      assert Value(Digits(n)[..0]) == 0;
    } else {
      ValueOfDigits(n / 10);
      assert Digits(n)[..|Digits(n)| - 1] == Digits(n / 10);
    }
  }

  /** A number followed by `n` zeros. */
  function Scale(v: nat, n: nat): nat {
    if n == 0 then v else 10 * Scale(v, n - 1)
  }

  lemma {:induction false} ScaleAdds(v: nat, w: nat, n: nat)
    ensures Scale(v + w, n) == Scale(v, n) + Scale(w, n)
  {
    if n > 0 {
      ScaleAdds(v, w, n - 1);
    }
  }

  lemma {:induction false} ScaleTwice(v: nat, m: nat, n: nat)
    ensures Scale(Scale(v, m), n) == Scale(v, m + n)
  {
    if n > 0 {
      ScaleTwice(v, m, n - 1);
    }
  }

  lemma {:induction false} ScaleKeepsOrder(v: nat, w: nat, n: nat)
    ensures Scale(v, n) < Scale(w, n) <==> v < w
    ensures Scale(v, n) == Scale(w, n) <==> v == w
  {
    if n > 0 {
      ScaleKeepsOrder(v, w, n - 1);
    }
  }

  lemma {:induction false} ValueOfConcat(a: string, b: string)
    requires AllDigits(a) && AllDigits(b)
    ensures AllDigits(a + b) && Value(a + b) == Scale(Value(a), |b|) + Value(b)
  {
    if |b| == 0 {
      assert a + b == a;
    } else {
      var init := b[..|b| - 1];
      ValueOfConcat(a, init);
      assert (a + b)[..|a + b| - 1] == a + init;
    }
  }

  lemma {:induction false} ValueIsBelow(s: string)
    requires AllDigits(s)
    ensures Value(s) < Scale(1, |s|)
  {
    if |s| > 0 {
      ValueIsBelow(s[..|s| - 1]);
    }
  }

  /** Exactly `width` digits of a number that has at most that many. */
  function Padded(n: nat, width: nat): (s: string)
    ensures |s| == width && AllDigits(s)
  {
    if width == 0 then [] else Padded(n / 10, width - 1) + [DigitChar(n % 10)]
  }

  lemma {:induction false} ValueOfPadded(n: nat, width: nat)
    requires n < Scale(1, width)
    ensures Value(Padded(n, width)) == n
  {
    if width > 0 {
      ValueOfPadded(n / 10, width - 1);
      assert Padded(n, width)[..width - 1] == Padded(n / 10, width - 1);
    }
  }

  function Zeros(n: nat): (s: string)
    ensures |s| == n && AllDigits(s)
  {
    seq(n, k => '0')
  }

  lemma {:induction false} ValueOfZeros(n: nat)
    ensures Value(Zeros(n)) == 0
  {
    if n > 0 {
      ValueOfZeros(n - 1);
      assert Zeros(n)[..n - 1] == Zeros(n - 1);
    }
  }

  // ------------------------------------------------------------ splitting

  /** The text before and after the first separator, if there is one. */
  function SplitOnce(s: string, sep: char): Option<(string, string)> {
    if |s| == 0 then None
    else if s[0] == sep then Some(("", s[1..]))
    else
      var rest := SplitOnce(s[1..], sep);
      if rest.None? then None else Some(([s[0]] + rest.value.0, rest.value.1))
  }

  predicate Free(s: string, sep: char) {
    forall k :: 0 <= k < |s| ==> s[k] != sep
  }

  lemma {:induction false} SplitOnceMeans(s: string, sep: char)
    ensures SplitOnce(s, sep).None? <==> Free(s, sep)
    ensures SplitOnce(s, sep).Some? ==>
      var (before, after) := SplitOnce(s, sep).value;
      Free(before, sep) && s == before + [sep] + after
  {
    if |s| > 0 && s[0] != sep {
      SplitOnceMeans(s[1..], sep);
      assert s == [s[0]] + s[1..];
      if SplitOnce(s[1..], sep).None? {
        assert forall k :: 0 < k < |s| ==> s[k] == s[1..][k - 1];
      } else {
        var (before, after) := SplitOnce(s[1..], sep).value;
        assert s == ([s[0]] + before) + [sep] + after;
        assert s[|[s[0]] + before|] == sep;
      }
    } else if |s| > 0 {
      assert s == "" + [sep] + s[1..];
    }
  }

  lemma {:induction false} SplitOnceAt(before: string, sep: char, after: string)
    requires Free(before, sep)
    ensures SplitOnce(before + [sep] + after, sep) == Some((before, after))
  {
    var s := before + [sep] + after;
    if |before| > 0 {
      assert s[1..] == before[1..] + [sep] + after;
      SplitOnceAt(before[1..], sep, after);
      assert [before[0]] + before[1..] == before;
    } else {
      assert s[1..] == after;
    }
  }

  /** All parts between separators; never none. */
  function Split(s: string, sep: char): (parts: seq<string>)
    ensures |parts| > 0
    decreases |s|
  {
    var cut := SplitOnce(s, sep);
    SplitOnceMeans(s, sep);
    if cut.None? then [s] else [cut.value.0] + Split(cut.value.1, sep)
  }

  function Join(parts: seq<string>, sep: char): string
    requires |parts| > 0
  {
    if |parts| == 1 then parts[0] else parts[0] + [sep] + Join(parts[1..], sep)
  }

  predicate AllFree(parts: seq<string>, sep: char) {
    forall k :: 0 <= k < |parts| ==> Free(parts[k], sep)
  }

  /** Splitting gives the one list of separator-free parts that joins back to the text. */
  lemma {:induction false} SplitIsTheParts(s: string, sep: char, parts: seq<string>)
    requires |parts| > 0
    ensures parts == Split(s, sep) <==> AllFree(parts, sep) && Join(parts, sep) == s
    decreases |s|, |parts|
  {
    SplitJoins(s, sep);
    if AllFree(parts, sep) && Join(parts, sep) == s {
      PartsSplit(parts, sep);
    }
  }

  lemma {:induction false} SplitJoins(s: string, sep: char)
    ensures AllFree(Split(s, sep), sep) && Join(Split(s, sep), sep) == s
    decreases |s|
  {
    SplitOnceMeans(s, sep);
    var cut := SplitOnce(s, sep);
    if cut.Some? {
      SplitJoins(cut.value.1, sep);
      assert Split(s, sep)[1..] == Split(cut.value.1, sep);
    }
  }

  lemma {:induction false} PartsSplit(parts: seq<string>, sep: char)
    requires |parts| > 0 && AllFree(parts, sep)
    ensures Split(Join(parts, sep), sep) == parts
  {
    if |parts| == 1 {
      SplitOnceMeans(parts[0], sep);
    } else {
      PartsSplit(parts[1..], sep);
      SplitOnceAt(parts[0], sep, Join(parts[1..], sep));
      assert [parts[0]] + parts[1..] == parts;
    }
  }
}
