/** Bitcoin Core's fixed-point amounts, read into satoshis without floating point. */
module BtcAmount {
  import opened Core
  import opened Text

  const SATS_PER_BTC: nat := 100_000_000

  /** The text before the first point, and after it; all of it and nothing when there is no point. */
  function Parts(text: string): (string, string) {
    var cut := SplitOnce(text, '.');
    if cut.Some? then cut.value else (text, "")
  }

  function BtcToSats(text: string): Option<nat> {
    var (whole, frac) := Parts(text);
    if |whole| == 0 || |frac| > 8 || !AllDigits(whole + frac) then None
    else
      assert forall k :: 0 <= k < |whole| ==> whole[k] == (whole + frac)[k];
      assert forall k :: 0 <= k < |frac| ==> frac[k] == (whole + frac)[|whole| + k];
      if Value(whole) > U64_MAX then None
      else
        var padded := frac + Zeros(8 - |frac|);
        if Value(padded) > U64_MAX then None
        else if Value(whole) * SATS_PER_BTC > U64_MAX then None
        else if Value(whole) * SATS_PER_BTC + Value(padded) > U64_MAX then None
        else Some(Value(whole) * SATS_PER_BTC + Value(padded))
  }

  /** Digits, then optionally a point and at most eight more digits. */
  predicate Spells(text: string, whole: string, frac: string) {
    && |whole| > 0 && AllDigits(whole) && |frac| <= 8 && AllDigits(frac)
    && (text == whole + "." + frac || (frac == "" && text == whole))
  }

  lemma DigitsAreFree(s: string)
    requires AllDigits(s)
    ensures Free(s, '.')
  {
  }

  lemma PartsOf(text: string, whole: string, frac: string)
    requires Spells(text, whole, frac)
    ensures Parts(text) == (whole, frac)
  {
    DigitsAreFree(whole);
    if text == whole {
      SplitOnceMeans(text, '.');
    } else {
      SplitOnceAt(whole, '.', frac);
    }
  }

  lemma PartsSpell(text: string)
    requires var (whole, frac) := Parts(text); |whole| > 0 && AllDigits(whole) && |frac| <= 8 && AllDigits(frac)
    ensures Spells(text, Parts(text).0, Parts(text).1)
  {
    SplitOnceMeans(text, '.');
  }

  /** The satoshis a spelled amount stands for: its digits read as one number, scaled to eight decimals. */
  function Sats(whole: string, frac: string): nat
    requires AllDigits(whole) && AllDigits(frac) && |frac| <= 8
  {
    ValueOfConcat(whole, frac);
    Scale(Value(whole + frac), 8 - |frac|)
  }

  lemma EightZeros(v: nat)
    ensures Scale(v, 8) == v * SATS_PER_BTC
  {
    ScaleTwice(v, 4, 4);
    FourZeros(v);
    FourZeros(Scale(v, 4));
  }

  lemma FourZeros(v: nat)
    ensures Scale(v, 4) == 10_000 * v
  {
    assert Scale(v, 1) == 10 * v;
    assert Scale(v, 2) == 100 * v;
    assert Scale(v, 3) == 1_000 * v;
  }

  lemma PaddedFraction(frac: string, zeros: string, padded: string)
    requires AllDigits(frac) && |frac| <= 8 && zeros == Zeros(8 - |frac|) && padded == frac + zeros
    ensures AllDigits(padded) && Value(padded) == Scale(Value(frac), 8 - |frac|) && Value(padded) < SATS_PER_BTC
  {
    assert AllDigits(padded) && Value(padded) == Scale(Value(frac), 8 - |frac|) by {
      ValueOfConcat(frac, zeros);
      ValueOfZeros(8 - |frac|);
    }
    assert Value(padded) < SATS_PER_BTC by {
      ValueIsBelow(padded);
      EightZeros(1);
    }
  }

  lemma ScaledSum(w: nat, f: nat, m: nat, n: nat)
    ensures Scale(Scale(w, m) + f, n) == Scale(w, m + n) + Scale(f, n)
  {
    ScaleAdds(Scale(w, m), f, n);
    ScaleTwice(w, m, n);
  }

  lemma PaddedIsScaled(whole: string, frac: string, padded: string, both: string)
    requires AllDigits(whole) && AllDigits(frac) && |frac| <= 8 && padded == frac + Zeros(8 - |frac|)
    requires both == whole + frac
    ensures AllDigits(padded) && AllDigits(both) && Value(padded) < SATS_PER_BTC
    ensures Value(whole) * SATS_PER_BTC + Value(padded) == Scale(Value(both), 8 - |frac|)
  {
    PaddedFraction(frac, Zeros(8 - |frac|), padded);
    var w, f := Value(whole), Value(frac);
    assert AllDigits(both) && Value(both) == Scale(w, |frac|) + f by {
      ValueOfConcat(whole, frac);
    }
    assert Scale(w, 8) == w * SATS_PER_BTC by {
      EightZeros(w);
    }
    ScaledSum(w, f, |frac|, 8 - |frac|);
  }

  /** An amount is read exactly when it is digits with at most eight decimals whose satoshis fit, and as those satoshis. */
  lemma ReadExactlyWhen(text: string, n: nat)
    ensures BtcToSats(text) == Some(n) <==>
      n <= U64_MAX && exists whole, frac :: Spells(text, whole, frac) && Sats(whole, frac) == n
  {
    if whole, frac :| Spells(text, whole, frac) && Sats(whole, frac) == n {
      ReadsSpelled(text, whole, frac);
    }
    if BtcToSats(text) == Some(n) {
      SpelledWhenRead(text, n);
    }
  }

  lemma ReadsSpelled(text: string, whole: string, frac: string)
    requires Spells(text, whole, frac)
    ensures BtcToSats(text) == if Sats(whole, frac) <= U64_MAX then Some(Sats(whole, frac)) else None
  {
    PartsOf(text, whole, frac);
    ValueOfConcat(whole, frac);
    PaddedIsScaled(whole, frac, frac + Zeros(8 - |frac|), whole + frac);
  }

  lemma SpelledWhenRead(text: string, n: nat)
    requires BtcToSats(text) == Some(n)
    ensures n <= U64_MAX && Spells(text, Parts(text).0, Parts(text).1) && Sats(Parts(text).0, Parts(text).1) == n
  {
    var (whole, frac) := Parts(text);
    assert forall k :: 0 <= k < |whole| ==> whole[k] == (whole + frac)[k];
    assert forall k :: 0 <= k < |frac| ==> frac[k] == (whole + frac)[|whole| + k];
    PartsSpell(text);
    PaddedIsScaled(whole, frac, frac + Zeros(8 - |frac|), whole + frac);
  }

  /** The eight-decimal printing of a satoshi count. */
  function Print(sats: nat): string {
    Digits(sats / SATS_PER_BTC) + "." + Padded(sats % SATS_PER_BTC, 8)
  }

  /** Reading what was printed gives the count back, for every count that fits. */
  lemma PrintedReadsBack(sats: nat)
    requires sats <= U64_MAX
    ensures BtcToSats(Print(sats)) == Some(sats)
  {
    var whole, frac := Digits(sats / SATS_PER_BTC), Padded(sats % SATS_PER_BTC, 8);
    EightZeros(1);
    EightZeros(sats / SATS_PER_BTC);
    ValueOfDigits(sats / SATS_PER_BTC);
    ValueOfPadded(sats % SATS_PER_BTC, 8);
    ValueOfConcat(whole, frac);
    assert Sats(whole, frac) == sats;
    ReadsSpelled(Print(sats), whole, frac);
  }

  /** Moving the point by the missing decimals instead of the present ones compares alike. */
  lemma CrossScale(v: nat, w: nat, m: nat, n: nat)
    requires m <= n <= 8
    ensures Scale(v, n) == Scale(w, m) <==> Scale(v, 8 - m) == Scale(w, 8 - n)
  {
    ScaleTwice(v, n - m, m);
    ScaleTwice(v, n - m, 8 - n);
    ScaleKeepsOrder(Scale(v, n - m), w, m);
    ScaleKeepsOrder(Scale(v, n - m), w, 8 - n);
  }

  /** The two spellings stand for one decimal number: brought to a common denominator they agree. */
  predicate SameDecimal(sw: string, sf: string, tw: string, tf: string)
    requires AllDigits(sw + sf) && AllDigits(tw + tf)
  {
    Scale(Value(sw + sf), |tf|) == Scale(Value(tw + tf), |sf|)
  }

  /** Two spellings of one decimal number are read alike; two numbers never are. */
  lemma EqualValuesReadAlike(s: string, sw: string, sf: string, t: string, tw: string, tf: string)
    requires Spells(s, sw, sf) && Spells(t, tw, tf) && AllDigits(sw + sf) && AllDigits(tw + tf)
    ensures SameDecimal(sw, sf, tw, tf) ==> BtcToSats(s) == BtcToSats(t)
    ensures BtcToSats(s).Some? && BtcToSats(s) == BtcToSats(t) ==> SameDecimal(sw, sf, tw, tf)
  {
    ReadsSpelled(s, sw, sf);
    ReadsSpelled(t, tw, tf);
    if |sf| <= |tf| {
      CrossScale(Value(sw + sf), Value(tw + tf), |sf|, |tf|);
    } else {
      CrossScale(Value(tw + tf), Value(sw + sf), |tf|, |sf|);
    }
  }
}
