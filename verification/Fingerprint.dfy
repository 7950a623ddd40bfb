/** The bytes hashed as the fingerprint of a payment request. */
module Fingerprint {
  import opened Core
  import L = Ledger

  /** An accepted request: the trimmed invoice text, the amount to send, and the metadata as text. */
  datatype Request = Request(bolt11: seq<Byte>, amountMsat: nat, metadata: seq<Byte>)

  function BigEndian(n: nat, width: nat): (bytes: seq<Byte>)
    ensures |bytes| == width
  {
    if width == 0 then [] else BigEndian(n / 256, width - 1) + [n % 256]
  }

  function Bytes(r: Request): seq<Byte> {
    r.bolt11 + BigEndian(r.amountMsat, 8) + r.metadata
  }

  /** The amount check of a send. */
  predicate AmountAccepted(amountMsat: nat) {
    1 <= amountMsat / 1_000 <= MAX_SATS
  }

  /** An invoice parses only if its characters are printable: section "Bech32" of BIP 173. */
  predicate Bech32Text(text: seq<Byte>) {
    forall k :: 0 <= k < |text| ==> 33 <= text[k] <= 126
  }

  predicate Accepted(r: Request) {
    AmountAccepted(r.amountMsat) && Bech32Text(r.bolt11)
  }

  function Pow256(n: nat): nat {
    if n == 0 then 1 else 256 * Pow256(n - 1)
  }

  /** The first of several big-endian bytes is the number without its lower bytes. */
  lemma {:induction false} TopByte(n: nat, width: nat)
    requires width > 0 && n < Pow256(width)
    ensures BigEndian(n, width)[0] * Pow256(width - 1) <= n
  {
    if width > 1 {
      TopByte(n / 256, width - 1);
      assert BigEndian(n, width)[0] == BigEndian(n / 256, width - 1)[0];
      var top := BigEndian(n, width)[0];
      assert top * Pow256(width - 1) == 256 * (top * Pow256(width - 2));
    } else {
      assert BigEndian(n, width) == [n % 256];
    }
  }

  lemma {:induction false} BigEndianDetermines(m: nat, n: nat, width: nat)
    requires m < Pow256(width) && n < Pow256(width) && BigEndian(m, width) == BigEndian(n, width)
    ensures m == n
  {
    if width > 0 {
      var a, b := BigEndian(m, width), BigEndian(n, width);
      assert a[..width - 1] == BigEndian(m / 256, width - 1) && b[..width - 1] == BigEndian(n / 256, width - 1);
      assert a[width - 1] == m % 256 && b[width - 1] == n % 256;
      BigEndianDetermines(m / 256, n / 256, width - 1);
    }
  }

  lemma AcceptedAmountIsSmall(amountMsat: nat)
    requires AmountAccepted(amountMsat)
    ensures amountMsat < Pow256(8) && BigEndian(amountMsat, 8)[0] < 0x20
  {
    Pow256Seven();
    TopByte(amountMsat, 8);
  }

  /** Where the invoice ends can be read off the bytes: at the first one below 33. */
  lemma InvoiceEndsAtTheAmount(r: Request)
    requires Accepted(r)
    ensures |Bytes(r)| >= |r.bolt11| + 8 && Bytes(r)[|r.bolt11|] < 0x20
    ensures forall k :: 0 <= k < |r.bolt11| ==> Bytes(r)[k] >= 33
  {
    AcceptedAmountIsSmall(r.amountMsat);
    assert Bytes(r)[|r.bolt11|] == BigEndian(r.amountMsat, 8)[0];
  }

  /** Two accepted requests hash the same bytes exactly when they are the same request. */
  lemma BytesDetermineTheRequest(r: Request, s: Request)
    requires Accepted(r) && Accepted(s)
    ensures Bytes(r) == Bytes(s) <==> r == s
  {
    if Bytes(r) == Bytes(s) {
      InvoiceEndsAtTheAmount(r);
      InvoiceEndsAtTheAmount(s);
      var k := |r.bolt11|;
      assert Bytes(r)[..k] == r.bolt11 && Bytes(s)[..k] == s.bolt11;
      assert Bytes(r)[k..k + 8] == BigEndian(r.amountMsat, 8) && Bytes(s)[k..k + 8] == BigEndian(s.amountMsat, 8);
      assert Bytes(r)[k + 8..] == r.metadata && Bytes(s)[k + 8..] == s.metadata;
      AcceptedAmountIsSmall(r.amountMsat);
      AcceptedAmountIsSmall(s.amountMsat);
      BigEndianDetermines(r.amountMsat, s.amountMsat, 8);
    }
  }

  /** With a digest that never collides, a reused key matches only a repeat of its own request. */
  lemma DigestMatchesOnlyTheSameRequest(digest: seq<Byte> -> seq<Byte>, r: Request, s: Request)
    requires forall a, b :: digest(a) == digest(b) ==> a == b
    requires Accepted(r) && Accepted(s)
    ensures digest(Bytes(r)) == digest(Bytes(s)) <==> r == s
  {
    BytesDetermineTheRequest(r, s);
  }

  /**
   How the storage model's request is written down: its texts as bytes, by any encoding that
   never writes two texts alike, and nothing of the invoice but its text.
   */
  function Written(encode: string -> seq<Byte>, r: L.Request): Request {
    Request(encode(r.invoice.text), r.amount, encode(r.metadata))
  }

  /** Decoding is a function: one invoice text has one hash and one amount. */
  predicate SameDecoding(r: L.Request, s: L.Request) {
    r.invoice.text == s.invoice.text ==> r.invoice == s.invoice
  }

  /**
   So comparing stored requests, as the storage model does, is comparing stored digests, as
   the code does: `begin_payment` refuses a used key exactly when the digests differ.
   */
  lemma BeginPaymentComparesDigests(
    digest: seq<Byte> -> seq<Byte>, encode: string -> seq<Byte>, db: L.Db, project: string, key: L.IdemKey,
    request: L.Request, prior: nat)
    requires forall a, b :: digest(a) == digest(b) ==> a == b
    requires forall a, b :: encode(a) == encode(b) ==> a == b
    requires L.FindKey(db.payments, project, key) == Some(prior) && prior < |db.payments| && request.amount <= I64_MAX
    requires var stored := db.payments[prior].request;
             && Accepted(Written(encode, stored)) && Accepted(Written(encode, request)) && SameDecoding(stored, request)
    ensures L.BeginPayment(db, project, key, request)
         == (db, if digest(Bytes(Written(encode, db.payments[prior].request))) == digest(Bytes(Written(encode, request)))
                 then Ok(L.BeginOutcome(prior, false)) else Err(IdempotencyMismatch))
  {
    var stored := db.payments[prior].request;
    DigestMatchesOnlyTheSameRequest(digest, Written(encode, stored), Written(encode, request));
  }

  /** The supply bound carries this: with a larger amount two different requests share their bytes. */
  lemma LargeAmountCollides(small: Request, large: Request)
    requires small == Request([65, 66], 1_073, [49])
    requires large == Request([65], 66 * Pow256(7) + 4, [49, 49])
    ensures Accepted(small) && Bech32Text(large.bolt11) && !AmountAccepted(large.amountMsat)
    ensures Bytes(small) == Bytes(large) && small != large
  {
    Pow256Seven();
    Shift(66, 4, 7);
    OneByteMore(4, 49, 7);
    SharedBytes(small, large, BigEndian(4, 7));
  }

  lemma SharedBytes(small: Request, large: Request, middle: seq<Byte>)
    requires small.bolt11 == [65, 66] && large.bolt11 == [65] && small.metadata == [49] && large.metadata == [49, 49]
    requires BigEndian(small.amountMsat, 8) == middle + [49] && BigEndian(large.amountMsat, 8) == [66] + middle
    ensures Bytes(small) == Bytes(large)
  {
    assert small.bolt11 == large.bolt11 + [66] && large.metadata == [49] + [49];
    Regroup(large.bolt11, [66], middle, [49]);
  }

  lemma Pow256Seven()
    ensures Pow256(7) == 0x100_0000_0000_0000
  {
    assert Pow256(3) == 0x100_0000;
    assert Pow256(6) == 0x1_0000_0000_0000;
  }

  lemma OneByteMore(n: nat, last: Byte, width: nat)
    ensures BigEndian(256 * n + last, width + 1) == BigEndian(n, width) + [last]
  {
  }

  lemma Regroup(a: seq<Byte>, b: seq<Byte>, c: seq<Byte>, d: seq<Byte>)
    ensures (a + b) + (c + d) + d == a + (b + c) + (d + d)
  {
  }

  lemma {:induction false} Shift(top: Byte, low: nat, width: nat)
    requires low < Pow256(width)
    ensures BigEndian(top * Pow256(width) + low, width + 1) == [top] + BigEndian(low, width)
  {
    if width == 0 {
      assert BigEndian(top, 1) == [top];
    } else {
      var n := top * Pow256(width) + low;
      assert top * Pow256(width) == 256 * (top * Pow256(width - 1));
      assert n / 256 == top * Pow256(width - 1) + low / 256 && n % 256 == low % 256;
      Shift(top, low / 256, width - 1);
    }
  }
}
