/** Newline framing: what the processor writes and what every buffer of the pusher holds. */
module Framing {
  type Byte = x: int | 0 <= x < 256
  type Bytes = seq<Byte>

  const SEP: Byte := 10

  /** The one assumption on marshalled JSON: not empty, and no raw byte 0x0A (section 7 of RFC 8259). */
  predicate Clean(body: Bytes) {
    |body| > 0 && SEP !in body
  }

  predicate AllClean(bodies: seq<Bytes>) {
    forall i :: 0 <= i < |bodies| ==> Clean(bodies[i])
  }

  /** Each record followed by the separator. */
  function Frame(bodies: seq<Bytes>): Bytes {
    if |bodies| == 0 then [] else bodies[0] + [SEP] + Frame(bodies[1..])
  }

  /** The first index at or after `from` that holds the separator, or the length. */
  function FirstSep(b: Bytes, from: nat): (k: nat)
    requires from <= |b|
    ensures from <= k <= |b|
    ensures k < |b| ==> b[k] == SEP
    ensures forall j :: from <= j < k ==> b[j] != SEP
    decreases |b| - from
  {
    if from == |b| || b[from] == SEP then from else FirstSep(b, from + 1)
  }

  /** Splitting on the separator; an unterminated tail becomes a last record. */
  function Split(b: Bytes): seq<Bytes> {
    if |b| == 0 then []
    else
      var k := FirstSep(b, 0);
      if k == |b| then [b] else [b[..k]] + Split(b[k + 1..])
  }

  lemma {:induction false} FrameConcat(a: seq<Bytes>, b: seq<Bytes>)
    ensures Frame(a + b) == Frame(a) + Frame(b)
  {
    if |a| == 0 {
      assert a + b == b;
    } else {
      assert (a + b)[1..] == a[1..] + b;
      FrameConcat(a[1..], b);
    }
  }

  lemma FrameOne(body: Bytes)
    ensures Frame([body]) == body + [SEP]
  {
    assert Frame([body][1..]) == [];
  }

  lemma FrameEmpty(bodies: seq<Bytes>)
    ensures |Frame(bodies)| == 0 <==> |bodies| == 0
  {
  }

  /** Splitting what was framed gives back exactly the records. */
  lemma {:induction false} SplitOfFrame(bodies: seq<Bytes>)
    requires AllClean(bodies)
    ensures Split(Frame(bodies)) == bodies
  {
    if |bodies| > 0 {
      var b, n := Frame(bodies), |bodies[0]|;
      assert b == bodies[0] + ([SEP] + Frame(bodies[1..]));
      assert b[n] == SEP;
      assert forall j :: 0 <= j < n ==> b[j] == bodies[0][j] && bodies[0][j] != SEP;
      assert FirstSep(b, 0) == n;
      assert b[..n] == bodies[0] && b[n + 1..] == Frame(bodies[1..]);
      SplitOfFrame(bodies[1..]);
    }
  }

  lemma SamePrefix(x: Bytes, y: Bytes, z: Bytes)
    ensures x + y == x + z <==> y == z
  {
    assert (x + y)[|x|..] == y && (x + z)[|x|..] == z;
  }

  lemma SplitStep(b: Bytes)
    requires |b| > 0 && FirstSep(b, 0) < |b|
    ensures var k := FirstSep(b, 0);
            Frame(Split(b)) == b[..k] + [SEP] + Frame(Split(b[k + 1..]))
  {
    var k := FirstSep(b, 0);
    assert Split(b)[0] == b[..k] && Split(b)[1..] == Split(b[k + 1..]);
  }

  /** Framing what was split gives the bytes back exactly when no tail was left unterminated. */
  lemma {:induction false} FrameOfSplit(b: Bytes)
    ensures Frame(Split(b)) == b <==> (|b| == 0 || b[|b| - 1] == SEP)
    decreases |b|
  {
    if |b| > 0 {
      var k := FirstSep(b, 0);
      if k == |b| {
        FrameOne(b);
        assert Frame(Split(b)) == b + [SEP];
      } else {
        SplitStep(b);
        var x, rest := b[..k] + [SEP], b[k + 1..];
        assert b == x + rest;
        SamePrefix(x, Frame(Split(rest)), rest);
        FrameOfSplit(rest);
      }
    }
  }
}
