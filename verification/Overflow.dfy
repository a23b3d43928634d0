/** The overflow cut of a failed flush: at least a tenth of the limit goes, oldest first, whole records only. */
module Overflow {
  import opened Framing

  /** Where a failed payload is cut: 0 while it fits, else just after the first separator at or
      after a tenth of the limit, or at that tenth when there is none. */
  function CutIndex(payload: Bytes, limit: nat): (k: nat)
    ensures k <= |payload|
  {
    if |payload| <= limit then 0
    else
      var k := FirstSep(payload, limit / 10);
      if k < |payload| then k + 1 else limit / 10
  }

  /** Over the limit the cut is just after the first separator from a tenth of the limit on, and at that tenth where
      there is none. */
  lemma CutIndexMeans(payload: Bytes, limit: nat)
    ensures var k := CutIndex(payload, limit);
            if |payload| <= limit then k == 0
            else if SEP in payload[limit / 10..] then
              k > limit / 10 && payload[k - 1] == SEP && SEP !in payload[limit / 10..k - 1]
            else k == limit / 10
  {
    if |payload| > limit {
      var n := FirstSep(payload, limit / 10);
      if n < |payload| {
        assert payload[limit / 10..][n - limit / 10] == SEP;
      }
    }
  }

  /** What a failed flush hands back. */
  function Kept(payload: Bytes, limit: nat): Bytes {
    payload[CutIndex(payload, limit)..]
  }

  /** The least number of leading records whose framed length exceeds n (all of them if none does). */
  function CutCount(bodies: seq<Bytes>, n: nat): (c: nat)
    ensures c <= |bodies|
  {
    if |bodies| == 0 then 0
    else if |bodies[0]| + 1 > n then 1
    else 1 + CutCount(bodies[1..], n - (|bodies[0]| + 1))
  }

  lemma FrameCons(bodies: seq<Bytes>, c: nat)
    requires 0 < c <= |bodies|
    ensures Frame(bodies[..c]) == bodies[0] + [SEP] + Frame(bodies[1..][..c - 1])
  {
    assert bodies[..c][0] == bodies[0] && bodies[..c][1..] == bodies[1..][..c - 1];
  }

  lemma SepEndsFirst(body: Bytes, rest: Bytes, n: nat)
    requires Clean(body) && n <= |body|
    ensures FirstSep(body + ([SEP] + rest), n) == |body|
  {
    var b := body + ([SEP] + rest);
    assert b[|body|] == SEP;
    assert forall j :: 0 <= j < |body| ==> b[j] == body[j] && body[j] != SEP;
  }

  lemma SepEndsLater(body: Bytes, rest: Bytes, n: nat)
    requires |body| < n <= |body| + 1 + |rest|
    ensures FirstSep(body + ([SEP] + rest), n) == |body| + 1 + FirstSep(rest, n - |body| - 1)
  {
    var b := body + ([SEP] + rest);
    assert b[|body| + 1..] == rest;
    FirstSepShift(b, |body| + 1, n);
  }

  /** The first separator at or after n ends record number CutCount: the prefix up to it is the least
      run of whole records longer than n. */
  lemma {:induction false} SepEndsRecord(bodies: seq<Bytes>, n: nat)
    requires AllClean(bodies) && n < |Frame(bodies)|
    ensures var c := CutCount(bodies, n);
            && 0 < c
            && FirstSep(Frame(bodies), n) + 1 == |Frame(bodies[..c])|
            && |Frame(bodies[..c - 1])| <= n < |Frame(bodies[..c])|
  {
    var first, rest, c := |bodies[0]| + 1, bodies[1..], CutCount(bodies, n);
    FrameCons(bodies, c);
    assert Frame(bodies) == bodies[0] + ([SEP] + Frame(rest));
    if first > n {
      SepEndsFirst(bodies[0], Frame(rest), n);
      assert bodies[1..][..0] == [] && bodies[..0] == [];
    } else {
      SepEndsLater(bodies[0], Frame(rest), n);
      SepEndsRecord(rest, n - first);
      FrameCons(bodies, c - 1);
    }
  }

  lemma {:induction false} FirstSepShift(b: Bytes, off: nat, n: nat)
    requires off <= n <= |b|
    ensures FirstSep(b, n) == off + FirstSep(b[off..], n - off)
    decreases |b| - n
  {
    if n < |b| && b[n] != SEP {
      assert b[off..][n - off] == b[n];
      FirstSepShift(b, off, n + 1);
    }
  }

  lemma FrameTake(bodies: seq<Bytes>, c: nat)
    requires c <= |bodies|
    ensures Frame(bodies) == Frame(bodies[..c]) + Frame(bodies[c..])
    ensures |Frame(bodies[..c])| <= |Frame(bodies)|
  {
    assert bodies == bodies[..c] + bodies[c..];
    FrameConcat(bodies[..c], bodies[c..]);
  }

  /** The cut of a framed payload falls between records: what goes is an oldest prefix of whole records,
      just enough of them to exceed a tenth of the limit, and what stays is framed. */
  lemma CutIsWholeRecords(bodies: seq<Bytes>, limit: nat)
    requires AllClean(bodies)
    ensures var b := Frame(bodies);
            var k := CutIndex(b, limit);
            var c := CutCount(bodies, limit / 10);
            if |b| <= limit then k == 0
            else
              && 0 < c <= |bodies|
              && b[..k] == Frame(bodies[..c])
              && b[k..] == Frame(bodies[c..])
              && |Frame(bodies[..c - 1])| <= limit / 10 < k
  {
    var b := Frame(bodies);
    if |b| > limit {
      SepEndsRecord(bodies, limit / 10);
      FrameTake(bodies, CutCount(bodies, limit / 10));
    }
  }

  /** How much goes: at least limit/10 + 1 bytes, at most limit/10 plus the longest record. */
  lemma CutSize(bodies: seq<Bytes>, limit: nat, longest: nat)
    requires AllClean(bodies) && |Frame(bodies)| > limit
    requires forall i :: 0 <= i < |bodies| ==> |bodies[i]| + 1 <= longest
    ensures limit / 10 + 1 <= |Frame(bodies)| - |Kept(Frame(bodies), limit)| <= limit / 10 + longest
  {
    CutIsWholeRecords(bodies, limit);
    var c := CutCount(bodies, limit / 10);
    FrameConcat(bodies[..c - 1], [bodies[c - 1]]);
    FrameOne(bodies[c - 1]);
    assert bodies[..c] == bodies[..c - 1] + [bodies[c - 1]];
  }

  /** What is left of a payload after n failed flushes with no arrivals in between. */
  function AfterFailures(payload: Bytes, limit: nat, n: nat): Bytes {
    if n == 0 then payload else AfterFailures(Kept(payload, limit), limit, n - 1)
  }

  /** With only failures and no arrivals a framed payload fits the limit after at most
      ceil((L - limit) / (limit/10 + 1)) of them (written without division), stays framed, and loses nothing more. */
  lemma {:induction false} Converges(bodies: seq<Bytes>, limit: nat, n: nat)
    requires AllClean(bodies)
    requires n * (limit / 10 + 1) >= |Frame(bodies)| - limit
    ensures exists c :: 0 <= c <= |bodies| && AfterFailures(Frame(bodies), limit, n) == Frame(bodies[c..])
    ensures |AfterFailures(Frame(bodies), limit, n)| <= limit
    ensures AfterFailures(Frame(bodies), limit, n + 1) == AfterFailures(Frame(bodies), limit, n)
    decreases n
  {
    var b := Frame(bodies);
    CutIsWholeRecords(bodies, limit);
    if |b| <= limit {
      Fits(b, limit, n);
      Fits(b, limit, n + 1);
      assert bodies[0..] == bodies;
    } else {
      var c := CutCount(bodies, limit / 10);
      assert (n - 1) * (limit / 10 + 1) == n * (limit / 10 + 1) - (limit / 10 + 1);
      Converges(bodies[c..], limit, n - 1);
      var d :| 0 <= d <= |bodies[c..]| && AfterFailures(Kept(b, limit), limit, n - 1) == Frame(bodies[c..][d..]);
      assert bodies[c..][d..] == bodies[c + d..];
    }
  }

  lemma {:induction false} Fits(payload: Bytes, limit: nat, n: nat)
    requires |payload| <= limit
    ensures AfterFailures(payload, limit, n) == payload
  {
    if n > 0 {
      assert Kept(payload, limit) == payload;
      Fits(payload, limit, n - 1);
    }
  }
}
