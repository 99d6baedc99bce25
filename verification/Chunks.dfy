// Text as the lead-byte walk sees it.
module Chunks {
  import opened Utf8

  const SPACE: bv8 := 0x20

  /** From k on, the lead-byte walk lands exactly on the end, and only lead bytes look like ASCII. */
  predicate Chunked(t: seq<bv8>, k: nat)
    decreases |t| - k
  {
    k == |t| ||
    (k < |t| && k + SeqLen(t[k]) <= |t|
     && (forall j :: k < j < k + SeqLen(t[k]) ==> t[j] >= 0x80)
     && Chunked(t, k + SeqLen(t[k])))
  }

  /** The walk from k lands on e. */
  predicate Reaches(t: seq<bv8>, k: nat, e: nat)
    requires e <= |t|
    decreases e - k
  {
    k == e || (k < e && Reaches(t, k + SeqLen(t[k]), e))
  }

  lemma {:induction false} ChunkedReachesEnd(t: seq<bv8>, k: nat)
    requires Chunked(t, k)
    ensures Reaches(t, k, |t|)
    decreases |t| - k
  {
    if k < |t| {
      ChunkedReachesEnd(t, k + SeqLen(t[k]));
    }
  }

  /** Sequences started in t[k..e]. */
  function ChunkCount(t: seq<bv8>, k: nat, e: nat): nat
    requires e <= |t|
    decreases e - k
  {
    if k < e then 1 + ChunkCount(t, k + SeqLen(t[k]), e) else 0
  }

  lemma {:induction false} TailsAreHigh(cp: bv32)
    requires Scalar(cp)
    ensures forall j :: 1 <= j < |Encode(cp)| ==> Encode(cp)[j] >= 0x80
  {
    TailBits(cp);
  }

  lemma HighTails(s: seq<bv8>, p: nat, cp: bv32)
    requires Scalar(cp) && Holds(s, p, cp)
    ensures forall j :: p < j < p + |Encode(cp)| ==> s[j] >= 0x80
  {
    TailsAreHigh(cp);
    forall j | p < j < p + |Encode(cp)|
      ensures s[j] == Encode(cp)[j - p]
    {
      assert s[p..p + |Encode(cp)|][j - p] == s[j];
    }
  }

  lemma {:induction false} TextIsChunkedFrom(s: seq<bv8>, p: nat, cps: seq<bv32>)
    requires forall i :: 0 <= i < |cps| ==> Scalar(cps[i])
    requires p <= |s| && s[p..] == Text(cps)
    ensures Chunked(s, p)
    decreases |cps|
  {
    if cps != [] {
      var q := TextStep(s, p, cps);
      Prefixed(s, p, Encode(cps[0]), Text(cps[1..]));
      HighTails(s, p, cps[0]);
      TextIsChunkedFrom(s, q, cps[1..]);
    }
  }

  /** Well-formed UTF-8 is chunked, so what is proved of chunked runs holds of well-formed text. */
  lemma WellFormedIsChunked(cps: seq<bv32>)
    requires forall i :: 0 <= i < |cps| ==> Scalar(cps[i])
    ensures Chunked(Text(cps), 0)
  {
    assert Text(cps)[0..] == Text(cps);
    TextIsChunkedFrom(Text(cps), 0, cps);
  }

  lemma {:induction false} CountIsCells(t: seq<bv8>, k: nat, off: nat, e: nat)
    requires off <= k && off <= e <= |t|
    ensures ChunkCount(t, k, e) == CellsFrom(t[off..e], k - off)
    decreases e - k
  {
    if k < e {
      CountIsCells(t, k + SeqLen(t[k]), off, e);
    }
  }

  // An ASCII byte is always a sequence of its own: the walk lands on it, and on the byte after it.
  lemma {:induction false} AtAscii(t: seq<bv8>, k: nat, e: nat)
    requires Chunked(t, k) && k <= e < |t| && t[e] < 0x80
    ensures Chunked(t, e + 1) && Reaches(t, k, e) && Reaches(t, k, e + 1)
    decreases |t| - k
  {
    var next := k + SeqLen(t[k]);
    if e >= next {
      AtAscii(t, next, e);
    }
  }
}
