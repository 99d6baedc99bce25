// The three UTF-8 walkers of the repository and the reference encoding they must agree with.
module Utf8 {

  // ---- The reference: section 3 of RFC 3629 ---------------------------

  predicate Scalar(cp: bv32) {
    cp < 0x11_0000 && !(0xD800 <= cp <= 0xDFFF)
  }

  function Tail(v: bv32): bv8 {
    0x80 | ((v & 0x3F) as bv8)
  }

  function Encode(cp: bv32): (bytes: seq<bv8>)
    requires Scalar(cp)
    ensures 1 <= |bytes| <= 4
  {
    if cp < 0x80 then [cp as bv8]
    else if cp < 0x800 then [0xC0 | ((cp >> 6) as bv8), Tail(cp)]
    else if cp < 0x1_0000 then [0xE0 | ((cp >> 12) as bv8), Tail(cp >> 6), Tail(cp)]
    else [0xF0 | ((cp >> 18) as bv8), Tail(cp >> 12), Tail(cp >> 6), Tail(cp)]
  }

  /** Well-formed text is the concatenation of encoded scalars. */
  function Text(cps: seq<bv32>): seq<bv8>
    requires forall i :: 0 <= i < |cps| ==> Scalar(cps[i])
  {
    if cps == [] then [] else Encode(cps[0]) + Text(cps[1..])
  }

  // ---- The walkers ----------------------------------------------------

  // C strings end in a zero byte; reading one past the end sees it.
  function At(s: seq<bv8>, i: nat): bv8 {
    if i < |s| then s[i] else 0
  }

  /** Sequence length from the lead byte alone; never zero. */
  function SeqLen(c: bv8): nat {
    if c < 0x80 then 1
    else if c & 0xE0 == 0xC0 then 2
    else if c & 0xF0 == 0xE0 then 3
    else if c & 0xF8 == 0xF0 then 4
    else 1
  }

  /** Cell count of a run, walked by lead bytes without decoding. */
  function CellsFrom(t: seq<bv8>, i: nat): nat
    decreases |t| - i
  {
    if i < |t| then 1 + CellsFrom(t, i + SeqLen(t[i])) else 0
  }

  function Cells(t: seq<bv8>): nat {
    CellsFrom(t, 0)
  }

  function Continue(s: seq<bv8>, p: nat, cp: bv32, extra: nat): (bv32, nat)
    decreases extra
  {
    if extra == 0 then (cp, p)
    else if At(s, p) & 0xC0 != 0x80 then (0xFFFD, p)
    else Continue(s, p + 1, (cp << 6) | ((At(s, p) & 0x3F) as bv32), extra - 1)
  }

  /** Decodes one codepoint at p; the result pairs it with the position after it. */
  function NextCp(s: seq<bv8>, p: nat): (bv32, nat) {
    var c := At(s, p);
    if c < 0x80 then (c as bv32, p + 1)
    else if c & 0xE0 == 0xC0 then Continue(s, p + 1, (c & 0x1F) as bv32, 1)
    else if c & 0xF0 == 0xE0 then Continue(s, p + 1, (c & 0x0F) as bv32, 2)
    else if c & 0xF8 == 0xF0 then Continue(s, p + 1, (c & 0x07) as bv32, 3)
    else (0xFFFD, p + 1)
  }

  lemma {:induction false} ContinueAdvances(s: seq<bv8>, p: nat, cp: bv32, extra: nat)
    requires p <= |s|
    ensures p <= Continue(s, p, cp, extra).1 <= |s|
    decreases extra
  {
    if extra != 0 && At(s, p) & 0xC0 == 0x80 {
      assert p < |s|;
      ContinueAdvances(s, p + 1, (cp << 6) | ((At(s, p) & 0x3F) as bv32), extra - 1);
    }
  }

  /** On any bytes at all, next_cp makes progress and stays inside the string. */
  lemma NextCpAdvances(s: seq<bv8>, p: nat)
    requires p < |s|
    ensures p < NextCp(s, p).1 <= |s|
  {
    ContinueAdvances(s, p + 1, (s[p] & 0x1F) as bv32, 1);
    ContinueAdvances(s, p + 1, (s[p] & 0x0F) as bv32, 2);
    ContinueAdvances(s, p + 1, (s[p] & 0x07) as bv32, 3);
  }

  /** The codepoints a C string draws: decoding stops at the first zero byte. */
  function DecodeFrom(s: seq<bv8>, p: nat): seq<bv32>
    requires p <= |s|
    decreases |s| - p
  {
    if At(s, p) == 0 then []
    else
      NextCpAdvances(s, p);
      [NextCp(s, p).0] + DecodeFrom(s, NextCp(s, p).1)
  }

  function DecodeText(s: seq<bv8>): seq<bv32> {
    DecodeFrom(s, 0)
  }

  /** The heading check decodes in place, two and three byte sequences only. */
  function InlineCp(t: seq<bv8>, k: nat): bv32
    requires k < |t|
  {
    var n := SeqLen(t[k]);
    if n == 2 then (((t[k] & 0x1F) as bv32) << 6) | ((At(t, k + 1) & 0x3F) as bv32)
    else if n == 3 then
      (((t[k] & 0x0F) as bv32) << 12) | (((At(t, k + 1) & 0x3F) as bv32) << 6) | ((At(t, k + 2) & 0x3F) as bv32)
    else if n > 3 then 0xFFFF
    else t[k] as bv32
  }

  /** The divider's own encoder; it never emits four bytes and narrows each byte to eight bits. */
  function DividerBytes(ch: bv32): (g: seq<bv8>) {
    if ch < 0x80 then [ch as bv8]
    else if ch < 0x800 then [((0xC0 | (ch >> 6)) & 0xFF) as bv8, Tail(ch)]
    else [((0xE0 | (ch >> 12)) & 0xFF) as bv8, Tail(ch >> 6), Tail(ch)]
  }

  // ---- Agreement ------------------------------------------------------

  lemma EncodeShape(cp: bv32)
    requires Scalar(cp)
    ensures SeqLen(Encode(cp)[0]) == |Encode(cp)|
    ensures cp != 0 ==> Encode(cp)[0] != 0
  {
  }

  lemma ContinueTail(s: seq<bv8>, p: nat, cp: bv32, extra: nat, v: bv32)
    requires extra > 0 && At(s, p) == Tail(v)
    ensures Continue(s, p, cp, extra) == Continue(s, p + 1, (cp << 6) | (v & 0x3F), extra - 1)
  {
    TailBits(v);
  }

  lemma TailBits(v: bv32)
    ensures Tail(v) & 0xC0 == 0x80 && ((Tail(v) & 0x3F) as bv32) == v & 0x3F
  {
  }

  lemma Reassemble(cp: bv32)
    requires Scalar(cp)
    ensures cp < 0x800 ==> ((cp >> 6) << 6) | (cp & 0x3F) == cp
    ensures cp < 0x1_0000 ==> ((((cp >> 12) << 6) | ((cp >> 6) & 0x3F)) << 6) | (cp & 0x3F) == cp
    ensures ((((((cp >> 18) << 6) | ((cp >> 12) & 0x3F)) << 6) | ((cp >> 6) & 0x3F)) << 6) | (cp & 0x3F) == cp
  {
  }

  lemma LeadBits(cp: bv32)
    requires Scalar(cp)
    ensures 0x80 <= cp < 0x800 ==> (Encode(cp)[0] & 0xE0 == 0xC0 && ((Encode(cp)[0] & 0x1F) as bv32) == cp >> 6)
    ensures 0x800 <= cp < 0x1_0000 ==> (Encode(cp)[0] & 0xF0 == 0xE0 && ((Encode(cp)[0] & 0x0F) as bv32) == cp >> 12)
    ensures 0x1_0000 <= cp ==> (Encode(cp)[0] & 0xF8 == 0xF0 && ((Encode(cp)[0] & 0x07) as bv32) == cp >> 18)
    ensures 0x80 <= cp ==> Encode(cp)[0] >= 0x80
  {
  }

  // The encoding of cp stands in s at position p.
  predicate Holds(s: seq<bv8>, p: nat, cp: bv32)
    requires Scalar(cp)
  {
    p + |Encode(cp)| <= |s| && s[p..p + |Encode(cp)|] == Encode(cp)
  }

  lemma HoldsAt(s: seq<bv8>, p: nat, cp: bv32, k: nat)
    requires Scalar(cp) && Holds(s, p, cp) && k < |Encode(cp)|
    ensures At(s, p + k) == Encode(cp)[k]
  {
    assert s[p..p + |Encode(cp)|][k] == s[p + k];
  }

  lemma DecodeTwo(s: seq<bv8>, p: nat, v: bv32)
    requires At(s, p) >= 0x80 && At(s, p) & 0xE0 == 0xC0 && ((At(s, p) & 0x1F) as bv32) == v >> 6
    requires At(s, p + 1) == Tail(v)
    ensures NextCp(s, p) == (((v >> 6) << 6) | (v & 0x3F), p + 2)
  {
    ContinueTail(s, p + 1, v >> 6, 1, v);
  }

  lemma DecodeThree(s: seq<bv8>, p: nat, v: bv32)
    requires At(s, p) >= 0x80 && At(s, p) & 0xF0 == 0xE0 && ((At(s, p) & 0x0F) as bv32) == v >> 12
    requires At(s, p + 1) == Tail(v >> 6) && At(s, p + 2) == Tail(v)
    ensures NextCp(s, p) == (((((v >> 12) << 6) | ((v >> 6) & 0x3F)) << 6) | (v & 0x3F), p + 3)
  {
    ContinueTail(s, p + 1, v >> 12, 2, v >> 6);
    ContinueTail(s, p + 2, ((v >> 12) << 6) | ((v >> 6) & 0x3F), 1, v);
  }

  lemma DecodeFour(s: seq<bv8>, p: nat, v: bv32)
    requires At(s, p) >= 0x80 && At(s, p) & 0xF8 == 0xF0 && ((At(s, p) & 0x07) as bv32) == v >> 18
    requires At(s, p + 1) == Tail(v >> 12) && At(s, p + 2) == Tail(v >> 6) && At(s, p + 3) == Tail(v)
    ensures NextCp(s, p)
         == (((((((v >> 18) << 6) | ((v >> 12) & 0x3F)) << 6) | ((v >> 6) & 0x3F)) << 6) | (v & 0x3F), p + 4)
  {
    var a := ((v >> 18) << 6) | ((v >> 12) & 0x3F);
    ContinueTail(s, p + 1, v >> 18, 3, v >> 12);
    ContinueTail(s, p + 2, a, 2, v >> 6);
    ContinueTail(s, p + 3, (a << 6) | ((v >> 6) & 0x3F), 1, v);
  }

  // What the bytes at p look like when a two or three byte encoding stands there.
  predicate LooksTwo(s: seq<bv8>, p: nat, v: bv32) {
    && p < |s| && s[p] >= 0x80 && s[p] & 0xE0 == 0xC0 && ((s[p] & 0x1F) as bv32) == v >> 6
    && At(s, p + 1) == Tail(v)
  }

  predicate LooksThree(s: seq<bv8>, p: nat, v: bv32) {
    && p < |s| && s[p] >= 0x80 && s[p] & 0xF0 == 0xE0 && ((s[p] & 0x0F) as bv32) == v >> 12
    && At(s, p + 1) == Tail(v >> 6) && At(s, p + 2) == Tail(v)
  }

  lemma HoldsTwo(s: seq<bv8>, p: nat, cp: bv32)
    requires 0x80 <= cp < 0x800 && Holds(s, p, cp)
    ensures LooksTwo(s, p, cp)
  {
    HoldsAt(s, p, cp, 0);
    HoldsAt(s, p, cp, 1);
    LeadBits(cp);
  }

  lemma HoldsThree(s: seq<bv8>, p: nat, cp: bv32)
    requires Scalar(cp) && 0x800 <= cp < 0x1_0000 && Holds(s, p, cp)
    ensures LooksThree(s, p, cp)
  {
    HoldsAt(s, p, cp, 0);
    HoldsAt(s, p, cp, 1);
    HoldsAt(s, p, cp, 2);
    LeadBits(cp);
  }

  lemma InvertsTwo(s: seq<bv8>, p: nat, cp: bv32)
    requires cp < 0x800 && LooksTwo(s, p, cp)
    ensures NextCp(s, p) == (cp, p + 2)
  {
    DecodeTwo(s, p, cp);
    Reassemble(cp);
  }

  lemma InlineTwo(s: seq<bv8>, p: nat, cp: bv32)
    requires LooksTwo(s, p, cp)
    ensures InlineCp(s, p) == ((cp >> 6) << 6) | (cp & 0x3F)
  {
    TailBits(cp);
  }

  lemma InvertsThree(s: seq<bv8>, p: nat, cp: bv32)
    requires Scalar(cp) && cp < 0x1_0000 && LooksThree(s, p, cp)
    ensures NextCp(s, p) == (cp, p + 3)
  {
    DecodeThree(s, p, cp);
    Reassemble(cp);
  }

  lemma InlineThree(s: seq<bv8>, p: nat, cp: bv32)
    requires LooksThree(s, p, cp)
    ensures InlineCp(s, p) == cp
  {
    TailBits(cp >> 6);
    TailBits(cp);
    InlineThreeBytes(s, p, cp);
    SpreadThree(cp);
  }

  lemma InlineThreeBytes(s: seq<bv8>, p: nat, v: bv32)
    requires p < |s| && s[p] >= 0x80 && s[p] & 0xF0 == 0xE0 && ((s[p] & 0x0F) as bv32) == v >> 12
    requires ((At(s, p + 1) & 0x3F) as bv32) == (v >> 6) & 0x3F && ((At(s, p + 2) & 0x3F) as bv32) == v & 0x3F
    ensures InlineCp(s, p) == ((v >> 12) << 12) | (((v >> 6) & 0x3F) << 6) | (v & 0x3F)
  {
  }

  lemma SpreadThree(v: bv32)
    ensures ((v >> 12) << 12) | (((v >> 6) & 0x3F) << 6) | (v & 0x3F) == v
  {
  }

  lemma InvertsFour(s: seq<bv8>, p: nat, cp: bv32)
    requires Scalar(cp) && 0x1_0000 <= cp && Holds(s, p, cp)
    ensures NextCp(s, p) == (cp, p + 4)
  {
    HoldsAt(s, p, cp, 0);
    HoldsAt(s, p, cp, 1);
    HoldsAt(s, p, cp, 2);
    HoldsAt(s, p, cp, 3);
    LeadBits(cp);
    DecodeFour(s, p, cp);
    Reassemble(cp);
  }

  /** next_cp inverts the reference encoding wherever it stands, and the heading check's own decoder
      agrees with it up to three bytes and refuses four. */
  lemma NextCpInverts(s: seq<bv8>, p: nat, cp: bv32)
    requires Scalar(cp) && Holds(s, p, cp)
    ensures NextCp(s, p) == (cp, p + |Encode(cp)|)
    ensures InlineCp(s, p) == if cp < 0x1_0000 then cp else 0xFFFF
  {
    HoldsAt(s, p, cp, 0);
    if cp < 0x80 {
    } else if cp < 0x800 {
      HoldsTwo(s, p, cp);
      InvertsTwo(s, p, cp);
      InlineTwo(s, p, cp);
      Reassemble(cp);
    } else if cp < 0x1_0000 {
      HoldsThree(s, p, cp);
      InvertsThree(s, p, cp);
      InlineThree(s, p, cp);
    } else {
      InvertsFour(s, p, cp);
      EncodeShape(cp);
    }
  }

  /** Text at p: the walkers see the scalars one by one. */
  lemma {:induction false} WalkText(s: seq<bv8>, p: nat, cps: seq<bv32>)
    requires forall i :: 0 <= i < |cps| ==> Scalar(cps[i])
    requires p <= |s| && s[p..] == Text(cps)
    ensures CellsFrom(s, p) == |cps|
    ensures (forall i :: 0 <= i < |cps| ==> cps[i] != 0) ==> DecodeFrom(s, p) == cps
    decreases |cps|
  {
    if cps != [] {
      var q := TextStep(s, p, cps);
      WalkText(s, q, cps[1..]);
      assert [cps[0]] + cps[1..] == cps;
    }
  }

  lemma Prefixed(s: seq<bv8>, p: nat, a: seq<bv8>, b: seq<bv8>)
    requires p <= |s| && s[p..] == a + b
    ensures p + |a| <= |s| && s[p..p + |a|] == a && s[p + |a|..] == b
  {
    assert s[p..][..|a|] == a && s[p..][|a|..] == b;
  }

  lemma Leads(s: seq<bv8>, p: nat, cp: bv32)
    requires Scalar(cp) && Holds(s, p, cp)
    ensures NextCp(s, p) == (cp, p + |Encode(cp)|) && p + SeqLen(s[p]) == p + |Encode(cp)|
    ensures cp != 0 ==> s[p] != 0
  {
    NextCpInverts(s, p, cp);
    EncodeShape(cp);
    HoldsAt(s, p, cp, 0);
  }

  lemma TextStep(s: seq<bv8>, p: nat, cps: seq<bv32>) returns (q: nat)
    requires forall i :: 0 <= i < |cps| ==> Scalar(cps[i])
    requires cps != [] && p <= |s| && s[p..] == Text(cps)
    ensures p < q <= |s| && s[q..] == Text(cps[1..])
    ensures NextCp(s, p) == (cps[0], q)
    ensures p + SeqLen(s[p]) == q
    ensures cps[0] != 0 ==> s[p] != 0
  {
    var e := Encode(cps[0]);
    q := p + |e|;
    Prefixed(s, p, e, Text(cps[1..]));
    Leads(s, p, cps[0]);
  }

  /** Section 3 of RFC 3629 round trip: decoding the encoding of a text without NUL gives it back,
      and the lead-byte walk counts its codepoints. */
  lemma TextRoundTrip(cps: seq<bv32>)
    requires forall i :: 0 <= i < |cps| ==> Scalar(cps[i])
    ensures Cells(Text(cps)) == |cps|
    ensures (forall i :: 0 <= i < |cps| ==> cps[i] != 0) ==> DecodeText(Text(cps)) == cps
  {
    assert Text(cps)[0..] == Text(cps);
    WalkText(Text(cps), 0, cps);
  }

  lemma DividerShort(ch: bv32)
    requires ch < 0x800
    ensures DecodeText(DividerBytes(ch)) == [ch] <==> 0 < ch
  {
    var g := DividerBytes(ch);
    if ch != 0 {
      assert g == Encode(ch) + Text([]);
      assert [ch][1..] == [];
      assert g == Text([ch]);
      TextRoundTrip([ch]);
    }
  }

  lemma DividerLong(ch: bv32)
    requires 0x800 <= ch
    ensures DecodeText(DividerBytes(ch)) == [ch] <==> ch < 0x1_0000
  {
    var g := DividerBytes(ch);
    if ch < 0x1_0000 {
      LeadOfDivider(ch);
      DecodeThree(g, 0, ch);
      ReassembleBelow(ch);
      assert DecodeFrom(g, 3) == [];
    } else if g[0] != 0 {
      DividerNarrow(g);
      assert DecodeText(g)[0] == NextCp(g, 0).0;
    }
  }

  lemma LeadOfDivider(ch: bv32)
    requires 0x800 <= ch < 0x1_0000
    ensures DividerBytes(ch)[0] >= 0x80 && DividerBytes(ch)[0] & 0xF0 == 0xE0
    ensures ((DividerBytes(ch)[0] & 0x0F) as bv32) == ch >> 12
  {
  }

  lemma ReassembleBelow(ch: bv32)
    requires ch < 0x1_0000
    ensures ((((ch >> 12) << 6) | ((ch >> 6) & 0x3F)) << 6) | (ch & 0x3F) == ch
  {
  }

  // Three bytes can only ever decode below 0x10000.
  lemma DividerNarrow(g: seq<bv8>)
    requires |g| == 3
    ensures NextCp(g, 0).0 < 0x1_0000
  {
    ContinueBelow(g, 1, (g[0] & 0x1F) as bv32, 1);
    ContinueBelow(g, 1, (g[0] & 0x0F) as bv32, 2);
    ContinueStops(g, (g[0] & 0x07) as bv32);
  }

  lemma ContinueBelow(s: seq<bv8>, p: nat, cp: bv32, extra: nat)
    requires extra == 0 ==> cp < 0x1_0000
    requires extra == 1 ==> cp < 0x400
    requires extra == 2 ==> cp < 0x10
    requires extra <= 2
    ensures Continue(s, p, cp, extra).0 < 0x1_0000
    decreases extra
  {
    if extra != 0 {
      ContinueBelow(s, p + 1, (cp << 6) | ((At(s, p) & 0x3F) as bv32), extra - 1);
    }
  }

  lemma ContinueStops(g: seq<bv8>, cp: bv32)
    requires |g| == 3
    ensures Continue(g, 1, cp, 3).0 == 0xFFFD
  {
    var c1 := (cp << 6) | ((At(g, 1) & 0x3F) as bv32);
    var c2 := (c1 << 6) | ((At(g, 2) & 0x3F) as bv32);
    assert Continue(g, 3, c2, 1).0 == 0xFFFD;
    assert Continue(g, 2, c1, 2).0 == 0xFFFD;
  }

  /** The divider's encoder is drawn back as the character it was given exactly on 1..0xFFFF. */
  lemma DividerDrawsItsCharacter(ch: bv32)
    ensures DecodeText(DividerBytes(ch)) == [ch] <==> 0 < ch < 0x1_0000
  {
    if ch < 0x800 {
      DividerShort(ch);
    } else {
      DividerLong(ch);
    }
  }
}
