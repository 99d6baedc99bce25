// Bytes split at a separator: the source at its newlines, a table row at its bars.
module SourceLines {
  const NEWLINE: bv8 := 0x0A

  /** The first b from i on, or the end. */
  function FindByte(t: seq<bv8>, i: nat, b: bv8): (e: nat)
    requires i <= |t|
    ensures i <= e <= |t|
    ensures e < |t| ==> t[e] == b
    ensures forall j :: i <= j < e ==> t[j] != b
    decreases |t| - i
  {
    if i < |t| && t[i] != b then FindByte(t, i + 1, b) else i
  }

  /** The pieces from i on; there is always a last one, perhaps empty. */
  function PiecesFrom(t: seq<bv8>, i: nat, sep: bv8): seq<seq<bv8>>
    requires i <= |t|
    decreases |t| - i
  {
    var e := FindByte(t, i, sep);
    [t[i..e]] + if e < |t| then PiecesFrom(t, e + 1, sep) else []
  }

  lemma FirstPiece(t: seq<bv8>, i: nat, sep: bv8)
    requires i <= |t|
    ensures var e := FindByte(t, i, sep);
      PiecesFrom(t, i, sep) == [t[i..e]] + if e < |t| then PiecesFrom(t, e + 1, sep) else []
  {
  }

  function Joined(pieces: seq<seq<bv8>>, sep: bv8): seq<bv8>
    requires pieces != []
  {
    if |pieces| == 1 then pieces[0] else pieces[0] + [sep] + Joined(pieces[1..], sep)
  }

  lemma JoinedCons(piece: seq<bv8>, rest: seq<seq<bv8>>, sep: bv8)
    requires rest != []
    ensures Joined([piece] + rest, sep) == piece + [sep] + Joined(rest, sep)
  {
    assert ([piece] + rest)[1..] == rest;
  }

  lemma JoinedOne(piece: seq<bv8>, sep: bv8)
    ensures Joined([piece], sep) == piece
  {
  }

  predicate Unbroken(piece: seq<bv8>, sep: bv8) {
    sep !in piece
  }

  /** Splitting loses nothing: the pieces hold no separator and joined by it are the whole. */
  lemma {:induction false} SplitThenJoin(t: seq<bv8>, i: nat, sep: bv8)
    requires i <= |t|
    ensures Joined(PiecesFrom(t, i, sep), sep) == t[i..]
    ensures forall k :: 0 <= k < |PiecesFrom(t, i, sep)| ==> Unbroken(PiecesFrom(t, i, sep)[k], sep)
    decreases |t| - i
  {
    hide Joined, PiecesFrom;
    var e := FindByte(t, i, sep);
    FirstPiece(t, i, sep);
    if e < |t| {
      var rest := PiecesFrom(t, e + 1, sep);
      SplitThenJoin(t, e + 1, sep);
      FirstPiece(t, e + 1, sep);
      JoinedCons(t[i..e], rest, sep);
      assert t[i..] == t[i..e] + [sep] + t[e + 1..];
      assert forall k :: 1 <= k < |[t[i..e]] + rest| ==> ([t[i..e]] + rest)[k] == rest[k - 1];
    } else {
      assert PiecesFrom(t, i, sep) == [t[i..e]];
      JoinedOne(t[i..e], sep);
      assert t[i..e] == t[i..];
    }
  }

  lemma FoundAt(t: seq<bv8>, i: nat, b: bv8, e: nat)
    requires i <= e <= |t| && (e < |t| ==> t[e] == b) && forall j :: i <= j < e ==> t[j] != b
    ensures FindByte(t, i, b) == e
  {
  }

  /** And it is the only such split: joining unbroken pieces and splitting again gives them back. */
  lemma {:induction false} JoinThenSplit(before: seq<bv8>, pieces: seq<seq<bv8>>, sep: bv8)
    requires pieces != [] && forall k :: 0 <= k < |pieces| ==> Unbroken(pieces[k], sep)
    ensures PiecesFrom(before + Joined(pieces, sep), |before|, sep) == pieces
    decreases |pieces|
  {
    hide Joined, PiecesFrom, FindByte;
    var t := before + Joined(pieces, sep);
    FirstPiece(t, |before|, sep);
    if |pieces| == 1 {
      JoinedOne(pieces[0], sep);
      assert pieces == [pieces[0]] && pieces[0] == pieces[0] + [];
      PieceAt(t, before, pieces[0], [], sep);
    } else {
      var rest := pieces[1..];
      JoinedCons(pieces[0], rest, sep);
      assert pieces == [pieces[0]] + rest;
      var after := [sep] + Joined(rest, sep);
      var further := before + pieces[0] + [sep];
      assert pieces[0] + [sep] + Joined(rest, sep) == pieces[0] + after;
      PieceAt(t, before, pieces[0], after, sep);
      assert before + (pieces[0] + after) == further + Joined(rest, sep);
      JoinThenSplit(further, rest, sep);
    }
  }

  lemma PieceAt(t: seq<bv8>, before: seq<bv8>, piece: seq<bv8>, after: seq<bv8>, sep: bv8)
    requires t == before + (piece + after) && Unbroken(piece, sep) && (after != [] ==> after[0] == sep)
    ensures FindByte(t, |before|, sep) == |before| + |piece| && t[|before|..|before| + |piece|] == piece
  {
    var e := |before| + |piece|;
    assert forall j :: |before| <= j < e ==> t[j] == piece[j - |before|];
    FoundAt(t, |before|, sep, e);
  }
}
