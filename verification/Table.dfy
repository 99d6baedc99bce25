// Fitting a table's columns to the page and breaking its cells into lines.

/** The arithmetic that fits column widths, in cells, to the available width. */
module TableFit {
  import opened Arith

  const GAP := 1

  function Min(a: nat, b: nat): nat { if a <= b then a else b }
  function Max(a: nat, b: nat): nat { if a >= b then a else b }

  function Sum(ws: seq<nat>): nat {
    if ws == [] then 0 else Sum(ws[..|ws| - 1]) + ws[|ws| - 1]
  }

  function Capped(ws: seq<nat>, cap: nat): (out: seq<nat>)
    ensures |out| == |ws|
  {
    seq(|ws|, (i: nat) requires i < |ws| => Min(ws[i], cap))
  }

  // The share of `room` a column of width w gets out of a total of `sum`.
  function Share(w: nat, room: nat, sum: nat): nat
    requires sum > 0
  {
    w * room / sum
  }

  /** Proportional shares, none below two cells. */
  function Scaled(ws: seq<nat>, room: nat, sum: nat): (out: seq<nat>)
    requires sum > 0
    ensures |out| == |ws|
  {
    seq(|ws|, (i: nat) requires i < |ws| => Max(2, Share(ws[i], room, sum)))
  }

  // How many columns the two-cell floor raised.
  function Raised(ws: seq<nat>, room: nat, sum: nat): nat
    requires sum > 0
  {
    if ws == [] then 0
    else Raised(ws[..|ws| - 1], room, sum) + if Share(ws[|ws| - 1], room, sum) < 2 then 1 else 0
  }

  // The first column of greatest width among the first n.
  function Widest(ws: seq<nat>, n: nat): (k: nat)
    requires 0 < n <= |ws|
    ensures k < n && forall i :: 0 <= i < n ==> ws[i] <= ws[k]
    ensures forall i :: 0 <= i < k ==> ws[i] < ws[k]
  {
    if n == 1 then 0
    else
      var k := Widest(ws, n - 1);
      if ws[n - 1] > ws[k] then n - 1 else k
  }

  function Topped(ws: seq<nat>, room: nat): (out: seq<nat>)
    requires ws != []
    ensures |out| == |ws|
  {
    if Sum(ws) < room
    then ws[Widest(ws, |ws|) := ws[Widest(ws, |ws|)] + (room - Sum(ws))]
    else ws
  }

  predicate NeedsScaling(ws: seq<nat>, avail: nat) {
    Sum(Capped(ws, avail / 2)) + |ws| * GAP > avail
  }

  /** The widths the columns are drawn at. */
  function Fitted(ws: seq<nat>, avail: nat): (out: seq<nat>)
    requires 0 < |ws| <= avail
    ensures |out| == |ws|
  {
    var capped := Capped(ws, avail / 2);
    if !NeedsScaling(ws, avail) then capped
    else Topped(Scaled(capped, avail - |ws|, Sum(capped)), avail - |ws|)
  }

  // ---- Sums -----------------------------------------------------------

  lemma {:induction false} SumUpdate(ws: seq<nat>, k: nat, v: nat)
    requires k < |ws|
    ensures Sum(ws[k := v]) == Sum(ws) - ws[k] + v
    decreases |ws|
  {
    var n := |ws| - 1;
    if k < n {
      assert ws[k := v][..n] == ws[..n][k := v];
      SumUpdate(ws[..n], k, v);
    } else {
      assert ws[k := v][..n] == ws[..n];
    }
  }

  lemma {:induction false} SumBoundsEach(ws: seq<nat>, i: nat)
    requires i < |ws|
    ensures ws[i] <= Sum(ws)
    decreases |ws|
  {
    if i < |ws| - 1 {
      SumBoundsEach(ws[..|ws| - 1], i);
    }
  }

  // Floors of proportional shares never exceed the proportional total.
  lemma {:induction false} SharesFit(ws: seq<nat>, room: nat, sum: nat)
    requires sum > 0
    ensures Sum(Scaled(ws, room, sum)) <= Share(Sum(ws), room, sum) + 2 * Raised(ws, room, sum)
    ensures Raised(ws, room, sum) == 0 ==> Sum(Scaled(ws, room, sum)) <= Share(Sum(ws), room, sum)
    decreases |ws|
  {
    var n := |ws| - 1;
    if ws == [] {
      ShareOfNothing(room, sum);
    } else {
      var head, w := ws[..n], ws[n];
      assert Scaled(ws, room, sum)[..n] == Scaled(head, room, sum);
      SharesFit(head, room, sum);
      SharesAdd(Sum(head), w, room, sum);
      hide Share;
      assert Sum(ws) == Sum(head) + w;
      assert Sum(Scaled(ws, room, sum)) == Sum(Scaled(head, room, sum)) + Max(2, Share(w, room, sum));
    }
  }

  lemma ShareOfNothing(room: nat, sum: nat)
    requires sum > 0
    ensures Share(0, room, sum) == 0
  {
    Quotient(0, sum, 0);
  }

  lemma SharesAdd(a: nat, b: nat, room: nat, sum: nat)
    requires sum > 0
    ensures Share(a, room, sum) + Share(b, room, sum) <= Share(a + b, room, sum)
  {
    Distributes(a, b, room);
    FloorsAdd(a * room, b * room, sum);
  }

  // ---- The result -----------------------------------------------------

  lemma FittedKeepsNatural(ws: seq<nat>, avail: nat)
    requires 0 < |ws| <= avail && Sum(Capped(ws, avail / 2)) + |ws| <= avail
    ensures Sum(Fitted(ws, avail)) + |ws| <= avail
    ensures forall i :: 0 <= i < |ws| ==> Fitted(ws, avail)[i] == Min(ws[i], avail / 2)
  {
  }

  /** When scaling is needed every column ends at least two cells wide, and the total lies between the
      room and the room plus two cells for each column the floor raised. */
  lemma FittedScales(ws: seq<nat>, avail: nat)
    requires 0 < |ws| < avail && Sum(Capped(ws, avail / 2)) + |ws| > avail
    ensures Sum(Capped(ws, avail / 2)) > 0
    ensures var room := avail - |ws|;
      var k := Raised(Capped(ws, avail / 2), room, Sum(Capped(ws, avail / 2)));
      && room <= Sum(Fitted(ws, avail)) <= room + 2 * k
      && (k == 0 ==> Sum(Fitted(ws, avail)) == room)
    ensures forall i :: 0 <= i < |ws| ==> Fitted(ws, avail)[i] >= 2
  {
    var capped := Capped(ws, avail / 2);
    var sum, room := Sum(capped), avail - |ws|;
    var scaled := Scaled(capped, room, sum);
    SharesFit(capped, room, sum);
    Cancels(sum, room);
    ToppedSum(scaled, room);
    ToppedGrows(scaled, room);
  }

  lemma ToppedSum(ws: seq<nat>, room: nat)
    requires ws != []
    ensures Sum(Topped(ws, room)) == Max(Sum(ws), room)
  {
    if Sum(ws) < room {
      var k := Widest(ws, |ws|);
      SumUpdate(ws, k, ws[k] + (room - Sum(ws)));
    }
  }

  lemma ToppedGrows(ws: seq<nat>, room: nat)
    requires ws != []
    ensures forall i :: 0 <= i < |ws| ==> Topped(ws, room)[i] >= ws[i]
  {
    hide Sum;
  }

  /** What a column may take of the room when the table does not fit: its share of it, and two cells at least. */
  function Due(ws: seq<nat>, avail: nat, i: nat): nat
    requires 0 < |ws| <= avail && i < |ws| && Sum(Capped(ws, avail / 2)) > 0
  {
    var share := Min(ws[i], avail / 2) * (avail - |ws|) / Sum(Capped(ws, avail / 2));
    if share < 2 then 2 else share
  }

  /** No column gets less than its due, and only the first of those with the most due gets more: what is left of the room. */
  lemma OnlyTheWidestGrows(ws: seq<nat>, avail: nat, i: nat)
    requires 0 < |ws| < avail && Sum(Capped(ws, avail / 2)) + |ws| > avail && i < |ws|
    ensures Sum(Capped(ws, avail / 2)) > 0 && Fitted(ws, avail)[i] >= Due(ws, avail, i)
    ensures Fitted(ws, avail)[i] > Due(ws, avail, i) ==>
              && (forall j :: 0 <= j < |ws| ==> Due(ws, avail, j) <= Due(ws, avail, i))
              && (forall j :: 0 <= j < i ==> Due(ws, avail, j) < Due(ws, avail, i))
              && (forall j :: 0 <= j < |ws| && j != i ==> Fitted(ws, avail)[j] == Due(ws, avail, j))
              && Sum(Fitted(ws, avail)) == avail - |ws|
  {
    FittedScales(ws, avail);
    var capped := Capped(ws, avail / 2);
    var scaled := Scaled(capped, avail - |ws|, Sum(capped));
    assert forall j :: 0 <= j < |ws| ==> scaled[j] == Due(ws, avail, j);
    hide Due;
    ToppedSum(scaled, avail - |ws|);
  }

  /** The columns and the gaps between them fit the page; nothing follows the last column. */
  predicate ColumnsFit(ws: seq<nat>, avail: nat)
    requires 0 < |ws| <= avail
  {
    Sum(Fitted(ws, avail)) + (|ws| - 1) * GAP <= avail
  }

  /** They do exactly when no scaling was needed or the floors pushed the total at most one cell past the
      room, the one the scaling set aside for a gap that is not there. */
  lemma ColumnsFitIff(ws: seq<nat>, avail: nat)
    requires 0 < |ws| < avail
    ensures NeedsScaling(ws, avail) ==> Sum(Capped(ws, avail / 2)) > 0
    ensures ColumnsFit(ws, avail) <==>
      (NeedsScaling(ws, avail) ==>
         Sum(Scaled(Capped(ws, avail / 2), avail - |ws|, Sum(Capped(ws, avail / 2)))) <= avail - |ws| + 1)
  {
    if NeedsScaling(ws, avail) {
      var capped := Capped(ws, avail / 2);
      ToppedSum(Scaled(capped, avail - |ws|, Sum(capped)), avail - |ws|);
    } else {
      FittedKeepsNatural(ws, avail);
    }
  }

  /** Six columns at depth zero whose floors overflow the page: 63 cells against a room of 60. */
  lemma FloorOverflows()
    ensures Fitted([33, 33, 33, 1, 1, 1], 66) == [19, 19, 19, 2, 2, 2]
    ensures Sum(Fitted([33, 33, 33, 1, 1, 1], 66)) == 63
    ensures !ColumnsFit([33, 33, 33, 1, 1, 1], 66)
  {
    var ws: seq<nat> := [33, 33, 33, 1, 1, 1];
    assert Capped(ws, 33) == ws;
    SumSix(33, 33, 33, 1, 1, 1);
    var scaled := Scaled(ws, 60, 102);
    assert scaled == [19, 19, 19, 2, 2, 2];
    SumSix(19, 19, 19, 2, 2, 2);
  }

  lemma SumSix(a: nat, b: nat, c: nat, d: nat, e: nat, f: nat)
    ensures Sum([a, b, c, d, e, f]) == a + b + c + d + e + f
  {
    SumSnoc([], a);
    SumSnoc([a], b);
    SumSnoc([a, b], c);
    SumSnoc([a, b, c], d);
    SumSnoc([a, b, c, d], e);
    SumSnoc([a, b, c, d, e], f);
    assert [] + [a] == [a] && [a] + [b] == [a, b] && [a, b] + [c] == [a, b, c];
    assert [a, b, c] + [d] == [a, b, c, d] && [a, b, c, d] + [e] == [a, b, c, d, e];
    assert [a, b, c, d, e] + [f] == [a, b, c, d, e, f];
  }

  lemma SumSnoc(ws: seq<nat>, w: nat)
    ensures Sum(ws + [w]) == Sum(ws) + w
  {
    assert (ws + [w])[..|ws|] == ws;
  }

  // ---- The loops ------------------------------------------------------

  /** Fits the first `cols` widths in place. */
  method FitColumns(colW: array<nat>, cols: nat, avail: nat)
    requires 0 < cols <= colW.Length && cols < avail
    modifies colW
    ensures colW[..cols] == Fitted(old(colW[..cols]), avail)
    ensures colW[cols..] == old(colW[cols..])
  {
    hide Capped, Scaled, Sum, Share;
    CapColumns(colW, cols, avail / 2);
    var sum := SumOf(colW, cols);
    var natural := sum + cols * GAP;
    if natural > avail {
      var room := avail - cols * GAP;
      // Nothing to share out cannot be too wide: the gaps alone always fit.
      ScaleColumns(colW, cols, room, sum);
      TopUp(colW, cols, room);
    }
  }

  method TopUp(colW: array<nat>, cols: nat, room: nat)
    requires 0 < cols <= colW.Length
    modifies colW
    ensures colW[..cols] == Topped(old(colW[..cols]), room)
    ensures colW[cols..] == old(colW[cols..])
  {
    hide Sum;
    var used := SumOf(colW, cols);
    if used < room {
      var widest := WidestOf(colW, cols);
      ghost var before := colW[..cols];
      colW[widest] := colW[widest] + (room - used);
      assert colW[..cols] == before[widest := before[widest] + (room - used)];
    }
  }

  method CapColumns(colW: array<nat>, cols: nat, cap: nat)
    requires cols <= colW.Length
    modifies colW
    ensures colW[..cols] == Capped(old(colW[..cols]), cap)
    ensures colW[cols..] == old(colW[cols..])
  {
    for c := 0 to cols
      invariant colW[cols..] == old(colW[cols..])
      invariant forall i :: 0 <= i < c ==> colW[i] == Min(old(colW[i]), cap)
      invariant forall i :: c <= i < cols ==> colW[i] == old(colW[i])
    {
      if colW[c] > cap {
        colW[c] := cap;
      }
    }
  }

  method ScaleColumns(colW: array<nat>, cols: nat, room: nat, sum: nat)
    requires cols <= colW.Length && sum > 0
    modifies colW
    ensures colW[..cols] == Scaled(old(colW[..cols]), room, sum)
    ensures colW[cols..] == old(colW[cols..])
  {
    hide Share;
    for c := 0 to cols
      invariant colW[cols..] == old(colW[cols..])
      invariant forall i :: 0 <= i < c ==> colW[i] == Max(2, Share(old(colW[i]), room, sum))
      invariant forall i :: c <= i < cols ==> colW[i] == old(colW[i])
    {
      var w := Share(colW[c], room, sum);
      colW[c] := if w < 2 then 2 else w;
    }
  }

  method SumOf(a: array<nat>, n: nat) returns (total: nat)
    requires n <= a.Length
    ensures total == Sum(a[..n])
  {
    total := 0;
    for c := 0 to n
      invariant total == Sum(a[..c])
    {
      assert a[..c + 1][..c] == a[..c];
      total := total + a[c];
    }
  }

  method WidestOf(a: array<nat>, n: nat) returns (widest: nat)
    requires 0 < n <= a.Length
    ensures widest == Widest(a[..n], n)
  {
    widest := 0;
    for c := 1 to n
      invariant widest == Widest(a[..n], c)
    {
      if a[c] > a[widest] {
        widest := c;
      }
    }
  }
}
