/** Tables as the experiment code sees them through numpy: a 2-D table is
    stored row-major in one flat sequence (what `.values.reshape(size)`
    exposes), a batch of rows is flattened with `.flatten()` and rebuilt
    with `.reshape(h, w)`, a slice assignment overwrites one contiguous
    window of the flat view, and a slice read follows Python's rules. */
module Grid {

  /** A batch of `h` rows, each of width `w`. */
  ghost predicate IsMatrix<T>(rows: seq<seq<T>>, h: nat, w: nat)
  {
    |rows| == h && forall i :: 0 <= i < |rows| ==> |rows[i]| == w
  }

  /** Row-major concatenation of the rows (`ndarray.flatten()`). */
  function Flatten<T>(rows: seq<seq<T>>): seq<T>
  {
    if rows == [] then [] else rows[0] + Flatten(rows[1..])
  }

  /** `s.reshape(h, w)`: cut the flat sequence into `h` rows of width `w`. */
  function Reshape<T>(s: seq<T>, h: nat, w: nat): (rows: seq<seq<T>>)
    requires |s| == h * w
    ensures |rows| == h
    decreases h
  {
    if h == 0 then []
    else
      assert |s| == w + (h - 1) * w;
      [s[..w]] + Reshape(s[w..], h - 1, w)
  }

  /** `a[start:start+len(data)] = data` on the flat view. */
  function Overwrite<T>(s: seq<T>, start: nat, data: seq<T>): (r: seq<T>)
    requires start + |data| <= |s|
    ensures |r| == |s|
    ensures forall i :: 0 <= i < |s| && !(start <= i < start + |data|) ==> r[i] == s[i]
    ensures forall i :: 0 <= i < |data| ==> r[start + i] == data[i]
  {
    s[..start] + data + s[start + |data|..]
  }

  /** `table.iloc[row:row+h, :] = rows` on the flat view of a table of
      width `w`. */
  function OverwriteRows<T>(s: seq<T>, row: nat, rows: seq<seq<T>>, h: nat, w: nat): (r: seq<T>)
    requires IsMatrix(rows, h, w) && (row + h) * w <= |s|
    ensures |r| == |s|
  {
    FlattenLength(rows, h, w);
    assert (row + h) * w == row * w + h * w;
    Overwrite(s, row * w, Flatten(rows))
  }

  function Min(a: nat, b: nat): nat { if a <= b then a else b }

  /** Python's `s[a:b]` for non-negative bounds: both bounds are clipped to
      the length, and an empty range gives the empty sequence. */
  function PySlice<T>(s: seq<T>, a: nat, b: nat): (r: seq<T>)
    ensures |r| == if Min(a, |s|) <= Min(b, |s|) then Min(b, |s|) - Min(a, |s|) else 0
    ensures forall i :: 0 <= i < |r| ==> r[i] == s[a + i]
    ensures b <= |s| && a <= b ==> r == s[a..b]
  {
    var lo, hi := Min(a, |s|), Min(b, |s|);
    if lo <= hi then s[lo..hi] else []
  }

  ghost predicate AllZero(s: seq<real>)
  {
    forall i :: 0 <= i < |s| ==> s[i] == 0.0
  }

  // ---------------------------------------------------------------------
  // Arithmetic facts about the flat layout

  lemma MulMono(a: int, b: int, c: nat)
    requires a <= b
    ensures a * c <= b * c
  {
    assert (b - a) * c >= 0;
  }

  /** A bound on a row count scales to a bound on the flat view. */
  lemma ScaleBound(e: nat, t: nat, c: nat, w: nat)
    requires e <= t * c
    ensures e * w <= t * (c * w)
  {
    MulMono(e, t * c, w);
    assert (t * c) * w == t * (c * w);
  }

  /** Division by a positive number is monotone. */
  lemma DivMono(a: int, b: int, d: int)
    requires a <= b && d > 0
    ensures a / d <= b / d
  {
    var qa, qb := a / d, b / d;
    assert a == qa * d + a % d && b == qb * d + b % d;
    if qa > qb {
      MulMono(qb + 1, qa, d);
      assert false;
    }
  }

  /** The position `q*d + r` (with `r < d`) has row `q` and column `r`. */
  lemma DivModOf(x: int, d: int, q: int, r: int)
    requires d > 0 && 0 <= r < d && x == q * d + r
    ensures x / d == q && x % d == r
  {
    var q', r' := x / d, x % d;
    assert x == q' * d + r';
    if q' > q {
      MulMono(q + 1, q', d);
      assert false;
    } else if q' < q {
      MulMono(q' + 1, q, d);
      assert false;
    }
  }

  /** `h` rows of `w` elements flatten to `h*w` elements. */
  lemma {:induction false} FlattenLength<T>(rows: seq<seq<T>>, h: nat, w: nat)
    requires IsMatrix(rows, h, w)
    ensures |Flatten(rows)| == h * w
    decreases h
  {
    if h > 0 {
      assert IsMatrix(rows[1..], h - 1, w);
      FlattenLength(rows[1..], h - 1, w);
      assert |Flatten(rows)| == w + (h - 1) * w;
    }
  }

  /** Appending a row appends its elements. */
  lemma {:induction false} FlattenSnoc<T>(rows: seq<seq<T>>, last: seq<T>)
    ensures Flatten(rows + [last]) == Flatten(rows) + last
  {
    if |rows| == 0 {
      assert rows + [last] == [last] && [last][1..] == [];
    } else {
      assert (rows + [last])[0] == rows[0] && (rows + [last])[1..] == rows[1..] + [last];
      FlattenSnoc(rows[1..], last);
    }
  }

  /** Element `k` of row `i` sits at flat position `i*w + k`. */
  lemma {:induction false} FlattenAt<T>(rows: seq<seq<T>>, h: nat, w: nat, i: nat, k: nat)
    requires IsMatrix(rows, h, w) && i < h && k < w
    ensures i * w + k < |Flatten(rows)|
    ensures Flatten(rows)[i * w + k] == rows[i][k]
    decreases i
  {
    var rest := rows[1..];
    assert IsMatrix(rest, h - 1, w);
    assert Flatten(rows) == rows[0] + Flatten(rest);
    if i == 0 {
      assert k < |rows[0]|;
    } else {
      FlattenAt(rest, h - 1, w, i - 1, k);
      var x := (i - 1) * w + k;
      assert i * w + k == w + x;
      assert Flatten(rows)[w + x] == Flatten(rest)[x];
      assert rest[i - 1] == rows[i];
    }
  }

  /** Row `i` of `s.reshape(h, w)` is the flat window `[i*w, i*w + w)`. */
  lemma {:induction false} ReshapeAt<T>(s: seq<T>, h: nat, w: nat, i: nat, k: nat)
    requires |s| == h * w && i < h && k < w
    ensures i * w + k < |s|
    ensures |Reshape(s, h, w)[i]| == w && Reshape(s, h, w)[i][k] == s[i * w + k]
    decreases i
  {
    assert |s| == w + (h - 1) * w;
    var rest := Reshape(s[w..], h - 1, w);
    assert Reshape(s, h, w) == [s[..w]] + rest;
    if i > 0 {
      var x := (i - 1) * w + k;
      ReshapeAt(s[w..], h - 1, w, i - 1, k);
      assert i * w + k == w + x;
      assert Reshape(s, h, w)[i] == rest[i - 1];
      assert s[w..][x] == s[w + x];
    }
  }

  lemma ReshapeIsMatrix<T>(s: seq<T>, h: nat, w: nat)
    requires |s| == h * w
    ensures IsMatrix(Reshape(s, h, w), h, w)
  {
    forall i | 0 <= i < h ensures |Reshape(s, h, w)[i]| == w {
      if w > 0 { ReshapeAt(s, h, w, i, 0); } else { ReshapeRowWidth(s, h, w, i); }
    }
  }

  lemma {:induction false} ReshapeRowWidth<T>(s: seq<T>, h: nat, w: nat, i: nat)
    requires |s| == h * w && i < h
    ensures |Reshape(s, h, w)[i]| == w
    decreases i
  {
    assert |s| == w + (h - 1) * w;
    if i > 0 { ReshapeRowWidth(s[w..], h - 1, w, i - 1); }
  }

  /** Reading back a flattened batch with the same shape gives the batch. */
  lemma ReshapeFlatten<T>(rows: seq<seq<T>>, h: nat, w: nat)
    requires IsMatrix(rows, h, w)
    ensures |Flatten(rows)| == h * w && Reshape(Flatten(rows), h, w) == rows
  {
    FlattenLength(rows, h, w);
    var back := Reshape(Flatten(rows), h, w);
    ReshapeIsMatrix(Flatten(rows), h, w);
    forall i, k | 0 <= i < h && 0 <= k < w ensures back[i][k] == rows[i][k] {
      ReshapeAt(Flatten(rows), h, w, i, k);
      FlattenAt(rows, h, w, i, k);
    }
  }

  /** Flattening a reshaped sequence gives the sequence. */
  lemma FlattenReshape<T>(s: seq<T>, h: nat, w: nat)
    requires |s| == h * w
    ensures Flatten(Reshape(s, h, w)) == s
  {
    var rows := Reshape(s, h, w);
    ReshapeIsMatrix(s, h, w);
    FlattenLength(rows, h, w);
    forall x | 0 <= x < |s| ensures Flatten(rows)[x] == s[x] {
      assert w > 0;
      var i, k := x / w, x % w;
      assert x == i * w + k;
      if i >= h { MulMono(h, i, w); }
      FlattenAt(rows, h, w, i, k);
      ReshapeAt(s, h, w, i, k);
    }
  }

  /** `table.values[row:row+h, :]` as a batch, from the flat view of a
      table of width `w`. */
  function ReadRows<T>(s: seq<T>, row: nat, h: nat, w: nat): (rows: seq<seq<T>>)
    requires (row + h) * w <= |s|
    ensures IsMatrix(rows, h, w)
  {
    assert (row + h) * w == row * w + h * w;
    ReshapeIsMatrix(s[row * w..row * w + h * w], h, w);
    Reshape(s[row * w..row * w + h * w], h, w)
  }

  /** Entry `k` of read row `j` is the flat cell `(row + j)*w + k`. */
  lemma ReadRowsAt<T>(s: seq<T>, row: nat, h: nat, w: nat, j: nat, k: nat)
    requires (row + h) * w <= |s| && j < h && k < w
    ensures (row + j) * w + k < |s|
    ensures ReadRows(s, row, h, w)[j][k] == s[(row + j) * w + k]
  {
    assert (row + h) * w == row * w + h * w;
    var window := s[row * w..row * w + h * w];
    ReshapeAt(window, h, w, j, k);
    MulMono(row + j + 1, row + h, w);
    assert (row + j) * w + k == row * w + (j * w + k);
  }

  /** Reading back the rows just written gives them back. */
  lemma ReadOverwriteRows<T>(s: seq<T>, row: nat, rows: seq<seq<T>>, h: nat, w: nat)
    requires IsMatrix(rows, h, w) && (row + h) * w <= |s|
    ensures ReadRows(OverwriteRows(s, row, rows, h, w), row, h, w) == rows
  {
    FlattenLength(rows, h, w);
    assert (row + h) * w == row * w + h * w;
    var after := OverwriteRows(s, row, rows, h, w);
    assert after[row * w..row * w + h * w] == Flatten(rows);
    ReshapeFlatten(rows, h, w);
  }

  /** After a row write, entry `k` of written row `j` is at
      `(row + j)*w + k`, and every cell outside the rows is unchanged. */
  lemma OverwriteRowsAt<T>(s: seq<T>, row: nat, rows: seq<seq<T>>, h: nat, w: nat, j: nat, k: nat)
    requires IsMatrix(rows, h, w) && (row + h) * w <= |s| && j < h && k < w
    ensures (row + j) * w + k < |s|
    ensures OverwriteRows(s, row, rows, h, w)[(row + j) * w + k] == rows[j][k]
  {
    FlattenLength(rows, h, w);
    FlattenAt(rows, h, w, j, k);
    MulMono(row + j + 1, row + h, w);
    assert (row + j) * w + k == row * w + (j * w + k);
  }

  lemma OverwriteRowsOutside<T>(s: seq<T>, row: nat, rows: seq<seq<T>>, h: nat, w: nat, i: nat)
    requires IsMatrix(rows, h, w) && (row + h) * w <= |s| && i < |s|
    requires i < row * w || (row + h) * w <= i
    ensures OverwriteRows(s, row, rows, h, w)[i] == s[i]
  {
    FlattenLength(rows, h, w);
    assert (row + h) * w == row * w + h * w;
  }

  /** Rows that end before a write read back as they were. */
  lemma ReadRowsBeforeOverwrite<T>(s: seq<T>, start: nat, data: seq<T>, row: nat, h: nat, w: nat)
    requires start + |data| <= |s| && (row + h) * w <= start
    ensures ReadRows(Overwrite(s, start, data), row, h, w) == ReadRows(s, row, h, w)
  {
    assert (row + h) * w == row * w + h * w;
    assert Overwrite(s, start, data)[row * w..row * w + h * w] == s[row * w..row * w + h * w];
  }

  /** Rows that end before a row-block write read back as they were. */
  lemma ReadRowsBeforeOverwriteRows<T>(s: seq<T>, row: nat, rows: seq<seq<T>>, h: nat, w: nat, row0: nat, h0: nat)
    requires IsMatrix(rows, h, w) && (row + h) * w <= |s| && row0 + h0 <= row
    ensures (row0 + h0) * w <= |s|
    ensures ReadRows(OverwriteRows(s, row, rows, h, w), row0, h0, w) == ReadRows(s, row0, h0, w)
  {
    FlattenLength(rows, h, w);
    MulMono(row0 + h0, row, w);
    assert (row + h) * w == row * w + h * w;
    ReadRowsBeforeOverwrite(s, row * w, Flatten(rows), row0, h0, w);
  }

  // ---------------------------------------------------------------------
  // The in-place operations on a table's flat view

  /** Slice assignment `a[start:start+len(data)] = data`. */
  method WriteSlice(a: array<real>, start: nat, data: seq<real>)
    requires start + |data| <= a.Length
    modifies a
    ensures a[..] == Overwrite(old(a[..]), start, data)
  {
    var i := 0;
    while i < |data|
      invariant 0 <= i <= |data|
      invariant a[..] == Overwrite(old(a[..]), start, data[..i])
    {
      a[start + i] := data[i];
      i := i + 1;
      assert data[..i] == data[..i - 1] + [data[i - 1]];
    }
    assert data[..|data|] == data;
  }

  /** Row write `a.iloc[row:row+h, :] = rows` on a flat table. */
  method WriteRows(a: array<real>, row: nat, rows: seq<seq<real>>, h: nat, w: nat)
    requires IsMatrix(rows, h, w) && (row + h) * w <= a.Length
    modifies a
    ensures a[..] == OverwriteRows(old(a[..]), row, rows, h, w)
  {
    FlattenLength(rows, h, w);
    assert (row + h) * w == row * w + h * w;
    WriteSlice(a, row * w, Flatten(rows));
  }

  /** `np.zeros(n)` as a fresh flat table. */
  method Zeros(n: nat) returns (a: array<real>)
    ensures fresh(a) && a.Length == n && AllZero(a[..])
  {
    a := new real[n](_ => 0.0);
  }
}
