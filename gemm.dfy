/**
 * The host-side reference GEMM: `scoped` computes result = beta*C + alpha*A*B on
 * the leading m x n block of the column-major matrix C, on a copy of C.
 */
module Gemm {
  import Arith

  /** Offset of the entry in row `row` of column `col` of a column-major matrix with leading dimension `ld`. */
  function Idx(col: nat, row: nat, ld: nat): nat { col * ld + row }

  /** Reading past the end of a JavaScript array; never happens under the preconditions of Scoped. */
  function At(s: seq<int>, i: int): int { if 0 <= i < |s| then s[i] else 0 }

  /** `p` lies in the first `rows` rows of column `col`. */
  predicate InColumn(p: nat, ld: nat, rows: nat, col: nat) { ld > 0 && p / ld == col && p % ld < rows }

  /** `p` lies in the leading `rows` x `cols` block. */
  predicate InBlock(p: nat, ld: nat, rows: nat, cols: nat) { ld > 0 && p / ld < cols && p % ld < rows }

  /**
   * The first `count` products accumulated into entry (row, col), each taken as
   * (alpha * b[col*ldb + l]) * a[l*lda + row], in the order the loops add them.
   */
  function ColumnDot(a: seq<int>, b: seq<int>, lda: nat, ldb: nat, alpha: int, row: nat, col: nat, count: nat): int
  {
    if count == 0 then 0
    else ColumnDot(a, b, lda, ldb, alpha, row, col, count - 1)
         + alpha * At(b, col * ldb + count - 1) * At(a, (count - 1) * lda + row)
  }

  /** What the caller must supply: non-overlapping columns of C and inputs long enough for every index used. */
  predicate Fits(a: seq<int>, b: seq<int>, c: seq<int>, lda: nat, ldb: nat, ldc: nat, m: nat, n: nat, k: nat)
  {
    && m <= ldc
    && (m > 0 && k > 0 ==> (k - 1) * lda + m <= |a|)
    && (n > 0 && k > 0 ==> (n - 1) * ldb + k <= |b|)
    && (m > 0 && n > 0 ==> (n - 1) * ldc + m <= |c|)
  }

  /** The matrix `scoped` returns: C with its leading m x n block replaced by beta*C + alpha*A*B. */
  function ScopedSpec(a: seq<int>, b: seq<int>, c: seq<int>, lda: nat, ldb: nat, ldc: nat,
                      m: nat, n: nat, k: nat, alpha: int, beta: int): (r: seq<int>)
    ensures |r| == |c|
  {
    seq(|c|, p requires 0 <= p < |c| =>
      if InBlock(p, ldc, m, n) then beta * c[p] + ColumnDot(a, b, lda, ldb, alpha, p % ldc, p / ldc, k)
      else c[p])
  }

  /** The offset of (row, col) determines row and col back, as long as the row is within the leading dimension. */
  lemma {:induction false} DivModIdx(col: nat, row: nat, ld: nat)
    requires row < ld
    ensures Idx(col, row, ld) / ld == col && Idx(col, row, ld) % ld == row
  {
    var p := Idx(col, row, ld);
    var q, r := p / ld, p % ld;
    assert p == q * ld + r;
    if q < col {
      Arith.MulLe(q + 1, col, ld);
      assert false;
    } else if q > col {
      Arith.MulLe(col + 1, q, ld);
      assert false;
    }
  }

  /**
   * Entry (row, col) of the leading m x n block is beta*c plus the k products
   * alpha*b*a, and its offset is inside c.
   */
  lemma {:induction false} ScopedEntry(a: seq<int>, b: seq<int>, c: seq<int>, lda: nat, ldb: nat, ldc: nat,
                    m: nat, n: nat, k: nat, alpha: int, beta: int, row: nat, col: nat)
    requires Fits(a, b, c, lda, ldb, ldc, m, n, k)
    requires row < m && col < n
    ensures Idx(col, row, ldc) < |c|
    ensures ScopedSpec(a, b, c, lda, ldb, ldc, m, n, k, alpha, beta)[Idx(col, row, ldc)]
            == beta * c[Idx(col, row, ldc)] + ColumnDot(a, b, lda, ldb, alpha, row, col, k)
  {
    Arith.MulLe(col, n - 1, ldc);
    DivModIdx(col, row, ldc);
  }

  /** Entries below row m of a column, or in columns from n on, are those of c. */
  lemma {:induction false} ScopedOutsideBlock(a: seq<int>, b: seq<int>, c: seq<int>, lda: nat, ldb: nat, ldc: nat,
                           m: nat, n: nat, k: nat, alpha: int, beta: int, row: nat, col: nat)
    requires row < ldc && Idx(col, row, ldc) < |c|
    requires row >= m || col >= n
    ensures ScopedSpec(a, b, c, lda, ldb, ldc, m, n, k, alpha, beta)[Idx(col, row, ldc)] == c[Idx(col, row, ldc)]
  {
    DivModIdx(col, row, ldc);
  }

  /** With k = 0 no product is added: every block entry is beta times the entry of c. */
  lemma {:induction false} ScopedNoTerms(a: seq<int>, b: seq<int>, c: seq<int>, lda: nat, ldb: nat, ldc: nat,
                      m: nat, n: nat, alpha: int, beta: int, row: nat, col: nat)
    requires Fits(a, b, c, lda, ldb, ldc, m, n, 0)
    requires row < m && col < n
    ensures ScopedSpec(a, b, c, lda, ldb, ldc, m, n, 0, alpha, beta)[Idx(col, row, ldc)] == beta * c[Idx(col, row, ldc)]
  {
    ScopedEntry(a, b, c, lda, ldb, ldc, m, n, 0, alpha, beta, row, col);
  }

  /** The identity example's accumulated sum for entry (row, col). */
  lemma {:induction false} IdentityExampleDot(row: nat, col: nat)
    requires row < 2 && col < 2
    ensures ColumnDot([1, 2, 3, 4], [1, 0, 0, 1], 2, 2, 1, row, col, 2) == [1, 2, 3, 4][Idx(col, row, 2)]
  {
    if row == 0 && col == 0 {
      assert ColumnDot([1, 2, 3, 4], [1, 0, 0, 1], 2, 2, 1, 0, 0, 2) == 1;
    } else if row == 1 && col == 0 {
      assert ColumnDot([1, 2, 3, 4], [1, 0, 0, 1], 2, 2, 1, 1, 0, 2) == 2;
    } else if row == 0 {
      assert ColumnDot([1, 2, 3, 4], [1, 0, 0, 1], 2, 2, 1, 0, 1, 2) == 3;
    } else {
      assert ColumnDot([1, 2, 3, 4], [1, 0, 0, 1], 2, 2, 1, 1, 1, 2) == 4;
    }
  }

  /** Multiplying by the 2 x 2 identity with alpha = 1, beta = 0 returns A. */
  lemma {:induction false} ScopedIdentityExample()
    ensures ScopedSpec([1, 2, 3, 4], [1, 0, 0, 1], [0, 0, 0, 0], 2, 2, 2, 2, 2, 2, 1, 0) == [1, 2, 3, 4]
  {
    var a, b, c := [1, 2, 3, 4], [1, 0, 0, 1], [0, 0, 0, 0];
    var r := ScopedSpec(a, b, c, 2, 2, 2, 2, 2, 2, 1, 0);
    assert r[0] == 1 by { IdentityExampleDot(0, 0); ScopedEntry(a, b, c, 2, 2, 2, 2, 2, 2, 1, 0, 0, 0); }
    assert r[1] == 2 by { IdentityExampleDot(1, 0); ScopedEntry(a, b, c, 2, 2, 2, 2, 2, 2, 1, 0, 1, 0); }
    assert r[2] == 3 by { IdentityExampleDot(0, 1); ScopedEntry(a, b, c, 2, 2, 2, 2, 2, 2, 1, 0, 0, 1); }
    assert r[3] == 4 by { IdentityExampleDot(1, 1); ScopedEntry(a, b, c, 2, 2, 2, 2, 2, 2, 1, 0, 1, 1); }
  }

  /**
   * Once column `col` holds its block entries, the result covers the block
   * of `col + 1` columns.
   */
  lemma {:induction false} ColumnDone(a: seq<int>, b: seq<int>, c: seq<int>, lda: nat, ldb: nat, ldc: nat,
                                      m: nat, col: nat, k: nat, alpha: int, beta: int, prev: seq<int>, next: seq<int>)
    requires prev == ScopedSpec(a, b, c, lda, ldb, ldc, m, col, k, alpha, beta) && |next| == |c|
    requires forall p :: 0 <= p < |c| ==>
      next[p] == if InColumn(p, ldc, m, col) then beta * prev[p] + ColumnDot(a, b, lda, ldb, alpha, p % ldc, col, k)
                 else prev[p]
    ensures next == ScopedSpec(a, b, c, lda, ldb, ldc, m, col + 1, k, alpha, beta)
  {
    var spec := ScopedSpec(a, b, c, lda, ldb, ldc, m, col + 1, k, alpha, beta);
    forall p | 0 <= p < |c|
      ensures next[p] == spec[p]
    {
      if InColumn(p, ldc, m, col) {
        assert !InBlock(p, ldc, m, col) && InBlock(p, ldc, m, col + 1);
      }
    }
  }

  /** Column `col` < n of the block, and the part of b it reads, lie inside c and b. */
  lemma {:induction false} ColumnFits(a: seq<int>, b: seq<int>, c: seq<int>, lda: nat, ldb: nat, ldc: nat,
                                      m: nat, n: nat, k: nat, col: nat)
    requires Fits(a, b, c, lda, ldb, ldc, m, n, k) && col < n
    ensures m > 0 ==> col * ldc + m <= |c|
    ensures k > 0 ==> col * ldb + k <= |b|
  {
    Arith.MulLe(col, n - 1, ldc);
    Arith.MulLe(col, n - 1, ldb);
  }

  /** Before any column is processed the result is c itself. */
  lemma {:induction false} NoColumns(a: seq<int>, b: seq<int>, c: seq<int>, lda: nat, ldb: nat, ldc: nat,
                                     m: nat, k: nat, alpha: int, beta: int)
    ensures ScopedSpec(a, b, c, lda, ldb, ldc, m, 0, k, alpha, beta) == c
  {
    var spec := ScopedSpec(a, b, c, lda, ldb, ldc, m, 0, k, alpha, beta);
    forall p | 0 <= p < |c|
      ensures spec[p] == c[p]
    {
      assert !InBlock(p, ldc, m, 0);
    }
  }

  /** The first loop over i of column `col` (1-based j = col + 1): result[coorCJ + i] *= beta for i = 1..m. */
  method ScaleColumn(result: array<int>, ldc: nat, m: nat, col: nat, beta: int)
    requires m <= ldc
    requires m > 0 ==> col * ldc + m <= result.Length
    modifies result
    ensures forall p :: 0 <= p < result.Length ==>
      result[p] == if InColumn(p, ldc, m, col) then beta * old(result[p]) else old(result[p])
  {
    var coorCJ := col * ldc - 1;
    var i := 1;
    while i <= m
      invariant 1 <= i <= m + 1
      invariant forall p :: 0 <= p < result.Length ==>
        result[p] == if InColumn(p, ldc, i - 1, col) then beta * old(result[p]) else old(result[p])
    {
      DivModIdx(col, i - 1, ldc);
      result[coorCJ + i] := result[coorCJ + i] * beta;
      i := i + 1;
    }
  }

  /** The inner loop over i for one l (1-based l = term + 1): result[coorCJ + i] += temp * a[coorAL + i]. */
  method AddColumnTerm(result: array<int>, a: array<int>, lda: nat, ldc: nat, m: nat, col: nat, term: nat, temp: int)
    requires m <= ldc
    requires m > 0 ==> col * ldc + m <= result.Length && term * lda + m <= a.Length
    requires result != a
    modifies result
    ensures forall p :: 0 <= p < result.Length ==>
      result[p] == if InColumn(p, ldc, m, col) then old(result[p]) + temp * At(a[..], term * lda + p % ldc)
                   else old(result[p])
  {
    ghost var sa := a[..];
    var coorCJ := col * ldc - 1;
    var coorAL := term * lda - 1;
    var i := 1;
    while i <= m
      invariant 1 <= i <= m + 1
      invariant a[..] == sa
      invariant forall p :: 0 <= p < result.Length ==>
        result[p] == if InColumn(p, ldc, i - 1, col) then old(result[p]) + temp * At(sa, term * lda + p % ldc)
                     else old(result[p])
    {
      DivModIdx(col, i - 1, ldc);
      assert a[coorAL + i] == At(sa, term * lda + i - 1);
      result[coorCJ + i] := result[coorCJ + i] + temp * a[coorAL + i];
      i := i + 1;
    }
  }

  /**
   * One pass of the loop over j (column `col` = j - 1): scale the column's
   * leading m entries by beta, then add (alpha * b[coorBJ + l]) * a[coorAL + i]
   * for l = 1..k.
   */
  method ComputeColumn(result: array<int>, a: array<int>, b: array<int>, lda: nat, ldb: nat, ldc: nat,
                       m: nat, k: nat, col: nat, alpha: int, beta: int)
    requires m <= ldc
    requires m > 0 ==> col * ldc + m <= result.Length
    requires m > 0 && k > 0 ==> (k - 1) * lda + m <= a.Length
    requires k > 0 ==> col * ldb + k <= b.Length
    requires result != a && result != b
    modifies result
    ensures forall p :: 0 <= p < result.Length ==>
      result[p] == if InColumn(p, ldc, m, col)
                   then beta * old(result[p]) + ColumnDot(a[..], b[..], lda, ldb, alpha, p % ldc, col, k)
                   else old(result[p])
  {
    ghost var sa, sb := a[..], b[..];
    var coorBJ := col * ldb - 1;
    ScaleColumn(result, ldc, m, col, beta);
    var l := 1;
    while l <= k
      invariant 1 <= l <= k + 1
      invariant a[..] == sa && b[..] == sb
      invariant forall p :: 0 <= p < result.Length ==>
        result[p] == if InColumn(p, ldc, m, col)
                     then beta * old(result[p]) + ColumnDot(sa, sb, lda, ldb, alpha, p % ldc, col, l - 1)
                     else old(result[p])
    {
      var temp := alpha * b[coorBJ + l];
      assert temp == alpha * At(sb, col * ldb + l - 1);
      if m > 0 { Arith.MulLe(l - 1, k - 1, lda); }
      AddColumnTerm(result, a, lda, ldc, m, col, l - 1, temp);
      l := l + 1;
    }
  }

  /**
   * `scoped`: copies c, then for each column j = 1..n scales the leading m
   * entries by beta and adds (alpha * b[coorBJ + l]) * a[coorAL + i] for
   * l = 1..k, with the source's 1-based indices and -1 offsets. c has no
   * modifies clause: only the fresh copy changes.
   */
  method Scoped(a: array<int>, b: array<int>, c: array<int>, lda: nat, ldb: nat, ldc: nat,
                m: nat, n: nat, k: nat, alpha: int, beta: int) returns (result: array<int>)
    requires Fits(a[..], b[..], c[..], lda, ldb, ldc, m, n, k)
    ensures fresh(result)
    ensures result[..] == ScopedSpec(a[..], b[..], c[..], lda, ldb, ldc, m, n, k, alpha, beta)
  {
    ghost var sa, sb, sc := a[..], b[..], c[..];
    result := new int[c.Length](p requires 0 <= p < c.Length reads c => c[p]);
    NoColumns(sa, sb, sc, lda, ldb, ldc, m, k, alpha, beta);
    var j := 1;
    while j <= n
      invariant 1 <= j <= n + 1
      invariant result.Length == |sc|
      invariant result[..] == ScopedSpec(sa, sb, sc, lda, ldb, ldc, m, j - 1, k, alpha, beta)
    {
      ghost var prev := result[..];
      ColumnFits(sa, sb, sc, lda, ldb, ldc, m, n, k, j - 1);
      ComputeColumn(result, a, b, lda, ldb, ldc, m, k, j - 1, alpha, beta);
      ColumnDone(sa, sb, sc, lda, ldb, ldc, m, j - 1, k, alpha, beta, prev, result[..]);
      j := j + 1;
    }
  }
}
