/**
 * The GPU form of the same GEMM: `gpuFunction` computes one output element,
 * the one at (thread.x, thread.y), and the compiled fragment shader runs the
 * same loop under a fixed bound LOOP_MAX.
 */
module GpuThread {
  import Gemm
  import Arith

  /** The shader's constant loop bound: the reduction never runs more than this many steps. */
  const LoopMax: nat := 1000

  /** The first `count` products a[lda*i + x] * alpha * b[ldb*y + i], in the order the loop adds them. */
  function ThreadSum(a: seq<int>, b: seq<int>, lda: nat, ldb: nat, alpha: int, x: nat, y: nat, count: nat): int
  {
    if count == 0 then 0
    else ThreadSum(a, b, lda, ldb, alpha, x, y, count - 1)
         + Gemm.At(a, lda * (count - 1) + x) * alpha * Gemm.At(b, ldb * y + count - 1)
  }

  /** Number of loop iterations for a bound k: none when k <= 0. */
  function Steps(k: int): nat
  {
    if k <= 0 then 0 else k
  }

  /**
   * The value of thread (x, y): c[ldc*y + x] * beta plus the first `steps`
   * products. m and n are not parameters: the kernel never reads them.
   */
  function ThreadValue(a: seq<int>, b: seq<int>, c: seq<int>, lda: nat, ldb: nat, ldc: nat,
                       steps: nat, alpha: int, beta: int, x: nat, y: nat): int
  {
    Gemm.At(c, ldc * y + x) * beta + ThreadSum(a, b, lda, ldb, alpha, x, y, steps)
  }

  /**
   * `gpuFunction` for thread (threadX, threadY). Every read is in bounds when
   * the highest indices it uses are: ldc*y + x into c, lda*(k-1) + x into a and
   * ldb*y + k - 1 into b.
   */
  method GpuFunction(a: seq<int>, b: seq<int>, c: seq<int>, lda: nat, ldb: nat, ldc: nat,
                     m: int, n: int, k: int, alpha: int, beta: int, threadX: nat, threadY: nat)
    returns (sum: int)
    requires ldc * threadY + threadX < |c|
    requires k > 0 ==> lda * (k - 1) + threadX < |a| && ldb * threadY + k - 1 < |b|
    ensures sum == ThreadValue(a, b, c, lda, ldb, ldc, Steps(k), alpha, beta, threadX, threadY)
    ensures k <= 0 ==> sum == c[ldc * threadY + threadX] * beta
  {
    var cIndex := ldc * threadY + threadX;
    sum := c[cIndex] * beta;
    var i := 0;
    while i < k
      invariant if k > 0 then 0 <= i <= k else i == 0
      invariant sum == c[cIndex] * beta + ThreadSum(a, b, lda, ldb, alpha, threadX, threadY, i)
    {
      Arith.MulLe(i, k - 1, lda);
      var aIndex := lda * i + threadX;
      var bIndex := ldb * threadY + i;
      sum := sum + a[aIndex] * alpha * b[bIndex];
      i := i + 1;
    }
    assert i == Steps(k);
    assert Gemm.At(c, cIndex) == c[cIndex];
  }

  /**
   * The compiled shader's `kernel()`: the same loop, but over a float counter
   * that stops at LOOP_MAX, breaking out as soon as the counter reaches k. It
   * therefore sums min(k, LOOP_MAX) products.
   */
  method ShaderKernel(a: seq<int>, b: seq<int>, c: seq<int>, lda: nat, ldb: nat, ldc: nat,
                      k: int, alpha: int, beta: int, threadX: nat, threadY: nat)
    returns (sum: int)
    requires ldc * threadY + threadX < |c|
    requires k > 0 ==> lda * (Min(k, LoopMax) - 1) + threadX < |a| && ldb * threadY + Min(k, LoopMax) - 1 < |b|
    ensures sum == ThreadValue(a, b, c, lda, ldb, ldc, Steps(Min(k, LoopMax)), alpha, beta, threadX, threadY)
    ensures k <= LoopMax ==> sum == ThreadValue(a, b, c, lda, ldb, ldc, Steps(k), alpha, beta, threadX, threadY)
  {
    var cIndex := ldc * threadY + threadX;
    sum := c[cIndex] * beta;
    var i := 0;
    while i < LoopMax
      invariant 0 <= i <= LoopMax && (if k > 0 then i <= k else i == 0)
      invariant sum == c[cIndex] * beta + ThreadSum(a, b, lda, ldb, alpha, threadX, threadY, i)
    {
      if i < k {
        Arith.MulLe(i, Min(k, LoopMax) - 1, lda);
        var aIndex := lda * i + threadX;
        var bIndex := ldb * threadY + i;
        sum := sum + a[aIndex] * alpha * b[bIndex];
      } else {
        break;
      }
      i := i + 1;
    }
    assert i == Steps(Min(k, LoopMax));
    assert Gemm.At(c, cIndex) == c[cIndex];
  }

  function Min(x: int, y: int): int { if x < y then x else y }

  /** The kernel's sum and the reference's column sum add the same products, in the same order. */
  lemma {:induction false} ThreadSumIsColumnDot(a: seq<int>, b: seq<int>, lda: nat, ldb: nat, alpha: int,
                                                x: nat, y: nat, count: nat)
    ensures ThreadSum(a, b, lda, ldb, alpha, x, y, count) == Gemm.ColumnDot(a, b, lda, ldb, alpha, x, y, count)
  {
    if count > 0 {
      ThreadSumIsColumnDot(a, b, lda, ldb, alpha, x, y, count - 1);
      var pa := Gemm.At(a, lda * (count - 1) + x);
      var pb := Gemm.At(b, ldb * y + count - 1);
      assert pa * alpha * pb == alpha * pb * pa;
    }
  }

  /**
   * In exact arithmetic, thread (x, y) for x < m and y < n computes the entry
   * `scoped` leaves at offset ldc*y + x.
   */
  lemma {:induction false} ThreadMatchesScoped(a: seq<int>, b: seq<int>, c: seq<int>, lda: nat, ldb: nat, ldc: nat,
                            m: nat, n: nat, k: nat, alpha: int, beta: int, x: nat, y: nat)
    requires Gemm.Fits(a, b, c, lda, ldb, ldc, m, n, k)
    requires x < m && y < n
    ensures ldc * y + x < |c|
    ensures ThreadValue(a, b, c, lda, ldb, ldc, k, alpha, beta, x, y)
            == Gemm.ScopedSpec(a, b, c, lda, ldb, ldc, m, n, k, alpha, beta)[ldc * y + x]
  {
    var p := Gemm.Idx(y, x, ldc);
    assert p == ldc * y + x;
    Gemm.ScopedEntry(a, b, c, lda, ldb, ldc, m, n, k, alpha, beta, x, y);
    ThreadSumIsColumnDot(a, b, lda, ldb, alpha, x, y, k);
    assert Gemm.At(c, p) == c[p];
  }
}
