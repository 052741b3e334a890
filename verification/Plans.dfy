/**
 Upload plans: the list of chunks a client announces. The validators add the
 chunk sizes in an `i64`, which wraps around in a release build.
 */
module Plans {
  import opened Core
  import opened Store

  /** One announced chunk: an `i32` index, an `i32` segment and an `i64` size. */
  datatype ChunkPlan = ChunkPlan(index: int, segment: int, size: int)

  datatype Plan = Plan(size: int, count: int, chunks: seq<ChunkPlan>)

  const TWO63 := 0x8000_0000_0000_0000

  /** Two's-complement 64-bit result of an exact sum. */
  function WrapI64(n: int): int {
    var m := n % TWO64;
    if m < TWO63 then m else m - TWO64
  }

  function PlanSum(chunks: seq<ChunkPlan>): int {
    if chunks == [] then 0 else PlanSum(chunks[..|chunks| - 1]) + chunks[|chunks| - 1].size
  }

  /** What both validators accept: the running total is compared after wrap-around. */
  predicate Accepts(plan: Plan) {
    && 0 < plan.count <= MAX_CHUNKS_PER_FILE
    && |plan.chunks| == plan.count
    && 0 <= plan.size <= MAX_FILE_SIZE
    && (forall i :: 0 <= i < |plan.chunks| ==> plan.chunks[i].index == i && plan.chunks[i].size > 0)
    && WrapI64(PlanSum(plan.chunks)) == plan.size + TAG_BYTES * plan.count
  }

  /** The validators in plain terms: the limits, the numbering, and a total that is right up to a multiple of 2^64. */
  lemma AcceptedPlan(plan: Plan)
    ensures Accepts(plan) <==>
      && 0 < plan.count <= 50_000 && |plan.chunks| == plan.count && 0 <= plan.size <= 536_870_912_000
      && (forall i :: 0 <= i < |plan.chunks| ==> plan.chunks[i].index == i && plan.chunks[i].size > 0)
      && exists wraps :: PlanSum(plan.chunks) == plan.size + 17 * plan.count + Wrapped(wraps)
  {
    var n, t := PlanSum(plan.chunks), plan.size + TAG_BYTES * plan.count;
    if WrapI64(n) == t && t >= 0 {
      assert n == t + Wrapped(n / TWO64);
    }
    if wraps :| n == t + Wrapped(wraps) {
      if 0 <= t < TWO63 {
        ModShift(t, wraps);
      }
    }
  }

  function Wrapped(wraps: int): int {
    wraps * 18_446_744_073_709_551_616
  }

  /** The sum counts every chunk once. */
  lemma {:induction false} PlanSumRows(chunks: seq<ChunkPlan>, i: nat)
    requires i < |chunks|
    ensures PlanSum(chunks) == PlanSum(chunks[..i] + chunks[i + 1..]) + chunks[i].size
    decreases |chunks|
  {
    var n := |chunks| - 1;
    var less := chunks[..i] + chunks[i + 1..];
    if i == n {
      assert less == chunks[..n];
    } else {
      PlanSumRows(chunks[..n], i);
      assert less[|less| - 1] == chunks[n] && less[..|less| - 1] == chunks[..n][..i] + chunks[..n][i + 1..];
    }
  }

  lemma WrapAdd(a: int, b: int)
    ensures WrapI64(WrapI64(a) + b) == WrapI64(a + b)
  {
    var k := a / TWO64;
    assert a == TWO64 * k + a % TWO64;
    if a % TWO64 < TWO63 {
      ModShift(a % TWO64 + b, k);
    } else {
      ModShift(a % TWO64 - TWO64 + b, k + 1);
    }
  }

  lemma ModShift(x: int, k: int)
    ensures (x + TWO64 * k) % TWO64 == x % TWO64
  {
    var q := x / TWO64;
    assert x + TWO64 * k == TWO64 * (q + k) + x % TWO64;
  }

  /** The numeric part of `validate_create_request` and `validate_bulk_init_request`. */
  method ValidatePlan(plan: Plan) returns (ok: bool)
    ensures ok <==> Accepts(plan)
  {
    if plan.count <= 0 || plan.count > MAX_CHUNKS_PER_FILE {
      return false;
    }
    if |plan.chunks| != plan.count {
      return false;
    }
    if plan.size < 0 || plan.size > MAX_FILE_SIZE {
      return false;
    }
    var total := 0;
    for i := 0 to |plan.chunks|
      invariant total == WrapI64(PlanSum(plan.chunks[..i]))
      invariant forall j :: 0 <= j < i ==> plan.chunks[j].index == j && plan.chunks[j].size > 0
    {
      if plan.chunks[i].index != i || plan.chunks[i].size <= 0 {
        return false;
      }
      assert plan.chunks[..i + 1][..i] == plan.chunks[..i];
      WrapAdd(PlanSum(plan.chunks[..i]), plan.chunks[i].size);
      total := WrapI64(total + plan.chunks[i].size);
    }
    assert plan.chunks[..|plan.chunks|] == plan.chunks;
    ok := total == plan.size + TAG_BYTES * plan.count;
  }

  /** An accepted plan has the right total exactly when the true sum fits in an `i64`. */
  lemma AcceptedSumExact(plan: Plan)
    requires Accepts(plan)
    ensures PlanSum(plan.chunks) == plan.size + TAG_BYTES * plan.count <==> PlanSum(plan.chunks) < TWO63
  {
    PlanSumPositive(plan.chunks);
  }

  lemma {:induction false} PlanSumPositive(chunks: seq<ChunkPlan>)
    requires forall i :: 0 <= i < |chunks| ==> chunks[i].size > 0
    ensures PlanSum(chunks) >= |chunks|
  {
    if chunks != [] {
      PlanSumPositive(chunks[..|chunks| - 1]);
    }
  }

  lemma {:induction false} PlanSumBound(chunks: seq<ChunkPlan>, bound: nat)
    requires forall i :: 0 <= i < |chunks| ==> chunks[i].size <= bound
    ensures PlanSum(chunks) <= bound * |chunks|
  {
    if chunks != [] {
      PlanSumBound(chunks[..|chunks| - 1], bound);
      assert bound * (|chunks| - 1) + bound == bound * |chunks|;
    }
  }

  /** A caller can check it chunk by chunk: with no chunk above the file limit nothing overflows. */
  lemma SmallChunksNeverOverflow(plan: Plan)
    requires Accepts(plan)
    requires forall i :: 0 <= i < |plan.chunks| ==> plan.chunks[i].size <= MAX_FILE_SIZE + TAG_BYTES
    ensures forall n :: 0 <= n <= |plan.chunks| ==> 0 <= PlanSum(plan.chunks[..n]) < TWO63
    ensures PlanSum(plan.chunks) == plan.size + TAG_BYTES * plan.count
  {
    forall n | 0 <= n <= |plan.chunks|
      ensures 0 <= PlanSum(plan.chunks[..n]) < TWO63
    {
      PlanSumPositive(plan.chunks[..n]);
      PlanSumBound(plan.chunks[..n], MAX_FILE_SIZE + TAG_BYTES);
      assert (MAX_FILE_SIZE + TAG_BYTES) * n <= (MAX_FILE_SIZE + TAG_BYTES) * MAX_CHUNKS_PER_FILE;
    }
    assert plan.chunks[..|plan.chunks|] == plan.chunks;
    AcceptedSumExact(plan);
  }

  /** Three chunks whose sizes add up to 2^64 too much, and are accepted. */
  lemma WrappedPlanAccepted()
    ensures var plan := Plan(100, 3, [ChunkPlan(0, 0, TWO63 - 1), ChunkPlan(1, 0, TWO63 - 1), ChunkPlan(2, 0, 153)]);
      Accepts(plan) && PlanSum(plan.chunks) == plan.size + TAG_BYTES * plan.count + TWO64
  {
    var cs := [ChunkPlan(0, 0, TWO63 - 1), ChunkPlan(1, 0, TWO63 - 1), ChunkPlan(2, 0, 153)];
    assert cs[..2][..1] == cs[..1] && cs[..1][..0] == [];
    assert PlanSum(cs[..1]) == TWO63 - 1;
    assert PlanSum(cs[..2]) == TWO64 - 2;
    assert PlanSum(cs) == TWO64 + 151;
  }
}
