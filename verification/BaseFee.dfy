/**
 * The EIP-1559 base fee rule: the 256-bit code, the unbounded rule it implements, and what
 * the rule guarantees over one block and over whole chains.
 */
module BaseFee {
  import opened Types
  import opened Division

  const ELASTICITY_MULTIPLIER: nat := 2
  const BASE_FEE_MAX_CHANGE_DENOMINATOR: nat := 8

  function Max(a: nat, b: nat): nat {
    if a < b then b else a
  }

  /** Wrapping 256-bit multiplication and addition. */
  function Mul256(a: U256, b: U256): U256 {
    (a * b) % U256_LIMIT
  }

  function Add256(a: U256, b: U256): U256 {
    (a + b) % U256_LIMIT
  }

  /** The two 256-bit divisions of the code, in their order. */
  function DivideTwice(product: U256, target: nat): U256
    requires target > 0
  {
    QuotientAtMost(product, target);
    product / target / BASE_FEE_MAX_CHANGE_DENOMINATOR
  }

  /** The machine computation. `None` is the panic of dividing by a zero gas target. */
  function ExpectedBaseFeePerGas(parentFee: U256, parentGasUsed: U64, parentGasLimit: U64): (fee: Option<U256>)
    ensures fee.None? <==> parentGasLimit < 2 && parentGasUsed != 0
  {
    var target := parentGasLimit / ELASTICITY_MULTIPLIER;
    if parentGasUsed == target then
      Some(parentFee)
    else if target == 0 then
      None
    else if parentGasUsed > target then
      var gasUsedDelta := SaturatingSub(parentGasUsed, target);
      var scaled := DivideTwice(Mul256(parentFee, gasUsedDelta), target);
      Some(Add256(parentFee, Max(scaled, 1)))
    else
      var gasUsedDelta := SaturatingSub(target, parentGasUsed);
      var scaled := DivideTwice(Mul256(parentFee, gasUsedDelta), target);
      Some(SaturatingSub(parentFee, scaled))
  }

  /** The share of the fee that a gas surplus or deficit of `delta` moves: one exact quotient, rounded once. */
  function Change(fee: nat, delta: nat, target: nat): nat
    requires target > 0
  {
    (fee * delta) / (BASE_FEE_MAX_CHANGE_DENOMINATOR * target)
  }

  /** The rule over unbounded integers, with a true subtraction. */
  function NextFee(fee: nat, gasUsed: nat, target: nat): nat
    requires target > 0
  {
    if gasUsed == target then fee
    else if gasUsed > target then fee + Max(Change(fee, gasUsed - target, target), 1)
    else
      ChangeAtMostEighth(fee, target - gasUsed, target);
      fee - Change(fee, target - gasUsed, target)
  }

  // ----- arithmetic steps ---------------------------------------------------

  lemma {:induction false} DivMonotone(a: nat, b: nat, t: nat)
    requires t > 0 && a <= b
    ensures a / t <= b / t
  {
    DivPlusMultiple(a % t + (b - a), a / t, t);
    assert t * (a / t) == (a / t) * t;
    assert b == a % t + (b - a) + (a / t) * t;
  }

  lemma {:induction false} DivPlusMultiple(a: nat, k: nat, t: nat)
    requires t > 0
    ensures (a + k * t) / t == a / t + k
  {
    assert t * (a / t + k) == t * (a / t) + k * t;
    DivUnique(a + k * t, t, a / t + k, a % t);
  }

  /** Rounding twice is rounding once. */
  lemma {:induction false} NestedDivision(a: nat, t: nat)
    requires t > 0
    ensures a / t / 8 == a / (8 * t)
  {
    var q, r := a / t, a % t;
    var p, s := q / 8, q % 8;
    Distribute(t, p, s);
    MulMonotone(t, s, 7);
    assert q == 8 * p + s;
    assert a == t * q + r;
    DivUnique(a, 8 * t, p, t * s + r);
  }

  lemma {:induction false} Distribute(t: nat, p: nat, s: nat)
    ensures t * (8 * p + s) == (8 * t) * p + t * s
  {
    assert t * (8 * p) == (8 * t) * p;
  }

  lemma {:induction false} ChangeMonotone(fee1: nat, delta1: nat, fee2: nat, delta2: nat, target: nat)
    requires target > 0 && fee1 <= fee2 && delta1 <= delta2
    ensures Change(fee1, delta1, target) <= Change(fee2, delta2, target)
  {
    assert fee1 * delta1 <= fee2 * delta1 <= fee2 * delta2;
    DivMonotone(fee1 * delta1, fee2 * delta2, 8 * target);
  }

  /** A deficit of at most the whole target moves at most an eighth of the fee. */
  lemma {:induction false} ChangeAtMostEighth(fee: nat, delta: nat, target: nat)
    requires target > 0 && delta <= target
    ensures 8 * Change(fee, delta, target) <= fee
  {
    ChangeMonotone(fee, delta, fee, target, target);
    FullTargetChange(fee, target);
  }

  lemma {:induction false} FullTargetChange(fee: nat, target: nat)
    requires target > 0
    ensures Change(fee, target, target) == fee / 8
  {
    NestedDivision(fee * target, target);
    DivPlusMultiple(0, fee, target);
  }

  // ----- machine arithmetic refines the rule --------------------------------

  /** How far the gas used is from the target, in either direction. */
  function Distance(gasUsed: nat, target: nat): nat {
    if gasUsed > target then gasUsed - target else target - gasUsed
  }

  /** Neither the product nor the new fee needs more than 256 bits. */
  predicate FitsMachine(fee: U256, gasUsed: U64, gasLimit: U64)
    requires gasLimit >= 2
  {
    fee * Distance(gasUsed, gasLimit / 2) < U256_LIMIT && NextFee(fee, gasUsed, gasLimit / 2) < U256_LIMIT
  }

  /**
   * With a positive gas target the machine computes the rule exactly when neither the product nor
   * the new fee needs more than 256 bits: rounding twice equals rounding once, the final subtraction
   * never saturates, and once the product wraps the result is always wrong.
   */
  lemma {:induction false} MachineIsExactlyWhen(fee: U256, gasUsed: U64, gasLimit: U64)
    requires gasLimit >= 2
    ensures ExpectedBaseFeePerGas(fee, gasUsed, gasLimit) == Some(NextFee(fee, gasUsed, gasLimit / 2)) <==>
            FitsMachine(fee, gasUsed, gasLimit)
  {
    var target: nat := gasLimit / 2;
    if gasUsed > target {
      RisesExactlyWhen(fee, gasUsed - target, target);
    } else if gasUsed < target {
      FallsExactlyWhen(fee, target - gasUsed, target);
    }
  }

  lemma {:induction false} RisesExactlyWhen(fee: U256, delta: U64, target: nat)
    requires 0 < target < U64_LIMIT
    ensures Add256(fee, Max(DivideTwice(Mul256(fee, delta), target), 1))
            == fee + Max(Change(fee, delta, target), 1) <==>
            fee * delta < U256_LIMIT && fee + Max(Change(fee, delta, target), 1) < U256_LIMIT
  {
    MachineChange(fee, delta, target);
  }

  lemma {:induction false} FallsExactlyWhen(fee: U256, delta: U64, target: nat)
    requires 0 < target < U64_LIMIT && delta <= target
    ensures Change(fee, delta, target) <= fee
    ensures SaturatingSub(fee, DivideTwice(Mul256(fee, delta), target)) == fee - Change(fee, delta, target) <==>
            fee * delta < U256_LIMIT
  {
    MachineChange(fee, delta, target);
    ChangeAtMostEighth(fee, delta, target);
  }

  /**
   * The two machine divisions compute the single quotient of the rule unless the product wraps, and
   * less if it does.
   */
  lemma {:induction false} MachineChange(fee: U256, delta: U64, target: nat)
    requires 0 < target < U64_LIMIT
    ensures fee * delta < U256_LIMIT ==> DivideTwice(Mul256(fee, delta), target) == Change(fee, delta, target)
    ensures fee * delta >= U256_LIMIT ==>
              DivideTwice(Mul256(fee, delta), target) < Change(fee, delta, target) && Change(fee, delta, target) > 1
  {
    MachineQuotient(fee * delta, target);
  }

  lemma {:induction false} MachineQuotient(product: nat, target: nat)
    requires 0 < target < U64_LIMIT
    ensures product < U256_LIMIT ==> DivideTwice(product % U256_LIMIT, target) == product / (8 * target)
    ensures product >= U256_LIMIT ==>
            DivideTwice(product % U256_LIMIT, target) < product / (8 * target) && product / (8 * target) > 1
  {
    NestedDivision(product % U256_LIMIT, target);
    if product >= U256_LIMIT {
      WrappedQuotient(product, 8 * target);
    }
  }

  lemma {:induction false} WrappedQuotient(product: nat, divisor: nat)
    requires product >= U256_LIMIT && 0 < divisor && 2 * divisor <= U256_LIMIT
    ensures product % U256_LIMIT / divisor < product / divisor
    ensures product / divisor > 1
  {
    var wrapped := product % U256_LIMIT;
    DivPlusMultiple(wrapped, 2, divisor);
    DivMonotone(wrapped + 2 * divisor, product, divisor);
  }

  /** 2^192: far above any fee ever reached, and the point up to which every product fits 256 bits. */
  const FEE_CEILING: nat := 0x1_0000_0000_0000_0000_0000_0000_0000_0000_0000_0000_0000_0000

  /** So below that point no operation wraps, whatever the gas figures. */
  lemma {:induction false} MachineRefinesRule(fee: U256, gasUsed: U64, gasLimit: U64)
    requires gasLimit >= 2
    requires fee < FEE_CEILING
    ensures NextFee(fee, gasUsed, gasLimit / 2) < U256_LIMIT
    ensures ExpectedBaseFeePerGas(fee, gasUsed, gasLimit) == Some(NextFee(fee, gasUsed, gasLimit / 2))
  {
    var target: nat := gasLimit / 2;
    var delta := Distance(gasUsed, target);
    ProductBound(fee, delta, FEE_CEILING, U64_LIMIT);
    NestedDivision(fee * delta, target);
    QuotientAtMost(fee * delta, target);
    assert Change(fee, delta, target) <= fee * delta / 8;
    if gasUsed < target {
      ChangeAtMostEighth(fee, delta, target);
    }
    MachineIsExactlyWhen(fee, gasUsed, gasLimit);
  }

  lemma {:induction false} ProductBound(a: nat, b: nat, m: nat, n: nat)
    requires a < m && b < n
    ensures a * b < m * n
  {
    MulMonotone(a, b, n);
    assert n * a + n <= n * m by { MulMonotone(n, a + 1, m); }
  }

  lemma {:induction false} QuotientAtMost(a: nat, t: nat)
    requires t > 0
    ensures a / t / 8 <= a / 8
  {
    MulMonotone(a / t, 1, t);
    assert a / t <= t * (a / t) <= a;
  }

  // ----- monotonicity ---------------------------------------------------------

  lemma {:induction false} MonotoneInGasUsed(fee: nat, used1: nat, used2: nat, target: nat)
    requires target > 0 && used1 <= used2
    ensures NextFee(fee, used1, target) <= NextFee(fee, used2, target)
  {
    if used2 < target {
      ChangeMonotone(fee, target - used2, fee, target - used1, target);
    } else if used1 > target {
      ChangeMonotone(fee, used1 - target, fee, used2 - target, target);
    }
  }

  lemma {:induction false} MonotoneInParentFee(fee1: nat, fee2: nat, used: nat, target: nat)
    requires target > 0 && fee1 <= fee2
    ensures NextFee(fee1, used, target) <= NextFee(fee2, used, target)
  {
    if used > target {
      ChangeMonotone(fee1, used - target, fee2, used - target, target);
    } else if used < target {
      var d := target - used;
      var gap := fee2 - fee1;
      assert fee2 * d == fee1 * d + gap * d;
      assert gap * d <= gap * (8 * target);
      DivMonotone(fee2 * d, fee1 * d + gap * (8 * target), 8 * target);
      DivPlusMultiple(fee1 * d, gap, 8 * target);
    }
  }

  /** Wherever the code computes the rule, more gas used or a higher parent fee never lowers the next fee. */
  lemma {:induction false} MachineIsMonotone(fee1: U256, fee2: U256, used1: U64, used2: U64, gasLimit: U64)
    requires gasLimit >= 2 && fee1 <= fee2 && used1 <= used2
    requires FitsMachine(fee1, used1, gasLimit) && FitsMachine(fee2, used2, gasLimit)
    ensures var lower := ExpectedBaseFeePerGas(fee1, used1, gasLimit);
            var higher := ExpectedBaseFeePerGas(fee2, used2, gasLimit);
            lower.Some? && higher.Some? && lower.value <= higher.value
  {
    MachineIsExactlyWhen(fee1, used1, gasLimit);
    MachineIsExactlyWhen(fee2, used2, gasLimit);
    MonotoneInGasUsed(fee1, used1, used2, gasLimit / 2);
    MonotoneInParentFee(fee1, fee2, used2, gasLimit / 2);
  }

  /** Where it does not, one more unit of gas can lower the fee: at the highest fee every rise wraps. */
  lemma {:induction false} WrappedRiseFalls(gasLimit: U64, gasUsed: U64)
    requires gasLimit >= 2 && gasUsed == gasLimit / 2 + 1
    ensures ExpectedBaseFeePerGas(U256_LIMIT - 1, gasLimit / 2, gasLimit) == Some(U256_LIMIT - 1)
    ensures var next := ExpectedBaseFeePerGas(U256_LIMIT - 1, gasUsed, gasLimit);
            next.Some? && next.value < U256_LIMIT - 1
  {
    var fee: U256, target: nat := U256_LIMIT - 1, gasLimit / 2;
    assert Mul256(fee, 1) == fee;
    QuotientAtMost(fee, target);
  }

  /** Above the target the fee rises, by at least one; at the target it stays; below it never rises. */
  lemma {:induction false} FeeFollowsGas(fee: nat, used: nat, target: nat)
    requires target > 0
    ensures used > target ==> NextFee(fee, used, target) >= fee + 1
    ensures used == target ==> NextFee(fee, used, target) == fee
    ensures used < target ==> NextFee(fee, used, target) <= fee
    ensures NextFee(fee, 2 * target, target) == fee + (if fee < 16 then 1 else fee / 8)
    ensures NextFee(fee, 0, target) == fee - fee / 8
  {
    FullTargetChange(fee, target);
  }

  // ----- chains of blocks -----------------------------------------------------

  datatype Block = Block(gasUsed: nat, gasLimit: nat)

  /** A limit of at least 2 gives a target to divide by; at most twice the target is used. */
  predicate Bounded(block: Block) {
    block.gasLimit >= 2 && block.gasUsed <= 2 * (block.gasLimit / 2)
  }

  function FeeAfter(fee: nat, blocks: seq<Block>): nat
    requires forall b <- blocks :: Bounded(b)
    decreases |blocks|
  {
    if blocks == [] then fee
    else
      var last := blocks[|blocks| - 1];
      var before := FeeAfter(fee, blocks[..|blocks| - 1]);
      assert Bounded(last);
      NextFee(before, last.gasUsed, last.gasLimit / 2)
  }

  function Pow(b: nat, e: nat): (p: nat)
    ensures b > 0 ==> p > 0
  {
    if e == 0 then 1 else b * Pow(b, e - 1)
  }

  lemma {:induction false} OneBlockBounds(fee: nat, block: Block)
    requires Bounded(block)
    ensures var next := NextFee(fee, block.gasUsed, block.gasLimit / 2);
            7 * fee <= 8 * next && 8 * (next + 8) <= 9 * (fee + 8)
  {
    var target := block.gasLimit / 2;
    if block.gasUsed < target {
      ChangeAtMostEighth(fee, target - block.gasUsed, target);
    } else if block.gasUsed > target {
      ChangeAtMostEighth(fee, block.gasUsed - target, target);
    }
  }

  /** Seven eighths per block is the most a chain can fall, nine eighths (up to the +8) the most it can rise. */
  lemma {:induction false} ChainBounds(fee: nat, blocks: seq<Block>)
    requires forall b <- blocks :: Bounded(b)
    ensures Pow(7, |blocks|) * fee <= Pow(8, |blocks|) * FeeAfter(fee, blocks)
    ensures Pow(8, |blocks|) * (FeeAfter(fee, blocks) + 8) <= Pow(9, |blocks|) * (fee + 8)
    decreases |blocks|
  {
    if blocks == [] {
      assert Pow(7, 0) == Pow(8, 0) == Pow(9, 0) == 1;
    } else {
      var n := |blocks| - 1;
      var before := FeeAfter(fee, blocks[..n]);
      ChainBounds(fee, blocks[..n]);
      ChainStep(fee, before, blocks[n], n);
    }
  }

  lemma {:induction false} ChainStep(fee: nat, before: nat, block: Block, n: nat)
    requires Bounded(block)
    requires Pow(7, n) * fee <= Pow(8, n) * before
    requires Pow(8, n) * (before + 8) <= Pow(9, n) * (fee + 8)
    ensures var after := NextFee(before, block.gasUsed, block.gasLimit / 2);
            && Pow(7, n + 1) * fee <= Pow(8, n + 1) * after
            && Pow(8, n + 1) * (after + 8) <= Pow(9, n + 1) * (fee + 8)
  {
    OneBlockBounds(before, block);
    var after: nat := NextFee(before, block.gasUsed, block.gasLimit / 2);
    ScaleLower(Pow(7, n), fee, Pow(8, n), before, after);
    ScaleUpper(Pow(8, n), before + 8, Pow(9, n), fee + 8, after + 8);
  }

  /** A positive fee stays positive over any bounded chain. */
  lemma {:induction false} PositiveStaysPositive(fee: nat, blocks: seq<Block>)
    requires fee > 0 && forall b <- blocks :: Bounded(b)
    ensures FeeAfter(fee, blocks) > 0
  {
    ChainBounds(fee, blocks);
    MulMonotone(Pow(7, |blocks|), 1, fee);
    if FeeAfter(fee, blocks) == 0 {
      assert false;
    }
  }

  /** Chaining a per-block bound between `y` and `z` onto a whole-chain bound between `x` and `y`. */
  lemma {:induction false} ScaleLower(p: nat, x: nat, q: nat, y: nat, z: nat)
    requires p * x <= q * y && 7 * y <= 8 * z
    ensures (7 * p) * x <= (8 * q) * z
  {
    MulMonotone(q, 7 * y, 8 * z);
    assert (7 * p) * x == 7 * (p * x);
    assert q * (7 * y) == 7 * (q * y);
    assert (8 * q) * z == q * (8 * z);
  }

  lemma {:induction false} ScaleUpper(p: nat, x: nat, q: nat, y: nat, z: nat)
    requires p * x <= q * y && 8 * z <= 9 * x
    ensures (8 * p) * z <= (9 * q) * y
  {
    MulMonotone(p, 8 * z, 9 * x);
    assert (8 * p) * z == p * (8 * z);
    assert p * (9 * x) == 9 * (p * x);
    assert (9 * q) * y == 9 * (q * y);
  }

  /**
   * The bound on a rise holds at every fee exactly for blocks that use at most twice the target. A
   * gas limit alone does not give that: with an odd limit a full block uses one unit more.
   */
  lemma {:induction false} RiseBoundExactlyWhen(used: nat, target: nat)
    requires target > 0
    ensures (forall fee: nat :: 8 * (NextFee(fee, used, target) + 8) <= 9 * (fee + 8)) <==> used <= 2 * target
  {
    if used <= 2 * target {
      forall fee: nat ensures 8 * (NextFee(fee, used, target) + 8) <= 9 * (fee + 8) {
        if used > target {
          ChangeAtMostEighth(fee, used - target, target);
        }
      }
    } else {
      OverfullRise(used, target);
    }
  }

  lemma {:induction false} OverfullRise(used: nat, target: nat)
    requires target > 0 && used > 2 * target
    ensures 8 * (NextFee(16 * target, used, target) + 8) > 9 * (16 * target + 8)
  {
    var delta := used - target;
    assert (16 * target) * delta == (2 * delta) * (8 * target);
    DivPlusMultiple(0, 2 * delta, 8 * target);
    assert Change(16 * target, delta, target) == 2 * delta;
  }

  // ----- empty blocks -----------------------------------------------------------

  /** The fee after `n` blocks that use no gas, as the payload builder's own blocks do. */
  function EmptyBlocks(fee: nat, target: nat, n: nat): nat
    requires target > 0
    decreases n
  {
    if n == 0 then fee else NextFee(EmptyBlocks(fee, target, n - 1), 0, target)
  }

  lemma {:induction false} EmptyBlockStep(fee: nat, target: nat)
    requires target > 0
    ensures NextFee(fee, 0, target) == fee - fee / 8
    ensures NextFee(fee, 0, target) < fee <==> fee >= 8
    ensures fee >= 7 ==> NextFee(fee, 0, target) >= 7
  {
    FullTargetChange(fee, target);
  }

  /** The fee falls to exactly 7 (or stays where it started, if lower) within `fee` blocks, and rests there. */
  lemma {:induction false} EmptyBlocksConverge(fee: nat, target: nat, n: nat)
    requires target > 0
    ensures (if fee < 7 then fee else 7) <= EmptyBlocks(fee, target, n) <= fee
    ensures n >= fee ==> EmptyBlocks(fee, target, n) == if fee < 7 then fee else 7
    ensures n < fee && fee >= 7 ==> EmptyBlocks(fee, target, n) <= fee - n || EmptyBlocks(fee, target, n) == 7
    decreases n
  {
    if n > 0 {
      EmptyBlocksConverge(fee, target, n - 1);
      EmptyBlockStep(EmptyBlocks(fee, target, n - 1), target);
    }
  }
}
