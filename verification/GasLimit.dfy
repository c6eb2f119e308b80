// The gas limit that relayers give to receiveCrossChainMessage, in uint64 arithmetic.
module GasLimit {
  import opened Words

  const UINT64_LIMIT: nat := MAX_UINT64 + 1
  const STATIC_COST: nat := 2_000_000
  const COST_PER_KEY: nat := 1_000
  const BUFFER_AMOUNT: nat := 100_000

  type Uint64 = x: nat | x < UINT64_LIMIT
  // Go's int on a 64-bit platform.
  type GoInt = x: int | -0x8000_0000_0000_0000 <= x < 0x8000_0000_0000_0000

  function Total(xs: seq<Uint64>): nat {
    if xs == [] then 0 else Total(xs[..|xs| - 1]) + xs[|xs| - 1]
  }

  lemma {:induction false} PrefixTotal(xs: seq<Uint64>, i: nat)
    requires i <= |xs|
    ensures Total(xs[..i]) <= Total(xs)
  {
    if i < |xs| {
      PrefixTotal(xs[..|xs| - 1], i);
      assert xs[..|xs| - 1][..i] == xs[..i];
    } else {
      assert xs[..i] == xs;
    }
  }

  lemma TotalOfFour(xs: seq<Uint64>)
    requires |xs| == 4
    ensures Total(xs) == xs[0] as nat + xs[1] as nat + xs[2] as nat + xs[3] as nat
    ensures Total(xs[..1]) == xs[0]
  {
    assert xs[..3][..2] == xs[..2] && xs[..2][..1] == xs[..1] && xs[..1][..0] == [];
    assert Total(xs[..1]) == xs[0];
    assert Total(xs[..2]) == Total(xs[..1]) + xs[1] as nat;
    assert Total(xs[..3]) == Total(xs[..2]) + xs[2] as nat;
  }

  // uint64(numSigners) * 1000, both operations modulo 2^64.
  function SignersGas(numSigners: GoInt): Uint64 {
    numSigners % UINT64_LIMIT * COST_PER_KEY % UINT64_LIMIT
  }

  // The sum with an overflow check; None is the error.
  method Add64(a: Uint64, b: Uint64) returns (r: Option<Uint64>)
    ensures r == if a + b < UINT64_LIMIT then Some(a + b) else None
  {
    if a > MAX_UINT64 - b {
      return None;
    }
    return Some(a + b);
  }

  // The limit is the sum of its four parts, exactly when the required limit is a uint64
  // and so is the sum.
  method CalculateReceiveMessageGasLimit(numSigners: GoInt, executionRequiredGasLimit: int)
    returns (r: Option<Uint64>)
    ensures var sum := executionRequiredGasLimit + STATIC_COST + SignersGas(numSigners) + BUFFER_AMOUNT;
      && (r.Some? <==> 0 <= executionRequiredGasLimit && sum < UINT64_LIMIT)
      && (r.Some? ==> r.value == sum)
  {
    if executionRequiredGasLimit < 0 || executionRequiredGasLimit > MAX_UINT64 {
      return None;
    }
    var gasAmounts: seq<Uint64> :=
      [executionRequiredGasLimit, STATIC_COST, SignersGas(numSigners), BUFFER_AMOUNT];
    TotalOfFour(gasAmounts);
    var res := gasAmounts[0];
    for i := 1 to |gasAmounts|
      invariant res == Total(gasAmounts[..i])
    {
      assert gasAmounts[..i + 1][..i] == gasAmounts[..i];
      var sum := Add64(res, gasAmounts[i]);
      if sum.None? {
        PrefixTotal(gasAmounts, i + 1);
        return None;
      }
      res := sum.value;
    }
    assert gasAmounts[..|gasAmounts|] == gasAmounts;
    return Some(res);
  }

  // One signer and a message that requires no gas.
  lemma LeastGasLimit()
    ensures STATIC_COST + SignersGas(1) + BUFFER_AMOUNT == 2_101_000
  {
  }

  // The product does not wrap around exactly for the numbers of signers in this range.
  lemma SignersGasIsExact(numSigners: GoInt)
    ensures SignersGas(numSigners) == numSigners * COST_PER_KEY
      <==> 0 <= numSigners <= MAX_UINT64 / COST_PER_KEY
  {
    if numSigners > MAX_UINT64 / COST_PER_KEY {
      assert numSigners * COST_PER_KEY > MAX_UINT64;
    }
  }

  // One signer more, and the cost of all signatures is taken for less than one.
  lemma SignersGasWraps()
    ensures SignersGas(18_446_744_073_709_552) == 384
  {
  }
}
