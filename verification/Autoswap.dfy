/** Arithmetic and decisions of the automatic token swap that precedes a payment. */
module Autoswap {
  import opened Numerals
  import opened Prelude

  const MAX_SLIPPAGE_BPS: nat := 5_000
  const BPS: nat := 10_000

  type Address = string

  datatype Config = Config(tokenIn: Address, slippageBps: nat)

  datatype SwapError = InvalidConfig | QueryFailed | InvalidAmount | QuoteFailed | InsufficientBalance(required: nat)

  /** What the chain answers: balances (256 bits) and exchange quotes (128 bits), or a failure. */
  datatype Chain = Chain(
    balanceOf: Address -> Option<nat>,
    quote: (Address, Address, nat) -> Option<nat>)

  datatype SwapCall = SwapCall(tokenIn: Address, tokenOut: Address, amountOut: nat, maxAmountIn: nat)

  function SaturatingMul(a: nat, b: nat): nat { if a * b > U128_MAX then U128_MAX else a * b }

  /** The most the swap may spend. */
  function MaxAmountIn(quoted: nat, slippageBps: nat): nat { SaturatingMul(quoted, BPS + slippageBps) / BPS }

  function CheckBalanceDeficit(chain: Chain, currency: Address, amount: nat): Result<Option<nat>, SwapError> {
    match chain.balanceOf(currency)
    case None => Err(QueryFailed)
    case Some(balance) => if balance >= amount then Ok(None) else Ok(Some(amount - balance))
  }

  function BuildSwapCall(tokenIn: Address, tokenOut: Address, amountOut: nat, quoted: nat, slippageBps: nat): SwapCall {
    SwapCall(tokenIn, tokenOut, amountOut, MaxAmountIn(quoted, slippageBps))
  }

  function ResolveAutoswap(chain: Chain, currency: Address, amount: nat, config: Config)
    : Result<Option<SwapCall>, SwapError>
  {
    if config.slippageBps > MAX_SLIPPAGE_BPS then Err(InvalidConfig)
    else if config.tokenIn == currency then Ok(None)
    else
      match CheckBalanceDeficit(chain, currency, amount)
      case Err(e) => Err(e)
      case Ok(None) => Ok(None)
      case Ok(Some(deficit)) =>
        if deficit > U128_MAX then Err(InvalidAmount)
        else
          match chain.quote(config.tokenIn, currency, deficit)
          case None => Err(QuoteFailed)
          case Some(quoted) =>
            var cap := MaxAmountIn(quoted, config.slippageBps);
            match CheckBalanceDeficit(chain, config.tokenIn, cap)
            case Err(e) => Err(e)
            case Ok(Some(_)) => Err(InsufficientBalance(cap))
            case Ok(None) => Ok(Some(BuildSwapCall(config.tokenIn, currency, deficit, quoted, config.slippageBps)))
  }

  lemma DivideBounds(n: nat, q: nat)
    ensures n / BPS == q <==> q * BPS <= n < (q + 1) * BPS
  {
  }

  /** Within the limit the cap is the quote plus the tolerated share of it, unless the product no longer fits. */
  lemma CapExactly(quoted: nat, slippageBps: nat)
    ensures MaxAmountIn(quoted, slippageBps) == quoted + quoted * slippageBps / BPS
      <==> quoted * (BPS + slippageBps) < (U128_MAX / BPS + 1) * BPS
  {
    var product, share := quoted * (BPS + slippageBps), quoted * slippageBps;
    assert product == quoted * BPS + share;
    DivideBounds(share, share / BPS);
    DivideBounds(product, quoted + share / BPS);
    assert product / BPS == quoted + share / BPS;
    if product > U128_MAX {
      DivideBounds(product, U128_MAX / BPS);
    }
  }

  /** The cap covers the quote exactly while the unsaturated product with 10000 fits. */
  lemma CapCoversQuote(quoted: nat, slippageBps: nat)
    ensures MaxAmountIn(quoted, slippageBps) >= quoted <==> quoted * BPS <= U128_MAX
  {
    var product := quoted * (BPS + slippageBps);
    assert product == quoted * BPS + quoted * slippageBps;
    QuotientCovers(U128_MAX, quoted);
    QuotientCovers(product, quoted);
  }

  lemma QuotientCovers(n: nat, q: nat)
    ensures n / BPS >= q <==> q * BPS <= n
  {
    DivideBounds(n, n / BPS);
  }

  /** No accepted slippage lets the swap spend more than half again the quote. */
  lemma CapBounded(quoted: nat, slippageBps: nat)
    requires slippageBps <= MAX_SLIPPAGE_BPS
    ensures 2 * MaxAmountIn(quoted, slippageBps) <= 3 * quoted
  {
    var product := quoted * (BPS + slippageBps);
    assert product <= quoted * (BPS + MAX_SLIPPAGE_BPS);
    assert 2 * (product / BPS) <= 3 * quoted;
  }

  /**
    A swap is made exactly when it is needed, representable, quoted and affordable; it buys exactly
    what is missing, and the cap that was found affordable is the cap in the call.
   */
  lemma SwapMeaning(chain: Chain, currency: Address, amount: nat, config: Config)
    ensures var r := ResolveAutoswap(chain, currency, amount, config);
      var held, funds := chain.balanceOf(currency), chain.balanceOf(config.tokenIn);
      && (r.Ok? && r.value.Some? <==>
            && config.slippageBps <= MAX_SLIPPAGE_BPS && config.tokenIn != currency
            && held.Some? && held.value < amount && amount - held.value <= U128_MAX
            && var quoted := chain.quote(config.tokenIn, currency, amount - held.value);
               quoted.Some? && funds.Some? && MaxAmountIn(quoted.value, config.slippageBps) <= funds.value)
      && (r.Ok? && r.value.Some? ==>
            var call := r.value.value;
            && call.tokenIn == config.tokenIn && call.tokenOut == currency
            && held.value + call.amountOut == amount
            && call.maxAmountIn <= funds.value
            && var quoted := chain.quote(call.tokenIn, call.tokenOut, call.amountOut).value;
               var wanted := quoted * (10_000 + config.slippageBps);
               && call.maxAmountIn == (if wanted > U128_MAX then U128_MAX else wanted) / 10_000
               && 2 * call.maxAmountIn <= 3 * quoted)
      && (r.Err? && r.error.InsufficientBalance? ==>
            var quoted := chain.quote(config.tokenIn, currency, amount - held.value).value;
            var wanted := quoted * (10_000 + config.slippageBps);
            && held.value < amount
            && r.error.required == (if wanted > U128_MAX then U128_MAX else wanted) / 10_000 > funds.value)
      && (r == Ok(None) <==>
            && config.slippageBps <= MAX_SLIPPAGE_BPS
            && (config.tokenIn == currency || (held.Some? && held.value >= amount)))
  {
    hide MaxAmountIn;
    var r := ResolveAutoswap(chain, currency, amount, config);
    if r.Ok? && r.value.Some? {
      var quoted := chain.quote(config.tokenIn, currency, r.value.value.amountOut).value;
      CapBounded(quoted, config.slippageBps);
      CapFormula(quoted, config.slippageBps);
    }
    if r.Err? && r.error.InsufficientBalance? {
      var deficit := amount - chain.balanceOf(currency).value;
      CapFormula(chain.quote(config.tokenIn, currency, deficit).value, config.slippageBps);
    }
  }

  lemma CapFormula(quoted: nat, slippageBps: nat)
    ensures var wanted := quoted * (10_000 + slippageBps);
      MaxAmountIn(quoted, slippageBps) == (if wanted > U128_MAX then U128_MAX else wanted) / 10_000
  {
  }
}
