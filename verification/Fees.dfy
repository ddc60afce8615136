/** What a send may cost: the quote, the ceiling the signature authorises, and what the chain can charge
    (evm/gas-model.ts, evm/pricing.ts, client/sponsored-userop.ts). Prices are in wei per gas. */
module Fees {
  import opened Wrappers
  import opened Requests

  const BASE_TX_GAS: nat := 21_000
  const AUTH_7702_GAS: nat := 25_000
  const NATIVE_GAS_FEE_MUL: nat := 2
  const NATIVE_GAS_TIP_MUL: nat := 1

  /** The two prices an EIP-1559 transaction is signed with. */
  datatype Caps = Caps(maxFeePerGas: nat, maxPriorityFeePerGas: nat)

  function NativeGasFees(suggestedTip: nat, baseFee: nat): Caps {
    var tip := suggestedTip * NATIVE_GAS_TIP_MUL;
    Caps(baseFee * NATIVE_GAS_FEE_MUL + tip, tip)
  }

  function NativeGasEffectiveGasPrice(suggestedTip: nat, baseFee: nat): nat {
    baseFee + suggestedTip * NATIVE_GAS_TIP_MUL
  }

  function SumGas(results: seq<nat>): nat {
    if results == [] then 0 else SumGas(results[..|results| - 1]) + results[|results| - 1]
  }

  /** The total is that of its parts, and of one call its own gas. */
  lemma {:induction false} GasAdds(a: seq<nat>, b: seq<nat>)
    ensures SumGas(a + b) == SumGas(a) + SumGas(b)
    ensures |a| == 1 ==> SumGas(a) == a[0]
  {
    if |a| == 1 { assert a[..0] == []; }
    if b == [] {
      assert a + b == a;
    } else {
      assert (a + b)[..|a + b| - 1] == a + b[..|b| - 1];
      GasAdds(a, b[..|b| - 1]);
    }
  }

  /** `results` is the gas of each simulated call; an empty batch is not simulated. */
  function NativeGasEstimate(calls: seq<Call>, results: seq<nat>, undelegated: bool): nat {
    (if calls == [] then BASE_TX_GAS else SumGas(results)) + if undelegated then AUTH_7702_GAS else 0
  }

  datatype NativeFee = NativeFee(amount: nat, gasUnits: nat, gasPrice: nat)

  function EstimateNativeFee(gasUnits: nat, suggestedTip: nat, baseFee: nat): NativeFee {
    var gasPrice := NativeGasEffectiveGasPrice(suggestedTip, baseFee);
    NativeFee(gasUnits * gasPrice, gasUnits, gasPrice)
  }

  /** Twice the estimate, or a flat limit for a batch that was not priced. */
  function GasLimit(nativeFee: Option<NativeFee>): nat {
    match nativeFee case Some(fee) => fee.gasUnits * 2 case None => 1_000_000
  }

  // ---- EIP-1559, section "Specification" ----

  predicate Includable(caps: Caps, baseFee: nat) {
    caps.maxFeePerGas >= baseFee && caps.maxFeePerGas >= caps.maxPriorityFeePerGas
  }

  /** What one unit of gas is charged in a block of this base fee. */
  function ChargedPrice(caps: Caps, baseFee: nat): nat
    requires Includable(caps, baseFee)
  {
    var room := caps.maxFeePerGas - baseFee;
    baseFee + if caps.maxPriorityFeePerGas < room then caps.maxPriorityFeePerGas else room
  }

  /** A block: the gas it used and its limit, of which half is its target. */
  datatype Block = Block(used: nat, limit: nat)

  const MIN_GAS_LIMIT: nat := 5_000

  predicate ValidBlock(b: Block) { MIN_GAS_LIMIT <= b.limit && b.used <= b.limit }

  function Target(b: Block): nat { b.limit / 2 }

  function Delta(fee: nat, off: nat, target: nat): nat
    requires 0 < target
  {
    fee * off / target / 8
  }

  function NextBaseFee(fee: nat, b: Block): nat
    requires ValidBlock(b)
  {
    var target := Target(b);
    if b.used == target then fee
    else if b.used > target then
      var delta := Delta(fee, b.used - target, target);
      fee + if delta < 1 then 1 else delta
    else
      var delta := Delta(fee, target - b.used, target);
      if delta <= fee then fee - delta else 0
  }

  predicate AllValid(blocks: seq<Block>) { forall i :: 0 <= i < |blocks| ==> ValidBlock(blocks[i]) }

  function AfterBlocks(fee: nat, blocks: seq<Block>): nat
    requires AllValid(blocks)
  {
    if blocks == [] then fee else NextBaseFee(AfterBlocks(fee, blocks[..|blocks| - 1]), blocks[|blocks| - 1])
  }

  /** The tip asked for is paid in full in a block of this base fee. */
  predicate TipInFull(caps: Caps, baseFee: nat) {
    Includable(caps, baseFee) && ChargedPrice(caps, baseFee) == baseFee + caps.maxPriorityFeePerGas
  }

  // ---- the consent maximum against the quote ----

  /** The signed maximum lies between two and four times the quote of the same reads, and reaches neither end unless
      one of the two prices (or the gas) is nothing. */
  lemma MaximumAgainstQuote(gasUnits: nat, tip: nat, baseFee: nat)
    ensures var quote := EstimateNativeFee(gasUnits, tip, baseFee);
      var maximum := GasLimit(Some(quote)) * NativeGasFees(tip, baseFee).maxFeePerGas;
      && 2 * quote.amount <= maximum <= 4 * quote.amount
      && (maximum == 2 * quote.amount <==> gasUnits == 0 || baseFee == 0)
      && (maximum == 4 * quote.amount <==> gasUnits == 0 || tip == 0)
  {
    Products(gasUnits, tip, baseFee);
  }

  lemma Products(g: nat, t: nat, b: nat)
    ensures g * 2 * (b * 2 + t) == 2 * (g * (b + t)) + 2 * (g * b) == 4 * (g * (b + t)) - 2 * (g * t)
    ensures (g * b == 0 <==> g == 0 || b == 0) && (g * t == 0 <==> g == 0 || t == 0)
  {
  }

  lemma ProductMonotone(a: nat, b: nat, c: nat, d: nat)
    requires a <= c && b <= d
    ensures a * b <= c * d
  {
    assert a * b <= c * b <= c * d;
  }

  /** Whatever block includes it and however much gas it uses within its limit, a native-gas transaction is charged at
      most the maximum on the screen. */
  lemma ChargeWithinMaximum(gasLimit: nat, gasUsed: nat, tip: nat, quotedBaseFee: nat, baseFee: nat)
    requires gasUsed <= gasLimit && Includable(NativeGasFees(tip, quotedBaseFee), baseFee)
    ensures gasUsed * ChargedPrice(NativeGasFees(tip, quotedBaseFee), baseFee)
         <= gasLimit * NativeGasFees(tip, quotedBaseFee).maxFeePerGas
  {
    var caps := NativeGasFees(tip, quotedBaseFee);
    ProductMonotone(gasUsed, ChargedPrice(caps, baseFee), gasLimit, caps.maxFeePerGas);
  }

  /** At the quoted base fee the price charged is the price quoted. */
  lemma ChargedAsQuoted(tip: nat, baseFee: nat)
    ensures Includable(NativeGasFees(tip, baseFee), baseFee)
    ensures ChargedPrice(NativeGasFees(tip, baseFee), baseFee) == NativeGasEffectiveGasPrice(tip, baseFee)
  {
  }

  // ---- headroom for a rising base fee ----

  lemma TimesMonotone(a: int, b: int, d: nat)
    ensures a <= b ==> a * d <= b * d
  {
  }

  lemma QuotientBelow(x: nat, n: nat, d: nat)
    requires 0 < d && x < n * d
    ensures x / d < n
  {
    TimesMonotone(n, x / d, d);
    assert x / d * d <= x;
  }

  /** The largest step: a full block of the least limit, whose odd unit lies above twice the target. */
  function LargestStep(fee: nat): nat { (fee + fee / 2_500) / 8 }

  lemma DeltaBound(fee: nat, off: nat, target: nat)
    requires 2_500 <= target && off <= target + 1
    ensures Delta(fee, off, target) <= LargestStep(fee)
  {
    var m := fee / 2_500;
    ProductMonotone(fee, off, fee, target + 1);
    ProductMonotone(m + 1, 2_500, m + 1, target);
    assert fee * (target + 1) == fee * target + fee;
    assert (fee + m + 1) * target == fee * target + (m + 1) * target;
    QuotientBelow(fee * off, fee + m + 1, target);
  }

  const FULL := Block(5_001, 5_001)

  /** The most one block can raise the base fee to. */
  function Raised(fee: nat): nat { fee + if LargestStep(fee) < 1 then 1 else LargestStep(fee) }

  lemma NextAtMostRaised(fee: nat, b: Block)
    requires ValidBlock(b)
    ensures NextBaseFee(fee, b) <= Raised(fee)
  {
    var target := Target(b);
    if b.used > target { DeltaBound(fee, b.used - target, target); }
  }

  lemma FullRaises(fee: nat)
    ensures ValidBlock(FULL) && NextBaseFee(fee, FULL) == Raised(fee)
  {
    assert fee * 2_501 / 2_500 == fee + fee / 2_500;
  }

  function RaisedTimes(fee: nat, n: nat): nat { if n == 0 then fee else Raised(RaisedTimes(fee, n - 1)) }

  lemma {:induction false} RaisedMonotone(fee: nat, m: nat, n: nat)
    requires m <= n
    ensures RaisedTimes(fee, m) <= RaisedTimes(fee, n)
  {
    if m < n { RaisedMonotone(fee, m, n - 1); }
  }

  lemma StepMonotone(a: nat, b: nat)
    requires a <= b
    ensures Raised(a) <= Raised(b)
  {
  }

  lemma {:induction false} AtMostRaised(fee: nat, blocks: seq<Block>)
    requires AllValid(blocks)
    ensures AfterBlocks(fee, blocks) <= RaisedTimes(fee, |blocks|)
  {
    if blocks != [] {
      var n := |blocks| - 1;
      AtMostRaised(fee, blocks[..n]);
      NextAtMostRaised(AfterBlocks(fee, blocks[..n]), blocks[n]);
      StepMonotone(AfterBlocks(fee, blocks[..n]), RaisedTimes(fee, n));
    }
  }

  function FullBlocks(n: nat): (blocks: seq<Block>)
    ensures |blocks| == n && AllValid(blocks)
  {
    seq(n, _ => FULL)
  }

  lemma {:induction false} FullBlocksRaise(fee: nat, n: nat)
    ensures AfterBlocks(fee, FullBlocks(n)) == RaisedTimes(fee, n)
  {
    if n > 0 {
      FullBlocksRaise(fee, n - 1);
      assert FullBlocks(n)[..n - 1] == FullBlocks(n - 1);
      FullRaises(RaisedTimes(fee, n - 1));
    }
  }

  lemma TipInFullIff(tip: nat, quoted: nat, baseFee: nat)
    ensures TipInFull(NativeGasFees(tip, quoted), baseFee) <==> baseFee <= 2 * quoted
  {
  }

  predicate Survives(tip: nat, quoted: nat, blocks: seq<Block>)
    requires AllValid(blocks)
  {
    TipInFull(NativeGasFees(tip, quoted), AfterBlocks(quoted, blocks))
  }

  ghost predicate SurvivesAny(tip: nat, quoted: nat, n: nat) {
    forall blocks: seq<Block> | |blocks| <= n && AllValid(blocks) :: Survives(tip, quoted, blocks)
  }

  /** The ceiling survives any n blocks, so that the tip stays payable in full whatever those blocks hold, exactly when n
      of the largest raises do not double the base fee that was read. */
  lemma BlocksIff(tip: nat, quoted: nat, n: nat)
    ensures SurvivesAny(tip, quoted, n) <==> RaisedTimes(quoted, n) <= 2 * quoted
  {
    if RaisedTimes(quoted, n) <= 2 * quoted {
      forall blocks: seq<Block> | |blocks| <= n && AllValid(blocks) ensures Survives(tip, quoted, blocks) {
        AtMostRaised(quoted, blocks);
        RaisedMonotone(quoted, |blocks|, n);
        TipInFullIff(tip, quoted, AfterBlocks(quoted, blocks));
      }
    } else {
      FullBlocksRaise(quoted, n);
      TipInFullIff(tip, quoted, AfterBlocks(quoted, FullBlocks(n)));
      assert !Survives(tip, quoted, FullBlocks(n));
    }
  }

  lemma RaisedBounds(fee: nat)
    ensures fee >= 8 ==> 20_000 * Raised(fee) <= 22_501 * fee
    ensures 8 * Raised(fee) >= 9 * fee - 7
    ensures fee < 8 ==> Raised(fee) == fee + 1
  {
  }

  lemma FiveRaises(fee: nat)
    ensures RaisedTimes(fee, 5) == Raised(Raised(Raised(Raised(Raised(fee)))))
    ensures RaisedTimes(fee, 5) <= 2 * fee <==> fee >= 5
  {
    var a := Raised(fee);
    var b := Raised(a);
    var c := Raised(b);
    var d := Raised(c);
    assert RaisedTimes(fee, 1) == a;
    assert RaisedTimes(fee, 2) == b;
    assert RaisedTimes(fee, 3) == c;
    assert RaisedTimes(fee, 4) == d;
    RaisedBounds(fee);
    RaisedBounds(a);
    RaisedBounds(b);
    RaisedBounds(c);
    RaisedBounds(d);
  }

  /** Any five blocks: exactly from a base fee of 5 wei. */
  lemma FiveBlocksIff(tip: nat, quoted: nat)
    ensures SurvivesAny(tip, quoted, 5) <==> quoted >= 5
  {
    BlocksIff(tip, quoted, 5);
    FiveRaises(quoted);
  }

  lemma SixRaises(fee: nat)
    requires fee >= 264
    ensures RaisedTimes(fee, 6) > 2 * fee
  {
    FiveRaises(fee);
    RaisedBounds(fee);
    RaisedBounds(Raised(fee));
    RaisedBounds(Raised(Raised(fee)));
    RaisedBounds(Raised(Raised(Raised(fee))));
    RaisedBounds(Raised(Raised(Raised(Raised(fee)))));
    RaisedBounds(RaisedTimes(fee, 5));
    assert RaisedTimes(fee, 6) == Raised(RaisedTimes(fee, 5));
  }

  /** Six blocks can be too many from every base fee of 264 wei on. */
  lemma SixBlocksTooMany(tip: nat, quoted: nat)
    requires quoted >= 264
    ensures !SurvivesAny(tip, quoted, 6)
  {
    BlocksIff(tip, quoted, 6);
    SixRaises(quoted);
  }

  // ---- the sponsored rail ----

  function VerificationLimit(op: UserOp): nat {
    if op.paymaster.Some? && op.paymaster.value.verificationGasLimit.Some? then op.paymaster.value.verificationGasLimit.value else 0
  }

  function PostOpLimit(op: UserOp): nat {
    if op.paymaster.Some? && op.paymaster.value.postOpGasLimit.Some? then op.paymaster.value.postOpGasLimit.value else 0
  }

  function TotalGasUnits(op: UserOp): nat {
    op.callGasLimit + op.verificationGasLimit + op.preVerificationGas + VerificationLimit(op) + PostOpLimit(op)
  }

  function BoundedSponsoredFee(op: UserOp): NativeFee {
    NativeFee(TotalGasUnits(op) * op.maxFeePerGas, TotalGasUnits(op), op.maxFeePerGas)
  }

  /** The gas of each phase of a UserOperation and the price it is charged at. */
  datatype Usage = Usage(call: nat, verification: nat, preVerification: nat, paymasterVerification: nat, postOp: nat, price: nat)

  predicate WithinLimits(op: UserOp, u: Usage) {
    && u.call <= op.callGasLimit
    && u.verification <= op.verificationGasLimit
    && u.preVerification <= op.preVerificationGas
    && u.paymasterVerification <= VerificationLimit(op)
    && u.postOp <= PostOpLimit(op)
    && u.price <= op.maxFeePerGas
  }

  function Charge(u: Usage): nat {
    u.call * u.price + u.verification * u.price + u.preVerification * u.price
    + u.paymasterVerification * u.price + u.postOp * u.price
  }

  lemma Distribute(a: nat, b: nat, c: nat, d: nat, e: nat, p: nat)
    ensures a * p + b * p + c * p + d * p + e * p == (a + b + c + d + e) * p
  {
  }

  /** The displayed fee is the least bound: no charge with every phase within its limit exceeds it, and one reaches
      it. */
  lemma SponsoredFeeIsTheBound(op: UserOp, u: Usage)
    ensures WithinLimits(op, u) ==> Charge(u) <= BoundedSponsoredFee(op).amount
    ensures exists full: Usage :: WithinLimits(op, full) && Charge(full) == BoundedSponsoredFee(op).amount
  {
    if WithinLimits(op, u) {
      Distribute(u.call, u.verification, u.preVerification, u.paymasterVerification, u.postOp, u.price);
      var used := u.call + u.verification + u.preVerification + u.paymasterVerification + u.postOp;
      ProductMonotone(used, u.price, TotalGasUnits(op), op.maxFeePerGas);
    }
    var full := Usage(op.callGasLimit, op.verificationGasLimit, op.preVerificationGas, VerificationLimit(op), PostOpLimit(op),
                      op.maxFeePerGas);
    Distribute(full.call, full.verification, full.preVerification, full.paymasterVerification, full.postOp, full.price);
    assert WithinLimits(op, full);
  }
}
