/**
 * Coin amounts. The database keeps them as DECIMAL(10,4), the service carries them as
 * float64 and compares them as integers of ten-thousandths. The float64 format enters
 * only through its rounding function, so the results hold for every correctly rounding one.
 */
module Money {
  import opened Text

  const COIN_SCALE: real := 10000.0
  const MAX_LINES := 50
  const MAX_QUANTITY := 1000
  /** DECIMAL(10,4) holds fewer than this many ten-thousandths. */
  const DECIMAL_LIMIT := 10_000_000_000
  const TWO_51 := 2_251_799_813_685_248
  const TWO_53 := 9_007_199_254_740_992
  const INT64_MIN := -9_223_372_036_854_775_808
  const INT64_MAX := 9_223_372_036_854_775_807
  const ULP: real := 1.0 / 9007199254740992.0

  function Abs(x: real): real { if x < 0.0 then -x else x }

  /**
   * What IEEE-754 double rounding promises on the magnitudes that occur here: a relative
   * error of at most 2^-53, and no error at all on integers up to 2^53.
   */
  ghost predicate Rounding(fl: real -> real) {
    && (forall x :: 0.00001 <= Abs(x) <= 1.0e18 ==> Abs(fl(x) - x) <= ULP * Abs(x))
    && (forall x :: Abs(x) <= TWO_53 as real && x == x.Floor as real ==> fl(x) == x)
  }

  /** math.Round: nearest integer, halves away from zero. */
  function Round(x: real): int {
    if x >= 0.0 then (x + 0.5).Floor else -((0.5 - x).Floor)
  }

  /** The conversion to int64; values outside its range give its minimum, as on amd64. */
  function ToInt64(n: int): int {
    if INT64_MIN <= n <= INT64_MAX then n else INT64_MIN
  }

  function ScaleCoins(fl: real -> real, amount: real): int {
    ToInt64(Round(fl(amount * COIN_SCALE)))
  }

  /** The float64 nearest to `scaled` ten-thousandths. */
  function FromScaled(fl: real -> real, scaled: int): real {
    fl(scaled as real / COIN_SCALE)
  }

  lemma RoundNear(x: real, n: int)
    requires Abs(x - n as real) < 0.5
    ensures Round(x) == n
  {
    if x >= 0.0 {
      assert n as real < x + 0.5 < n as real + 1.0;
    } else {
      assert (-n) as real < 0.5 - x < (-n) as real + 1.0;
    }
  }

  /** Nobody is nearer, and of two as near the one farther from zero is taken. */
  lemma RoundIsNearest(x: real)
    ensures Abs(Round(x) as real - x) <= 0.5
    ensures Abs(Round(x) as real - x) == 0.5 ==> Abs(Round(x) as real) > Abs(x)
  {
    if x >= 0.0 {
      assert (x + 0.5).Floor as real <= x + 0.5 < (x + 0.5).Floor as real + 1.0;
    } else {
      assert (0.5 - x).Floor as real <= 0.5 - x < (0.5 - x).Floor as real + 1.0;
    }
  }

  /** Eight bytes hold the integer or, when it is out of their range, their smallest value. */
  lemma Int64Holds(n: int)
    ensures -0x8000_0000_0000_0000 <= n < 0x8000_0000_0000_0000 ==> ToInt64(n) == n
    ensures n < -0x8000_0000_0000_0000 || 0x8000_0000_0000_0000 <= n ==> ToInt64(n) == -0x8000_0000_0000_0000
  {}

  /** Two roundings of a value below 2^51 stay within half a unit of it. */
  lemma TwoRoundings(n: nat, a: real, z: real)
    requires 0 < n < TWO_51
    requires Abs(a - n as real / COIN_SCALE) <= ULP * (n as real / COIN_SCALE)
    requires Abs(z - a * COIN_SCALE) <= ULP * (a * COIN_SCALE)
    ensures Abs(z - n as real) < 0.5
  {
    var y := a * COIN_SCALE;
    var m := n as real;
    assert m <= 2251799813685247.0;
    assert Abs(y - m) <= ULP * m;
    assert ULP * m <= 0.25 - ULP;
    assert y <= m + 0.25;
    assert ULP * y <= ULP * m + ULP * 0.25;
  }

  lemma ScaledInRange(fl: real -> real, n: nat)
    requires Rounding(fl) && 0 < n < TWO_51
    ensures var a := FromScaled(fl, n);
      && Abs(a - n as real / COIN_SCALE) <= ULP * (n as real / COIN_SCALE)
      && 0.00001 <= a * COIN_SCALE <= 1.0e18
  {
    var x := n as real / COIN_SCALE;
    assert 0.0001 <= x <= 225179981369.0;
    assert Abs(fl(x) - x) <= ULP * Abs(x);
    assert ULP * x <= 0.01 * x;
  }

  lemma RoundedAt(fl: real -> real, x: real)
    requires Rounding(fl) && 0.00001 <= x <= 1.0e18
    ensures Abs(fl(x) - x) <= ULP * x
  {
    assert Abs(x) == x;
  }

  lemma ZeroIsExact(fl: real -> real)
    requires Rounding(fl)
    ensures fl(0.0) == 0.0
  {}

  lemma ScaledTwice(fl: real -> real, n: nat)
    requires Rounding(fl) && 0 < n < TWO_51
    ensures Abs(fl(FromScaled(fl, n) * COIN_SCALE) - n as real) < 0.5
  {
    ScaledInRange(fl, n);
    RoundedAt(fl, FromScaled(fl, n) * COIN_SCALE);
    TwoRoundings(n, FromScaled(fl, n), fl(FromScaled(fl, n) * COIN_SCALE));
  }

  /** Reading an amount of the database back as an integer loses nothing below 2^51. */
  lemma ScaleIsExact(fl: real -> real, n: nat)
    requires Rounding(fl) && n < TWO_51
    ensures ScaleCoins(fl, FromScaled(fl, n)) == n
  {
    if n == 0 {
      ZeroIsExact(fl);
      assert 0 as real / COIN_SCALE == 0.0;
    } else {
      ScaledTwice(fl, n);
    }
    RoundNear(fl(FromScaled(fl, n) * COIN_SCALE), n);
  }

  /**
   * Writing the total into a DECIMAL(10,4) column: whichever decimal `d` the driver prints
   * for the float, as long as it reads back within one rounding, the column stores `n`.
   */
  lemma StoredTotalIsExact(fl: real -> real, n: nat, d: real)
    requires Rounding(fl) && n < TWO_51
    requires Abs(d - FromScaled(fl, n)) <= ULP * Abs(FromScaled(fl, n))
    ensures Round(d * COIN_SCALE) == n
  {
    var a := FromScaled(fl, n);
    if n == 0 {
      assert fl(0.0) == 0.0;
    } else {
      ScaledInRange(fl, n);
      TwoRoundings(n, a, d * COIN_SCALE);
    }
    RoundNear(d * COIN_SCALE, n);
  }

  datatype PricedLine = PricedLine(price: nat, quantity: nat)

  ghost function ExactTotal(lines: seq<PricedLine>): nat {
    if lines == [] then 0
    else ExactTotal(lines[..|lines| - 1]) + lines[|lines| - 1].price * lines[|lines| - 1].quantity
  }

  ghost predicate WithinBounds(lines: seq<PricedLine>) {
    && |lines| <= MAX_LINES
    && forall i :: 0 <= i < |lines| ==> lines[i].price < DECIMAL_LIMIT && lines[i].quantity <= MAX_QUANTITY
  }

  lemma ProductBound(a: nat, b: nat, x: nat, y: nat)
    requires a <= x && b <= y
    ensures a * b <= x * y
  {
    assert a * b <= x * b <= x * y;
  }

  lemma {:induction false} TotalFitsInt64(lines: seq<PricedLine>)
    requires WithinBounds(lines)
    ensures ExactTotal(lines) <= |lines| * (DECIMAL_LIMIT * MAX_QUANTITY)
    ensures ExactTotal(lines) < TWO_51
  {
    if lines == [] {
    } else {
      var last := lines[|lines| - 1];
      TotalFitsInt64(lines[..|lines| - 1]);
      ProductBound(last.price, last.quantity, DECIMAL_LIMIT, MAX_QUANTITY);
    }
  }

  /**
   * The accumulation loop of Checkout, on float prices and int64 arithmetic: the sum it
   * carries is the exact line sum, and so is what the caller's float total scales back to.
   */
  method AccumulateTotal(fl: real -> real, prices: seq<real>, quantities: seq<int>, ghost lines: seq<PricedLine>)
    returns (totalScaled: int, total: real)
    requires Rounding(fl) && WithinBounds(lines)
    requires |prices| == |quantities| == |lines|
    requires forall i :: 0 <= i < |lines| ==>
      prices[i] == FromScaled(fl, lines[i].price) && quantities[i] == lines[i].quantity
    ensures totalScaled == ExactTotal(lines) < TWO_51
    ensures ScaleCoins(fl, total) == ExactTotal(lines)
  {
    totalScaled := 0;
    for n := 0 to |prices|
      invariant totalScaled == ExactTotal(lines[..n])
    {
      ghost var line := lines[n];
      ScaleIsExact(fl, line.price);
      PrefixTotal(lines, n);
      var product := ToInt64(ScaleCoins(fl, prices[n]) * quantities[n]);
      assert product == line.price * line.quantity;
      totalScaled := ToInt64(totalScaled + product);
    }
    assert lines[..|lines|] == lines;
    TotalFitsInt64(lines);
    total := fl(fl(totalScaled as real) / COIN_SCALE);
    IntegersAreExact(fl, totalScaled);
    ScaleIsExact(fl, totalScaled);
  }

  lemma IntegersAreExact(fl: real -> real, n: nat)
    requires Rounding(fl) && n < TWO_51
    ensures fl(n as real) == n as real
  {
    assert (n as real).Floor == n;
  }

  lemma PrefixTotal(lines: seq<PricedLine>, n: nat)
    requires WithinBounds(lines) && n < |lines|
    ensures ExactTotal(lines[..n + 1]) == ExactTotal(lines[..n]) + lines[n].price * lines[n].quantity
    ensures ExactTotal(lines[..n + 1]) < TWO_51
    ensures 0 <= lines[n].price * lines[n].quantity < TWO_51
  {
    assert lines[..n + 1][..n] == lines[..n];
    TotalFitsInt64(lines[..n + 1]);
    ProductBound(lines[n].price, lines[n].quantity, DECIMAL_LIMIT, MAX_QUANTITY);
  }

  // ----- verifying a payment -----

  datatype Amount = Missing | Unparseable | NotFinite | Finite(value: real)
  datatype Call = Call(name: string, args: seq<string>)
  datatype Details = Details(found: bool, call: Option<Call>, amount: Amount, success: bool, status: string)

  /** The chain as a fixed function of the hash, the merchant wallet and the float format. */
  datatype Env = Env(fl: real -> real, chain: string -> Details, wallet: string)

  /** The texts of verifyPayment, which end up in the log. */
  datatype Reason =
    | NotOnChain | NotDecoded | NotATransfer | OtherRecipient | NoAmount | NotANumber | OtherAmount | NotSuccessful
  datatype Verdict = Accepted | Refused(reason: Reason)

  predicate EqualFold(a: string, b: string) { ToLower(a) == ToLower(b) }

  function ScaledAmount(fl: real -> real, amount: Amount): Option<int> {
    match amount
    case Finite(v) => Some(ScaleCoins(fl, v))
    case NotFinite => Some(INT64_MIN)
    case _ => None
  }

  function VerifyPayment(env: Env, d: Details, expectedTotal: real): Verdict {
    if !d.found then Refused(NotOnChain)
    else if d.call.None? then Refused(NotDecoded)
    else if d.call.value.name != "transfer" || |d.call.value.args| < 1 then
      Refused(NotATransfer)
    else if !EqualFold(d.call.value.args[0], env.wallet) then
      Refused(OtherRecipient)
    else if d.amount.Missing? then Refused(NoAmount)
    else if d.amount.Unparseable? then Refused(NotANumber)
    else if ScaledAmount(env.fl, d.amount).value != ScaleCoins(env.fl, expectedTotal) then
      Refused(OtherAmount)
    else if !d.success || d.status != "SUCCESS" then Refused(NotSuccessful)
    else Accepted
  }

  /** The transfer named by `hash` reached the merchant wallet and is worth `scaled` ten-thousandths. */
  predicate Pays(env: Env, hash: string, scaled: int) {
    var d := env.chain(hash);
    && d.found && d.success && d.status == "SUCCESS"
    && d.call.Some? && d.call.value.name == "transfer"
    && |d.call.value.args| >= 1 && EqualFold(d.call.value.args[0], env.wallet)
    && ScaledAmount(env.fl, d.amount) == Some(scaled)
  }

  /** Verification accepts exactly the transfers worth the stored total, to the last ten-thousandth. */
  lemma VerifyIsExact(env: Env, hash: string, total: nat)
    requires Rounding(env.fl) && total < TWO_51
    ensures VerifyPayment(env, env.chain(hash), FromScaled(env.fl, total)).Accepted? <==> Pays(env, hash, total)
  {
    ScaleIsExact(env.fl, total);
  }

  /** The wallet's transfer, spelled out: a successful one, to the wallet in any letter case, worth the amount. */
  predicate ReachedWallet(env: Env, d: Details, scaled: int) {
    && d.found && d.success && d.status == "SUCCESS"
    && d.call.Some? && d.call.value.name == "transfer" && |d.call.value.args| > 0
    && SameLetters(d.call.value.args[0], env.wallet)
    && d.amount.Finite? && ScaleCoins(env.fl, d.amount.value) == scaled
  }

  /** Verification accepts exactly the successful transfers to the master wallet, letter case aside, worth the total. */
  lemma AcceptedMeans(env: Env, hash: string, total: nat)
    requires Rounding(env.fl) && total < TWO_51
    ensures VerifyPayment(env, env.chain(hash), FromScaled(env.fl, total)).Accepted? <==>
      ReachedWallet(env, env.chain(hash), total)
    ensures Pays(env, hash, total) <==> ReachedWallet(env, env.chain(hash), total)
  {
    var d := env.chain(hash);
    if d.call.Some? && |d.call.value.args| > 0 { CaseFolds(d.call.value.args[0], env.wallet); }
    VerifyIsExact(env, hash, total);
  }

  /** A decoded transfer call to the wallet, letter case aside. */
  predicate ToWallet(env: Env, d: Details) {
    d.found && d.call.Some? && d.call.value.name == "transfer" && |d.call.value.args| > 0
    && SameLetters(d.call.value.args[0], env.wallet)
  }

  /** The amount in ten-thousandths is the expected one; an infinity or NaN converts to the smallest int64. */
  predicate WorthIt(env: Env, d: Details, expectedTotal: real) {
    match d.amount
    case Finite(v) => ScaleCoins(env.fl, v) == ScaleCoins(env.fl, expectedTotal)
    case NotFinite => -0x8000_0000_0000_0000 == ScaleCoins(env.fl, expectedTotal)
    case _ => false
  }

  /** Each refusal names the first condition the transfer fails. */
  lemma RefusalsAreTrue(env: Env, d: Details, expectedTotal: real)
    ensures var v := VerifyPayment(env, d, expectedTotal);
      v.Refused? ==> match v.reason
        case NotOnChain => !d.found
        case NotDecoded => d.found && d.call == None
        case NotATransfer => d.found && d.call.Some? && (d.call.value.name != "transfer" || d.call.value.args == [])
        case OtherRecipient =>
          d.found && d.call.Some? && d.call.value.name == "transfer" && d.call.value.args != [] && !ToWallet(env, d)
        case NoAmount => ToWallet(env, d) && d.amount == Missing
        case NotANumber => ToWallet(env, d) && d.amount == Unparseable
        case OtherAmount =>
          ToWallet(env, d) && (d.amount.Finite? || d.amount.NotFinite?) && !WorthIt(env, d, expectedTotal)
        case NotSuccessful =>
          ToWallet(env, d) && WorthIt(env, d, expectedTotal) && (!d.success || d.status != "SUCCESS")
    ensures VerifyPayment(env, d, expectedTotal).Accepted? <==>
      ToWallet(env, d) && WorthIt(env, d, expectedTotal) && d.success && d.status == "SUCCESS"
  {
    if d.call.Some? && |d.call.value.args| > 0 { CaseFolds(d.call.value.args[0], env.wallet); }
  }

  /** A transfer of `paid` ten-thousandths is accepted for an order of `total` only if they are equal. */
  lemma PaymentMustBeExact(env: Env, hash: string, paid: nat, total: nat)
    requires Rounding(env.fl) && paid < TWO_51 && total < TWO_51
    requires env.chain(hash).amount == Finite(FromScaled(env.fl, paid))
    requires VerifyPayment(env, env.chain(hash), FromScaled(env.fl, total)).Accepted?
    ensures paid == total
  {
    ScaleIsExact(env.fl, total);
    ScaleIsExact(env.fl, paid);
  }
}
