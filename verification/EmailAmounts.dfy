/** How a stored amount reads in the order confirmation e-mail. */
module EmailAmounts {
  import opened Money
  import opened EmailTemplate

  /** "%.2f" prints a number of hundredths nearest to the value; which of two at a tie is left open. */
  ghost predicate PrintsAs(value: real, hundredths: int) {
    Abs(hundredths as real / 100.0 - value) <= 0.005
  }

  /**
   * A stored amount is shown as a nearest hundredth of it, whatever the float it was read into, and exactly
   * when it has no more than two decimals.
   */
  lemma StoredAmountIsShown(fl: real -> real, scaled: nat, hundredths: int)
    requires Rounding(fl) && scaled < DECIMAL_LIMIT && PrintsAs(FromScaled(fl, scaled), hundredths)
    ensures Value(TrimDecimal(PrintTwoPlaces(hundredths))) == hundredths as real / 100.0
    ensures -50 <= 100 * hundredths - scaled <= 50
    ensures Value(TrimDecimal(PrintTwoPlaces(hundredths))) == scaled as real / COIN_SCALE <==> scaled % 100 == 0
  {
    AmountReadsExactly(hundredths);
    FloatIsClose(fl, scaled);
    NearestHundredth(scaled, FromScaled(fl, scaled), hundredths);
  }

  lemma FloatIsClose(fl: real -> real, scaled: nat)
    requires Rounding(fl) && scaled < DECIMAL_LIMIT
    ensures Abs(FromScaled(fl, scaled) - scaled as real / COIN_SCALE) <= 0.000001
  {
    if scaled == 0 {
      ZeroIsExact(fl);
    } else {
      ScaledInRange(fl, scaled);
      assert ULP * (scaled as real / COIN_SCALE) <= 0.000001;
    }
  }

  lemma NearestHundredth(scaled: nat, value: real, hundredths: int)
    requires Abs(value - scaled as real / COIN_SCALE) <= 0.000001 && PrintsAs(value, hundredths)
    ensures -50 <= 100 * hundredths - scaled <= 50
    ensures hundredths as real / 100.0 == scaled as real / COIN_SCALE <==> scaled % 100 == 0
  {
    var gap := (100 * hundredths - scaled) as real;
    assert gap == (hundredths as real / 100.0 - scaled as real / COIN_SCALE) * 10000.0;
    assert -50.01 <= gap <= 50.01;
    if scaled % 100 == 0 {
      assert (100 * hundredths - scaled) % 100 == 0;
    }
  }
}
