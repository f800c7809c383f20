/**
 * The engine applied to the resident table: the cumulative totals the
 * table's annotations give, and the linear growth above the last limit.
 */
module ResidentSchedule {
  import opened Wrappers
  import opened TaxBrackets
  import opened TaxCalc

  /** The whole-band totals of the resident table, band by band. */
  lemma ResidentCumulative()
    ensures Cumulative(ResidentTaxBrackets, 2) == 200.0
    ensures Cumulative(ResidentTaxBrackets, 9) == 36550.0
    ensures Cumulative(ResidentTaxBrackets, 10) == 44550.0
    ensures Cumulative(ResidentTaxBrackets, 11) == 84150.0
    ensures Cumulative(ResidentTaxBrackets, 12) == 199150.0
  {
    var t := ResidentTaxBrackets;
    assert Cumulative(t, 1) == 0.0;
    assert Cumulative(t, 2) == 200.0;
    assert Cumulative(t, 3) == 550.0;
    assert Cumulative(t, 4) == 3350.0;
    assert Cumulative(t, 5) == 7950.0;
    assert Cumulative(t, 6) == 13950.0;
    assert Cumulative(t, 7) == 21150.0;
    assert Cumulative(t, 8) == 28750.0;
    assert Cumulative(t, 9) == 36550.0;
    assert Cumulative(t, 10) == 44550.0;
    assert Cumulative(t, 11) == 84150.0;
    assert Cumulative(t, 12) == 199150.0;
  }

  /** Income up to 20,000 falls entirely in the 0% band. */
  lemma TaxAt20000()
    ensures ProgressiveTax(Finite(20000.0), ResidentTaxBrackets) == 0.0
  {
    ResidentWellFormed();
    TaxInBand(ResidentTaxBrackets, 20000.0, 0);
  }

  /** 2% on 20,000..30,000 plus 3.5% on 30,000..40,000. */
  lemma TaxAt40000()
    ensures ProgressiveTax(Finite(40000.0), ResidentTaxBrackets) == 550.0
  {
    ResidentWellFormed();
    ResidentCumulative();
    TaxInBand(ResidentTaxBrackets, 40000.0, 2);
  }

  /** The cumulative tax on the first 320,000 is 44,550. */
  lemma TaxAt320000()
    ensures ProgressiveTax(Finite(320000.0), ResidentTaxBrackets) == 44550.0
  {
    ResidentWellFormed();
    ResidentCumulative();
    TaxInBand(ResidentTaxBrackets, 320000.0, 9);
  }

  /** The next 180,000 at 22% bring the cumulative tax at 500,000 to 84,150. */
  lemma TaxAt500000()
    ensures ProgressiveTax(Finite(500000.0), ResidentTaxBrackets) == 84150.0
  {
    ResidentWellFormed();
    ResidentCumulative();
    TaxInBand(ResidentTaxBrackets, 500000.0, 10);
  }

  /** The next 500,000 at 23% bring the cumulative tax at 1,000,000 to 199,150. */
  lemma TaxAt1000000()
    ensures ProgressiveTax(Finite(1000000.0), ResidentTaxBrackets) == 199150.0
  {
    ResidentWellFormed();
    ResidentCumulative();
    TaxInBand(ResidentTaxBrackets, 1000000.0, 11);
  }

  /** In excess of 1,000,000 every further unit is taxed at exactly 24%. */
  lemma TaxAboveOneMillion(x: real)
    requires x > 1000000.0
    ensures ProgressiveTax(Finite(x), ResidentTaxBrackets) == 199150.0 + 0.24 * (x - 1000000.0)
    ensures ProgressiveTax(Finite(x), ResidentTaxBrackets) > 199150.0
  {
    ResidentWellFormed();
    ResidentCumulative();
    TaxInBand(ResidentTaxBrackets, x, 12);
  }
}
