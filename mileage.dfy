/** The HMRC approved mileage allowance (`calculate_hmrc_mileage_allowance`),
    in pence: 45p a mile for the first 10,000 miles of a tax year and 25p a
    mile after that. */
module Mileage {

  const FirstBandMiles: int := 10000
  const FirstBandRate: int := 45
  const SecondBandRate: int := 25

  function Min(a: int, b: int): int { if a <= b then a else b }
  function Max(a: int, b: int): int { if a >= b then a else b }

  /** The allowance in pence for a whole number of miles. For a non-negative
      distance it lies between the all-miles-at-25p and all-miles-at-45p
      figures. */
  function MileageAllowance(miles: int): (pence: int)
    ensures miles >= 0 ==> SecondBandRate * miles <= pence <= FirstBandRate * miles
  {
    if miles <= FirstBandMiles then FirstBandRate * miles
    else FirstBandRate * FirstBandMiles + SecondBandRate * (miles - FirstBandMiles)
  }

  /** The same figure band by band: the miles up to 10,000 at 45p plus the
      miles beyond at 25p. */
  lemma MileageByBands(miles: int)
    ensures MileageAllowance(miles)
      == FirstBandRate * Min(miles, FirstBandMiles) + SecondBandRate * Max(miles - FirstBandMiles, 0)
  {
  }

  /** One more mile adds 45p below 10,000 miles and 25p from there on; in
      particular the two formulas meet at 10,000 miles. */
  lemma MileageMarginal(miles: int)
    ensures MileageAllowance(miles + 1) - MileageAllowance(miles)
      == if miles < FirstBandMiles then FirstBandRate else SecondBandRate
  {
  }

  /** More miles never earn a smaller allowance. */
  lemma MileageMonotone(a: int, b: int)
    requires a <= b
    ensures MileageAllowance(a) <= MileageAllowance(b)
  {
  }

  /** £4,500.00 at 10,000 miles; £5,000.00 at 12,000 miles. */
  lemma MileageExamples()
    ensures MileageAllowance(10000) == 450000
    ensures MileageAllowance(12000) == 500000
  {
  }
}
