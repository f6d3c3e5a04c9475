/** Scope 1, 2 and 3 accounting (app/services/carbon.py, app/carbon/scope3.py). */
module CarbonScopes {
  import opened Rounding

  /** kg CO2 per m3 of gas, per ton of steam, per kWh. */
  datatype Factors = Factors(gas: real, steam: real, electricity: real, version: string)

  datatype Breakdown = Breakdown(scope1: real, scope2: real, intensity: real, product: real, version: string,
                                 plant: string)

  /** Before rounding: kg CO2, kg CO2 per ton, tons. */
  datatype Account = Account(scope1: real, scope2: real, intensity: real, product: real)

  function Rounded(a: Account, ef: Factors, plant: string): Breakdown {
    Breakdown(Round2(a.scope1), Round2(a.scope2), Round2(a.intensity), Round3(a.product), ef.version, plant)
  }

  function AccountOfRates(fuel: real, steam: real, power: real, feed: real, hours: real, ef: Factors): Account {
    var fuelM3 := fuel * 1000.0 * hours;
    var steamTon := steam * hours;
    var kwh := power * 1000.0 * hours;
    var productTon := Larger(feed * hours, 0.000001);
    var scope1 := fuelM3 * ef.gas + steamTon * ef.steam;
    var scope2 := kwh * ef.electricity;
    Account(scope1, scope2, (scope1 + scope2) / productTon, productTon)
  }

  function AccountOfIntegrals(fuelKm3: real, steamTon: real, mwh: real, productTon: real, ef: Factors): Account {
    var fuelM3 := fuelKm3 * 1000.0;
    var kwh := mwh * 1000.0;
    var product := Larger(productTon, 0.000001);
    var scope1 := fuelM3 * ef.gas + steamTon * ef.steam;
    var scope2 := kwh * ef.electricity;
    Account(scope1, scope2, (scope1 + scope2) / product, product)
  }

  /** `compute_scopes`: mean hourly rates over a duration. */
  function FromRates(fuel: real, steam: real, power: real, feed: real, hours: real, ef: Factors,
                     plant: string): Breakdown {
    Rounded(AccountOfRates(fuel, steam, power, feed, hours, ef), ef, plant)
  }

  /** `compute_scopes_from_integrals`: totals already integrated. */
  function FromIntegrals(fuelKm3: real, steamTon: real, mwh: real, productTon: real, ef: Factors,
                         plant: string): Breakdown {
    Rounded(AccountOfIntegrals(fuelKm3, steamTon, mwh, productTon, ef), ef, plant)
  }

  /** The report aggregation: mean rates times the window's length, at least 1e-9 hours. */
  datatype Totals = Totals(fuelKm3: real, steamTon: real, mwh: real, productTon: real)

  function Integrate(fuel: real, steam: real, power: real, feed: real, hours: real): Totals {
    Totals(fuel * hours, steam * hours, power * hours, feed * hours)
  }

  lemma Reorder(a: real, b: real, c: real)
    ensures a * b * c == a * c * b
  {
    assert a * b * c == a * (b * c);
    assert a * c * b == a * (c * b);
  }

  /** With the same factors the two ways of accounting agree for all inputs, to the last digit
      and down to the floor under the product. */
  lemma RatesAgreeWithIntegrals(fuel: real, steam: real, power: real, feed: real, hours: real, ef: Factors,
                                plant: string)
    ensures var t := Integrate(fuel, steam, power, feed, hours);
            FromRates(fuel, steam, power, feed, hours, ef, plant)
              == FromIntegrals(t.fuelKm3, t.steamTon, t.mwh, t.productTon, ef, plant)
  {
    SameAccount(fuel, steam, power, feed, hours, ef);
  }

  lemma SameAccount(fuel: real, steam: real, power: real, feed: real, hours: real, ef: Factors)
    ensures AccountOfRates(fuel, steam, power, feed, hours, ef)
            == AccountOfIntegrals(fuel * hours, steam * hours, power * hours, feed * hours, ef)
  {
    Reorder(fuel, 1000.0, hours);
    Reorder(power, 1000.0, hours);
  }

  /** The intensity of mean rates does not depend on how long they are held, as long as the
      product stays above its floor. */
  lemma IntensityIgnoresDuration(fuel: real, steam: real, power: real, feed: real, hours: real, hours': real,
                                 ef: Factors, plant: string)
    requires hours > 0.0 && hours' > 0.0 && feed * hours >= 0.000001 && feed * hours' >= 0.000001
    ensures FromRates(fuel, steam, power, feed, hours, ef, plant).intensity
            == FromRates(fuel, steam, power, feed, hours', ef, plant).intensity
  {
    AccountedIntensity(fuel, steam, power, feed, hours, ef);
    AccountedIntensity(fuel, steam, power, feed, hours', ef);
  }

  lemma AccountedIntensity(fuel: real, steam: real, power: real, feed: real, hours: real, ef: Factors)
    requires hours > 0.0 && feed * hours >= 0.000001
    ensures feed > 0.0
    ensures AccountOfRates(fuel, steam, power, feed, hours, ef).intensity
            == (fuel * 1000.0 * ef.gas + steam * ef.steam + power * 1000.0 * ef.electricity) / feed
  {
    RateTimesDuration(fuel, steam, power, feed, hours, ef);
  }

  lemma RateTimesDuration(fuel: real, steam: real, power: real, feed: real, hours: real, ef: Factors)
    requires hours > 0.0 && feed * hours >= 0.000001
    ensures feed > 0.0
    ensures (fuel * 1000.0 * hours * ef.gas + steam * hours * ef.steam
             + power * 1000.0 * hours * ef.electricity) / (feed * hours)
            == (fuel * 1000.0 * ef.gas + steam * ef.steam + power * 1000.0 * ef.electricity) / feed
  {
    if feed <= 0.0 { NotPositive(feed, hours); }
    var perHour := fuel * 1000.0 * ef.gas + steam * ef.steam + power * 1000.0 * ef.electricity;
    Reorder(fuel * 1000.0, hours, ef.gas);
    Reorder(steam, hours, ef.steam);
    Reorder(power * 1000.0, hours, ef.electricity);
    Factor(fuel * 1000.0 * ef.gas, steam * ef.steam, power * 1000.0 * ef.electricity, hours);
    Cancel(perHour, feed, hours);
  }

  lemma NotPositive(x: real, y: real)
    requires x <= 0.0 && y > 0.0
    ensures x * y <= 0.0
  {
  }

  lemma Factor(a: real, b: real, c: real, h: real)
    ensures a * h + b * h + c * h == (a + b + c) * h
  {
  }

  lemma Cancel(x: real, y: real, h: real)
    requires y > 0.0 && h > 0.0 && y * h > 0.0
    ensures (x * h) / (y * h) == x / y
  {
    var q := x / y;
    assert q * y == x;
    assert q * (y * h) == (q * y) * h;
    Quotient(q, y * h, x * h);
  }

  lemma Quotient(q: real, d: real, n: real)
    requires d > 0.0 && q * d == n
    ensures n / d == q
  {
  }

  // ----- scope 3 ------------------------------------------------------------------------------

  datatype Scope3Factors = Scope3Factors(fuelUpstream: real, purchasedGoods: real, waste: real)

  datatype Scope3 = Scope3(cat3: real, cat1: real, cat5: real, total: real)

  /** Each category rounded, and the total of the unrounded ones rounded. */
  function Reported(cat3: real, cat1: real, cat5: real): Scope3 {
    Scope3(Round2(cat3), Round2(cat1), Round2(cat5), Round2(cat3 + cat1 + cat5))
  }

  function ComputeScope3(fuelKm3: real, productTon: real, f: Scope3Factors): Scope3 {
    Reported(fuelKm3 * 1000.0 * f.fuelUpstream, productTon * f.purchasedGoods, productTon * f.waste)
  }

  /** How much rounding added. */
  function Error(x: real): (e: real)
    ensures -0.005 <= e <= 0.005
  {
    Round2(x) - x
  }

  /** The rounded total is within 0.02 of the rounded categories, and 0.02 away exactly when all
      three categories round by a full half hundredth one way and the total the other way. */
  lemma TotalError(a: real, b: real, c: real)
    ensures var s := Reported(a, b, c);
            var d := s.total - (s.cat3 + s.cat1 + s.cat5);
            && -0.02 <= d <= 0.02
            && (d == -0.02 <==> Error(a) == Error(b) == Error(c) == 0.005 && Error(a + b + c) == -0.005)
            && (d == 0.02 <==> Error(a) == Error(b) == Error(c) == -0.005 && Error(a + b + c) == 0.005)
  {
    FourErrors(Error(a + b + c), Error(a), Error(b), Error(c));
  }

  lemma FourErrors(t: real, x: real, y: real, z: real)
    requires -0.005 <= t <= 0.005 && -0.005 <= x <= 0.005 && -0.005 <= y <= 0.005 && -0.005 <= z <= 0.005
    ensures t - x - y - z == -0.02 <==> x == y == z == 0.005 && t == -0.005
    ensures t - x - y - z == 0.02 <==> x == y == z == -0.005 && t == 0.005
  {
  }

  /** So for every plant and period. */
  lemma Scope3TotalWithinBound(fuelKm3: real, productTon: real, f: Scope3Factors)
    ensures var s := ComputeScope3(fuelKm3, productTon, f); -0.02 <= s.total - (s.cat3 + s.cat1 + s.cat5) <= 0.02
  {
    TotalError(fuelKm3 * 1000.0 * f.fuelUpstream, productTon * f.purchasedGoods, productTon * f.waste);
  }

  /** The bound is attained: three categories of 0.015 are reported as 0.02 each, their total of
      0.045 as 0.04. */
  lemma Scope3BoundAttained()
    ensures var s := ComputeScope3(0.001, 1.0, Scope3Factors(0.015, 0.015, 0.015));
            s == Scope3(0.02, 0.02, 0.02, 0.04)
  {
    HalfEvenUnique(1.5, 2);
    HalfEvenUnique(4.5, 4);
  }

  // ----- which factor prices what -------------------------------------------------------------

  /** Gas and steam are priced in scope 1 and electricity in scope 2: a thousand m3 of gas, a ton of
      steam and a MWh at factors a, b and c make 1000 a + b and 1000 c. */
  lemma ScopesPriceTheirOwn(a: real, b: real, c: real, version: string, plant: string)
    ensures var s := FromIntegrals(1.0, 1.0, 1.0, 1.0, Factors(a, b, c, version), plant);
            && s.scope1 == Round2(1000.0 * a + b) && s.scope2 == Round2(1000.0 * c)
            && s.intensity == Round2(1000.0 * a + b + 1000.0 * c) && s.product == 1.0
            && s.version == version && s.plant == plant
  {
    HalfEvenUnique(1000.0, 1000);
  }

  /** Each quantity counts in proportion: n times the totals make n times the unrounded scopes. */
  lemma ScopesAreProportional(fuelKm3: real, steamTon: real, mwh: real, productTon: real, ef: Factors, n: real)
    ensures var one := AccountOfIntegrals(fuelKm3, steamTon, mwh, productTon, ef);
            var all := AccountOfIntegrals(n * fuelKm3, n * steamTon, n * mwh, productTon, ef);
            all.scope1 == n * one.scope1 && all.scope2 == n * one.scope2
  {
    Regroup(n, fuelKm3, 1000.0, ef.gas);
    Regroup(n, mwh, 1000.0, ef.electricity);
    assert n * steamTon * ef.steam == n * (steamTon * ef.steam);
  }

  lemma Regroup(n: real, x: real, k: real, f: real)
    ensures n * x * k * f == n * (x * k * f)
  {
  }

  /** Without any product the intensity is that of a millionth of a ton, not an error; else the product
      is stated to the nearest kilogram. */
  lemma ProductIsFloored(fuelKm3: real, steamTon: real, mwh: real, productTon: real, ef: Factors, plant: string)
    ensures productTon <= 0.000001 ==>
              FromIntegrals(fuelKm3, steamTon, mwh, productTon, ef, plant)
              == FromIntegrals(fuelKm3, steamTon, mwh, 0.000001, ef, plant)
    ensures productTon >= 0.000001 ==>
              productTon - 0.0005 <= FromIntegrals(fuelKm3, steamTon, mwh, productTon, ef, plant).product
              <= productTon + 0.0005
  {
  }

  /** Scope 3: upstream emissions follow the fuel, purchased goods and waste the product, each by its own
      factor and no other. */
  lemma CategoriesPriceTheirOwn(a: real, b: real, c: real)
    ensures ComputeScope3(1.0, 1.0, Scope3Factors(a, b, c))
            == Scope3(Round2(1000.0 * a), Round2(b), Round2(c), Round2(1000.0 * a + b + c))
  {
  }

  lemma QuantitiesPriceTheirOwn(fuelKm3: real, productTon: real)
    ensures ComputeScope3(fuelKm3, productTon, Scope3Factors(0.001, 2.0, 3.0))
            == Scope3(Round2(fuelKm3), Round2(2.0 * productTon), Round2(3.0 * productTon),
                      Round2(fuelKm3 + 5.0 * productTon))
  {
  }
}
