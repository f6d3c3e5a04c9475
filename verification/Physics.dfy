/** Clipped affine process physics (app/services/physics.py). */
module Physics {
  import opened Rounding

  /** `max(lo, min(hi, value))`; `np.clip` is the same for lo <= hi. */
  function Clip(value: real, lo: real, hi: real): (r: real)
    ensures lo <= hi ==> lo <= r <= hi
    ensures lo <= value <= hi ==> r == value
  {
    var capped := if value < hi then value else hi;
    if capped > lo then capped else lo
  }

  function EnergyIntensity(fuel: real, steam: real, feed: real, temp: real): (r: real)
    ensures 500.0 <= r <= 800.0
  {
    Clip(600.0 + 0.5 * fuel + 2.0 * steam - 0.1 * feed + 0.3 * temp, 500.0, 800.0)
  }

  function CarbonIntensity(fuel: real, steam: real, power: real): (r: real)
    ensures 20.0 <= r <= 80.0
  {
    Clip(0.2 * fuel + 0.3 * steam + 0.05 * power, 20.0, 80.0)
  }

  function EnergyEfficiency(intensity: real): (r: real)
    ensures 60.0 <= r <= 92.0
  {
    Clip(85.0 - 0.025 * (intensity - 500.0), 60.0, 92.0)
  }

  datatype Reading = Reading(power: real, fuel: real, steam: real, feed: real, temp: real)

  datatype Derived = Derived(intensity: real, carbon: real, efficiency: real)

  /** `enrich_reading`: efficiency is taken from the unrounded intensity. */
  function Enrich(r: Reading): Derived {
    var ei := EnergyIntensity(r.fuel, r.steam, r.feed, r.temp);
    Derived(Round2(ei), Round2(CarbonIntensity(r.fuel, r.steam, r.power)), Round2(EnergyEfficiency(ei)))
  }

  /** Less fuel, steam and heat with more feed never raises the intensity. */
  lemma IntensityMonotone(fuel: real, steam: real, feed: real, temp: real,
                          fuel': real, steam': real, feed': real, temp': real)
    requires fuel' <= fuel && steam' <= steam && feed <= feed' && temp' <= temp
    ensures EnergyIntensity(fuel', steam', feed', temp') <= EnergyIntensity(fuel, steam, feed, temp)
  {
  }

  lemma CarbonMonotone(fuel: real, steam: real, power: real, fuel': real, steam': real, power': real)
    requires fuel' <= fuel && steam' <= steam && power' <= power
    ensures CarbonIntensity(fuel', steam', power') <= CarbonIntensity(fuel, steam, power)
  {
  }

  lemma EfficiencyAntitone(intensity: real, intensity': real)
    requires intensity' <= intensity
    ensures EnergyEfficiency(intensity) <= EnergyEfficiency(intensity')
  {
  }

  /** Between the clips one more unit of fuel, steam, feed or heat costs 0.5, 2, -0.1 or 0.3, from 600
      on, and the clips are at 500 and 800. */
  lemma IntensityIsAffine(fuel: real, steam: real, feed: real, temp: real)
    ensures var x := EnergyIntensity(fuel, steam, feed, temp) - 600.0;
            var cost := fuel / 2.0 + steam * 2.0 - feed / 10.0 + temp * 3.0 / 10.0;
            (-100.0 <= cost <= 200.0 ==> x == cost) && (cost < -100.0 ==> x == -100.0) && (cost > 200.0 ==> x == 200.0)
  {
  }

  /** Inside the feature bounds carbon intensity runs from its floor of 20 to 46.25, and never meets its
      ceiling. */
  lemma CarbonRange(fuel: real, steam: real, power: real)
    requires 50.0 <= fuel <= 150.0 && 10.0 <= steam <= 50.0 && 5.0 <= power <= 25.0
    ensures 20.0 <= CarbonIntensity(fuel, steam, power) <= CarbonIntensity(150.0, 50.0, 25.0) == 46.25
    ensures CarbonIntensity(fuel, steam, power) == 20.0 <==> 4.0 * fuel + 6.0 * steam + power <= 400.0
    ensures CarbonIntensity(fuel, steam, power) > 20.0 ==>
              20.0 * CarbonIntensity(fuel, steam, power) == 4.0 * fuel + 6.0 * steam + power
  {
  }

  /** Efficiency falls in a straight line from 85 at the least intensity to 77.5 at the greatest, so its
      own clips at 60 and 92 never act. */
  lemma EfficiencyRange(fuel: real, steam: real, feed: real, temp: real)
    ensures var x := EnergyIntensity(fuel, steam, feed, temp);
            77.5 <= EnergyEfficiency(x) <= 85.0 && 40.0 * (85.0 - EnergyEfficiency(x)) == x - 500.0
  {
  }
}
