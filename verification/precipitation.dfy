/**
 * The precipitation summary of one observation: its type, the chance label
 * and the intensity label, all derived from the millimetre readings.
 */
module Precipitation {
  import opened Wrappers

  datatype Kind = NoPrecipitation | Rain | Snow | Mixed {
    /** The text stored in `precipitation_type`. */
    function Label(): string {
      match this
      case NoPrecipitation => "None"
      case Rain => "Rain"
      case Snow => "Snow"
      case Mixed => "Mixed"
    }
  }

  datatype Chance = Low | Medium | High {
    /** The text stored in `chance_of_precipitation`. */
    function Label(): string {
      match this
      case Low => "Low"
      case Medium => "Medium"
      case High => "High"
    }

    function Rank(): nat {
      match this
      case Low => 0
      case Medium => 1
      case High => 2
    }
  }

  datatype Intensity = NoIntensity | Light | Moderate | Heavy {
    /** The text stored in `precipitation_intensity`. */
    function Label(): string {
      match this
      case NoIntensity => "None"
      case Light => "Light"
      case Moderate => "Moderate"
      case Heavy => "Heavy"
    }

    function Rank(): nat {
      match this
      case NoIntensity => 0
      case Light => 1
      case Moderate => 2
      case Heavy => 3
    }
  }

  /** The three labels derived together for one record. */
  datatype Info = Info(kind: Kind, chance: Chance, intensity: Intensity)

  /** A reading as the sum uses it: an absent value counts as 0 mm. */
  function Reading(m: Option<real>): real {
    m.GetOr(0.0)
  }

  /**
   * The precipitation type. The checks run Rain, Snow, Mixed, None in that
   * order; each of the first three is characterised on its own.
   */
  function KindOf(rain: real, snow: real): (k: Kind)
    ensures k == Rain <==> rain > 0.0 && snow == 0.0
    ensures k == Snow <==> snow > 0.0 && rain == 0.0
    ensures k == Mixed <==> rain > 0.0 && snow > 0.0
    ensures k == NoPrecipitation <==>
      (rain <= 0.0 && snow <= 0.0) || (rain > 0.0 && snow < 0.0) || (rain < 0.0 && snow > 0.0)
  {
    if rain > 0.0 && snow == 0.0 then Rain
    else if snow > 0.0 && rain == 0.0 then Snow
    else if rain > 0.0 && snow > 0.0 then Mixed
    else NoPrecipitation
  }

  /** The chance label from the total millimetres. */
  function ChanceOf(total: real): (c: Chance)
    ensures c == Low <==> total == 0.0
    ensures c == Medium <==> total != 0.0 && total < 1.0
    ensures c == High <==> total >= 1.0
  {
    if total == 0.0 then Low
    else if total < 1.0 then Medium
    else High
  }

  /** The intensity label from the total millimetres. */
  function IntensityOf(total: real): (n: Intensity)
    ensures n == NoIntensity <==> total == 0.0
    ensures n == Light <==> total != 0.0 && total < 2.0
    ensures n == Moderate <==> 2.0 <= total < 5.0
    ensures n == Heavy <==> total >= 5.0
  {
    if total == 0.0 then NoIntensity
    else if total < 2.0 then Light
    else if total < 5.0 then Moderate
    else Heavy
  }

  /**
   * The whole precipitation summary of one record: rain is the 1h plus the 3h
   * reading, snow likewise (an absent reading counts as 0), and the chance
   * and intensity use the total of all four readings. The
   * three labels are consistent with each other: "Low" chance and "None"
   * intensity go together, and with no negative reading a typed precipitation
   * never has "Low" chance.
   */
  function InfoOf(rain1h: Option<real>, rain3h: Option<real>, snow1h: Option<real>, snow3h: Option<real>): (p: Info)
    ensures p.kind == Rain <==>
      Reading(rain1h) + Reading(rain3h) > 0.0 && Reading(snow1h) + Reading(snow3h) == 0.0
    ensures p.kind == Snow <==>
      Reading(snow1h) + Reading(snow3h) > 0.0 && Reading(rain1h) + Reading(rain3h) == 0.0
    ensures Reading(rain1h) >= 0.0 && Reading(rain3h) >= 0.0 && Reading(snow1h) >= 0.0 && Reading(snow3h) >= 0.0 ==>
      (p.kind == NoPrecipitation <==> Reading(rain1h) + Reading(rain3h) == 0.0 && Reading(snow1h) + Reading(snow3h) == 0.0)
    ensures p.chance == ChanceOf(Reading(rain1h) + Reading(rain3h) + Reading(snow1h) + Reading(snow3h))
    ensures p.intensity == IntensityOf(Reading(rain1h) + Reading(rain3h) + Reading(snow1h) + Reading(snow3h))
    ensures p.chance == Low <==> p.intensity == NoIntensity
    ensures Reading(rain1h) >= 0.0 && Reading(rain3h) >= 0.0 && Reading(snow1h) >= 0.0 && Reading(snow3h) >= 0.0 ==>
      (p.kind == NoPrecipitation <==> p.chance == Low)
    ensures p.kind == Mixed <==>
      Reading(rain1h) + Reading(rain3h) > 0.0 && Reading(snow1h) + Reading(snow3h) > 0.0
  {
    var rain := Reading(rain1h) + Reading(rain3h);
    var snow := Reading(snow1h) + Reading(snow3h);
    var total := rain + snow;
    Info(KindOf(rain, snow), ChanceOf(total), IntensityOf(total))
  }

  /**
   * The Mixed-first reading of the type rule: Mixed is checked first, then a
   * single positive amount.
   */
  function MixedFirstKind(rain: real, snow: real): Kind {
    if rain > 0.0 && snow > 0.0 then Mixed
    else if rain > 0.0 then Rain
    else if snow > 0.0 then Snow
    else NoPrecipitation
  }

  /**
   * For non-negative amounts the code's check order and the Mixed-first order
   * agree, and "None" means no rain and no snow at all.
   */
  lemma KindOrderIrrelevant(rain: real, snow: real)
    requires rain >= 0.0 && snow >= 0.0
    ensures KindOf(rain, snow) == MixedFirstKind(rain, snow)
    ensures KindOf(rain, snow) == NoPrecipitation <==> rain == 0.0 && snow == 0.0
  {
  }

  /** With a negative snow reading the two orders part: the code says "None", the Mixed-first order "Rain". */
  lemma KindOrderMattersForNegativeSnow()
    ensures KindOf(1.0, -0.5) == NoPrecipitation
    ensures MixedFirstKind(1.0, -0.5) == Rain
  {
  }

  /** For non-negative totals more precipitation never lowers the chance or the intensity. */
  lemma LabelsMonotone(t1: real, t2: real)
    requires 0.0 <= t1 <= t2
    ensures ChanceOf(t1).Rank() <= ChanceOf(t2).Rank()
    ensures IntensityOf(t1).Rank() <= IntensityOf(t2).Rank()
  {
  }

  /** Rain 0.5 mm and snow 0.4 mm in the last hour: Mixed, with Medium chance and Light intensity. */
  lemma MixedMediumExample()
    ensures InfoOf(Some(0.5), None, Some(0.4), None) == Info(Mixed, Medium, Light)
  {
  }

  /** The boundary total of exactly 1 mm is "High" chance and "Light" intensity. */
  lemma OneMillimetreBoundary()
    ensures ChanceOf(1.0) == High && IntensityOf(1.0) == Light
    ensures ChanceOf(0.99) == Medium
  {
  }
}
