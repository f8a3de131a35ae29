/** The cloud-cover level of a cloudiness percentage. */
module Cloud {
  import opened Wrappers

  datatype Level = Clear | PartlyCloudy | Overcast {
    /** The text stored in `cloud_cover_level`. */
    function Label(): string {
      match this
      case Clear => "Clear"
      case PartlyCloudy => "Partly Cloudy"
      case Overcast => "Overcast"
    }

    function Rank(): nat {
      match this
      case Clear => 0
      case PartlyCloudy => 1
      case Overcast => 2
    }
  }

  /** The cover level of a cloudiness in percent; every real gets one. */
  function LevelOf(c: real): (l: Level)
    ensures l == Clear <==> c < 20.0
    ensures l == PartlyCloudy <==> 20.0 <= c < 60.0
    ensures l == Overcast <==> c >= 60.0
  {
    if c < 20.0 then Clear
    else if c < 60.0 then PartlyCloudy
    else Overcast
  }

  /**
   * The cloud-cover column with a missing-value guard: no level for a missing
   * reading (the column absent, or a missing cell), the level of the reading
   * otherwise.
   */
  function ColumnOf(c: Option<real>): (l: Option<Level>)
    ensures l.None? <==> c.None?
    ensures c.Some? ==> (l.value == Clear <==> c.value < 20.0)
    ensures c.Some? ==> (l.value == PartlyCloudy <==> 20.0 <= c.value < 60.0)
    ensures c.Some? ==> (l.value == Overcast <==> c.value >= 60.0)
  {
    match c
    case None => None
    case Some(v) => Some(LevelOf(v))
  }

  /**
   * `cloud_cover_label` applied to a cell as written: there is no
   * missing-value guard, and every comparison with NaN (here `None`, a
   * missing cell of a present column) is false, so a missing cell falls
   * through to "Overcast". On present readings it agrees with `ColumnOf`.
   */
  function ColumnAsWritten(c: Option<real>): (l: Level)
    ensures c.Some? ==> Some(l) == ColumnOf(c)
    ensures c.None? ==> l == Overcast
  {
    if c.Some? && c.value < 20.0 then Clear
    else if c.Some? && c.value < 60.0 then PartlyCloudy
    else Overcast
  }

  /**
   * The discrepancy: a missing cloudiness cell is reported as "Overcast" by
   * the code as written, where the guarded column (like the wind-speed and
   * visibility columns) reports no level.
   */
  lemma MissingCloudinessDiscrepancy()
    ensures ColumnAsWritten(None) == Overcast
    ensures ColumnOf(None) == None
  {
  }

  /** More cloud never gives a clearer level. */
  lemma LevelMonotone(c1: real, c2: real)
    requires c1 <= c2
    ensures LevelOf(c1).Rank() <= LevelOf(c2).Rank()
  {
  }
}

/** The visibility level of a visibility reading in metres. */
module Visibility {
  import opened Wrappers

  datatype Level = Low | Moderate | Clear {
    /** The text stored in `visibility_level`. */
    function Label(): string {
      match this
      case Low => "Low"
      case Moderate => "Moderate"
      case Clear => "Clear"
    }

    function Rank(): nat {
      match this
      case Low => 0
      case Moderate => 1
      case Clear => 2
    }
  }

  /**
   * The level is chosen on kilometres (`v / 1000`); stated here on the metre
   * reading itself. A missing reading has no level.
   */
  function LevelOf(v: Option<real>): (l: Option<Level>)
    ensures l.None? <==> v.None?
    ensures l == Some(Low) <==> v.Some? && v.value < 2000.0
    ensures l == Some(Moderate) <==> v.Some? && 2000.0 <= v.value < 10000.0
    ensures l == Some(Clear) <==> v.Some? && v.value >= 10000.0
  {
    match v
    case None => None
    case Some(metres) =>
      var km := metres / 1000.0;
      if km < 2.0 then Some(Low)
      else if km < 10.0 then Some(Moderate)
      else Some(Clear)
  }

  /** Seeing further never gives a lower level. */
  lemma LevelMonotone(v1: real, v2: real)
    requires v1 <= v2
    ensures LevelOf(Some(v1)).value.Rank() <= LevelOf(Some(v2)).value.Rank()
  {
  }
}
