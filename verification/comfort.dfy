/** The comfort metric: the humidity level. */
module Comfort {

  datatype Level = Dry | Comfortable | Humid {
    /** The text stored in `humidity_level`. */
    function Label(): string {
      match this
      case Dry => "Dry"
      case Comfortable => "Comfortable"
      case Humid => "Humid"
    }

    function Rank(): nat {
      match this
      case Dry => 0
      case Comfortable => 1
      case Humid => 2
    }
  }

  /**
   * The humidity level of a relative humidity in percent. Every real gets a
   * level: values below 0 are "Dry" and values above 100 are "Humid".
   */
  function LevelOf(h: real): (l: Level)
    ensures l == Dry <==> h < 30.0
    ensures l == Comfortable <==> 30.0 <= h < 60.0
    ensures l == Humid <==> h >= 60.0
  {
    if h < 30.0 then Dry
    else if h < 60.0 then Comfortable
    else Humid
  }

  /** More humidity never gives a drier level. */
  lemma LevelMonotone(h1: real, h2: real)
    requires h1 <= h2
    ensures LevelOf(h1).Rank() <= LevelOf(h2).Rank()
  {
  }

  /** The bucket edges: 29.9 is Dry, 30 and 59.9 Comfortable, 60 Humid, and out-of-range values are still labelled. */
  lemma LevelBoundaries()
    ensures LevelOf(29.9) == Dry && LevelOf(30.0) == Comfortable
    ensures LevelOf(59.9) == Comfortable && LevelOf(60.0) == Humid
    ensures LevelOf(-5.0) == Dry && LevelOf(120.0) == Humid
  {
  }
}
