/**
 * The three score bands the resume views colour by: 70 and above, 50 to 69,
 * and 49 or below. Each view re-states the thresholds in its own
 * conditional (`score > 69 ? … : score > 49 ? … : …`); this module is the
 * reference those conditionals are checked against.
 */
module ScoreBands {

  datatype Band = Low | Medium | High

  function BandOf(score: int): Band
  {
    if score >= 70 then High else if score >= 50 then Medium else Low
  }

  /** Position of a band in the order Low < Medium < High. */
  function Rank(b: Band): nat
  {
    match b
    case Low => 0
    case Medium => 1
    case High => 2
  }

  /** Every score falls in exactly one band, given by the two thresholds. */
  lemma BandsPartition(score: int)
    ensures BandOf(score) == High <==> score > 69
    ensures BandOf(score) == Medium <==> 50 <= score <= 69
    ensures BandOf(score) == Low <==> score <= 49
  {
  }

  /** Raising a score never moves it to a lower band. */
  lemma BandMonotone(s: int, t: int)
    requires s <= t
    ensures Rank(BandOf(s)) <= Rank(BandOf(t))
  {
  }
}
