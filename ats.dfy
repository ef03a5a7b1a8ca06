/** The ATS (applicant tracking system) card: band-coloured frame and icon, one row per suggestion. */
module Ats {
  import opened Wrappers
  import opened Records
  import opened ScoreBands

  function GradientClass(score: int): (r: string)
    ensures r == "from-green-500/20 to-green-500/5" <==> BandOf(score) == High
    ensures r == "from-yellow-500/20 to-yellow-500/5" <==> BandOf(score) == Medium
    ensures r == "from-red-500/20 to-red-500/5" <==> BandOf(score) == Low
  {
    if score > 69 then "from-green-500/20 to-green-500/5"
    else if score > 49 then "from-yellow-500/20 to-yellow-500/5"
    else "from-red-500/20 to-red-500/5"
  }

  function BorderClass(score: int): (r: string)
    ensures r == "border-green-400/30" <==> BandOf(score) == High
    ensures r == "border-yellow-400/30" <==> BandOf(score) == Medium
    ensures r == "border-red-400/30" <==> BandOf(score) == Low
  {
    if score > 69 then "border-green-400/30" else if score > 49 then "border-yellow-400/30" else "border-red-400/30"
  }

  function ScoreIcon(score: int): (r: string)
    ensures r == "/icons/ats-good.svg" <==> BandOf(score) == High
    ensures r == "/icons/ats-warning.svg" <==> BandOf(score) == Medium
    ensures r == "/icons/ats-bad.svg" <==> BandOf(score) == Low
  {
    if score > 69 then "/icons/ats-good.svg" else if score > 49 then "/icons/ats-warning.svg" else "/icons/ats-bad.svg"
  }

  /** The colour family a class or icon path belongs to; `None` for anything the card never shows. */
  function BandOfGradient(c: string): Option<Band>
  {
    if c == "from-green-500/20 to-green-500/5" then Some(High)
    else if c == "from-yellow-500/20 to-yellow-500/5" then Some(Medium)
    else if c == "from-red-500/20 to-red-500/5" then Some(Low)
    else None
  }

  function BandOfBorder(c: string): Option<Band>
  {
    if c == "border-green-400/30" then Some(High)
    else if c == "border-yellow-400/30" then Some(Medium)
    else if c == "border-red-400/30" then Some(Low)
    else None
  }

  function BandOfIcon(c: string): Option<Band>
  {
    if c == "/icons/ats-good.svg" then Some(High)
    else if c == "/icons/ats-warning.svg" then Some(Medium)
    else if c == "/icons/ats-bad.svg" then Some(Low)
    else None
  }

  /** Gradient, border and icon all name the same band, the score's. */
  lemma AtsSelectionsAgree(score: int)
    ensures BandOfGradient(GradientClass(score)) == Some(BandOf(score))
    ensures BandOfBorder(BorderClass(score)) == Some(BandOf(score))
    ensures BandOfIcon(ScoreIcon(score)) == Some(BandOf(score))
  {
  }

  /** A suggestion's icon: the check mark exactly for type "good". */
  function TipIcon(kind: string): (r: string)
    ensures r == "/icons/check.svg" <==> kind == "good"
    ensures r == "/icons/warning.svg" <==> kind != "good"
  {
    if kind == "good" then "/icons/check.svg" else "/icons/warning.svg"
  }

  datatype Row = Row(icon: string, text: string)

  /** `suggestions.map(...)`: one row per suggestion, in input order. */
  function Rows(suggestions: seq<Tip>): (rows: seq<Row>)
    ensures |rows| == |suggestions|
    ensures forall i :: 0 <= i < |rows| ==>
      rows[i].text == suggestions[i].tip && rows[i].icon == TipIcon(suggestions[i].kind)
  {
    if suggestions == [] then []
    else [Row(TipIcon(suggestions[0].kind), suggestions[0].tip)] + Rows(suggestions[1..])
  }

  datatype Card = Card(gradient: string, border: string, icon: string, score: int, rows: seq<Row>)

  function CardOf(score: int, suggestions: seq<Tip>): (c: Card)
    ensures c.score == score
    ensures BandOfGradient(c.gradient) == Some(BandOf(score)) && BandOfBorder(c.border) == Some(BandOf(score))
    ensures BandOfIcon(c.icon) == Some(BandOf(score))
    ensures |c.rows| == |suggestions|
    ensures forall i :: 0 <= i < |c.rows| ==>
      c.rows[i].text == suggestions[i].tip && c.rows[i].icon == TipIcon(suggestions[i].kind)
  {
    Card(GradientClass(score), BorderClass(score), ScoreIcon(score), score, Rows(suggestions))
  }
}
