/** The resume summary card: an overall score and four category rows, each with a badge. */
module Summary {
  import opened Wrappers
  import opened Records
  import opened ScoreBands

  /** The inline style of a badge. */
  datatype Style = Style(background: string, border: string, color: string)

  const GreenStyle := Style("rgba(34, 197, 94, 0.2)", "1px solid rgba(34, 197, 94, 0.4)", "#4ade80")
  const YellowStyle := Style("rgba(234, 179, 8, 0.2)", "1px solid rgba(234, 179, 8, 0.4)", "#facc15")
  const RedStyle := Style("rgba(239, 68, 68, 0.2)", "1px solid rgba(239, 68, 68, 0.4)", "#f87171")

  /** `ScoreBadge`'s text. */
  function BadgeText(score: int): (r: string)
    ensures r == "Strong" <==> BandOf(score) == High
    ensures r == "Good Start" <==> BandOf(score) == Medium
    ensures r == "Needs Work" <==> BandOf(score) == Low
  {
    if score > 69 then "Strong" else if score > 49 then "Good Start" else "Needs Work"
  }

  /** `ScoreBadge`'s style. */
  function BadgeStyle(score: int): (r: Style)
    ensures r == GreenStyle <==> BandOf(score) == High
    ensures r == YellowStyle <==> BandOf(score) == Medium
    ensures r == RedStyle <==> BandOf(score) == Low
  {
    if score > 69 then GreenStyle else if score > 49 then YellowStyle else RedStyle
  }

  /** `Category`'s score colour. */
  function CategoryTextColor(score: int): (r: string)
    ensures r == "text-green-400" <==> BandOf(score) == High
    ensures r == "text-yellow-400" <==> BandOf(score) == Medium
    ensures r == "text-red-400" <==> BandOf(score) == Low
  {
    if score > 69 then "text-green-400" else if score > 49 then "text-yellow-400" else "text-red-400"
  }

  /** The band a badge text, style or colour stands for; `None` for anything the views never show. */
  function BandOfText(t: string): Option<Band>
  {
    if t == "Strong" then Some(High)
    else if t == "Good Start" then Some(Medium)
    else if t == "Needs Work" then Some(Low)
    else None
  }

  function BandOfStyle(st: Style): Option<Band>
  {
    if st == GreenStyle then Some(High)
    else if st == YellowStyle then Some(Medium)
    else if st == RedStyle then Some(Low)
    else None
  }

  function BandOfColor(c: string): Option<Band>
  {
    if c == "text-green-400" then Some(High)
    else if c == "text-yellow-400" then Some(Medium)
    else if c == "text-red-400" then Some(Low)
    else None
  }

  /** Badge text, badge style and score colour always name the score's band. */
  lemma BadgeAgreement(score: int)
    ensures BandOfText(BadgeText(score)) == Some(BandOf(score))
    ensures BandOfStyle(BadgeStyle(score)) == Some(BandOf(score))
    ensures BandOfColor(CategoryTextColor(score)) == Some(BandOf(score))
  {
  }

  /** One `Category` row: its title, score, score colour and badge. */
  datatype CategoryRow = CategoryRow(title: string, score: int, color: string, badge: string, badgeStyle: Style)

  function CategoryOf(title: string, score: int): (r: CategoryRow)
    ensures r.title == title && r.score == score
    ensures BandOfColor(r.color) == Some(BandOf(score))
    ensures BandOfText(r.badge) == Some(BandOf(score)) && BandOfStyle(r.badgeStyle) == Some(BandOf(score))
  {
    CategoryRow(title, score, CategoryTextColor(score), BadgeText(score), BadgeStyle(score))
  }

  datatype SummaryCard = SummaryCard(overall: int, rows: seq<CategoryRow>)

  /** `Summary`: the gauge shows the overall score, then the four categories in a fixed order. */
  function SummaryOf(f: Feedback): (card: SummaryCard)
    ensures card.overall == f.overallScore
    ensures |card.rows| == 4
    ensures card.rows[0].title == "Tone & Style" && card.rows[0].score == f.toneAndStyle.score
    ensures card.rows[1].title == "Content" && card.rows[1].score == f.content.score
    ensures card.rows[2].title == "Structure" && card.rows[2].score == f.structure.score
    ensures card.rows[3].title == "Skills" && card.rows[3].score == f.skills.score
    ensures forall i :: 0 <= i < 4 ==>
      && BandOfColor(card.rows[i].color) == Some(BandOf(card.rows[i].score))
      && BandOfText(card.rows[i].badge) == Some(BandOf(card.rows[i].score))
      && BandOfStyle(card.rows[i].badgeStyle) == Some(BandOf(card.rows[i].score))
  {
    SummaryCard(f.overallScore, [
      CategoryOf("Tone & Style", f.toneAndStyle.score),
      CategoryOf("Content", f.content.score),
      CategoryOf("Structure", f.structure.score),
      CategoryOf("Skills", f.skills.score)])
  }
}
