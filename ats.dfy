/**
 * The ATS panel: the colour band of the score, and the rows that list the tips,
 * each with an icon and colour chosen by the tip's type.
 */
module Ats {
  import opened Wrappers

  datatype Band = Green | Yellow | Red

  /** The text colour class of each band. */
  function BandClass(b: Band): string
  {
    match b
    case Green => "text-green-600"
    case Yellow => "text-yellow-600"
    case Red => "text-red-600"
  }

  /** Bands ordered from worst to best. */
  function Rank(b: Band): nat
  {
    match b
    case Red => 0
    case Yellow => 1
    case Green => 2
  }

  /** The band of a score: 70 and above green, 50 up to 69 yellow, below 50 red. */
  function ScoreBand(score: int): (b: Band)
    ensures b == Green <==> 70 <= score
    ensures b == Yellow <==> 50 <= score < 70
    ensures b == Red <==> score < 50
  {
    if score >= 70 then Green else if score >= 50 then Yellow else Red
  }

  /** A higher score never falls in a worse band. */
  lemma ScoreBandMonotone(lo: int, hi: int)
    requires lo <= hi
    ensures Rank(ScoreBand(lo)) <= Rank(ScoreBand(hi))
  {
  }

  /** The thresholds belong to the higher band. */
  lemma ScoreBandThresholds()
    ensures ScoreBand(70) == Green && ScoreBand(69) == Yellow
    ensures ScoreBand(50) == Yellow && ScoreBand(49) == Red
  {
  }

  /** An `ATSTip`: its `type` ('good' or anything else) and its `tip` text. */
  datatype Tip = Tip(kind: string, text: string)

  /** One rendered list entry: icon name, icon colour class, text shown. */
  datatype TipRow = TipRow(icon: string, colorClass: string, text: string)

  /** A 'good' tip gets check_circle in green; every other type gets warning in orange. */
  function RowOf(t: Tip): (row: TipRow)
    ensures row.text == t.text
    ensures row.icon == "check_circle" <==> t.kind == "good"
    ensures row.icon == "warning" <==> t.kind != "good"
    ensures row.colorClass == (if t.kind == "good" then "text-green-500" else "text-orange-500")
  {
    if t.kind == "good" then TipRow("check_circle", "text-green-500", t.text)
    else TipRow("warning", "text-orange-500", t.text)
  }

  /** `suggestions.map(...)`: one row per tip, in the tips' order. */
  function Rows(tips: seq<Tip>): (rows: seq<TipRow>)
    ensures |rows| == |tips|
    ensures forall i :: 0 <= i < |tips| ==> rows[i] == RowOf(tips[i])
  {
    if tips == [] then [] else [RowOf(tips[0])] + Rows(tips[1..])
  }

  /** Listing two groups of tips one after the other lists their rows one after the other. */
  lemma RowsAppend(a: seq<Tip>, b: seq<Tip>)
    ensures Rows(a + b) == Rows(a) + Rows(b)
  {
  }

  /** The "Analysis" section: shown only when there is at least one tip, and then it lists them all. */
  function TipsSection(tips: seq<Tip>): (section: Option<seq<TipRow>>)
    ensures section.Some? <==> |tips| > 0
    ensures section.Some? ==> section.value == Rows(tips)
  {
    if |tips| > 0 then Some(Rows(tips)) else None
  }

  /** What the panel shows: the score with its band's colour, and the optional tips section. */
  datatype Panel = Panel(score: int, scoreClass: string, tips: Option<seq<TipRow>>)

  /**
   * The panel for a score and its suggestions: the score as given, coloured
   * green from 70, yellow from 50 and red below, and a section listing one row
   * per suggestion, present only when there is at least one.
   */
  function AtsPanel(score: int, suggestions: seq<Tip>): (p: Panel)
    ensures p.score == score
    ensures p.scoreClass == BandClass(ScoreBand(score))
    ensures p.scoreClass == "text-green-600" <==> 70 <= score
    ensures p.scoreClass == "text-yellow-600" <==> 50 <= score < 70
    ensures p.scoreClass == "text-red-600" <==> score < 50
    ensures p.tips == TipsSection(suggestions)
    ensures p.tips.Some? <==> suggestions != []
    ensures p.tips.Some? ==>
      |p.tips.value| == |suggestions| &&
      forall i :: 0 <= i < |suggestions| ==> p.tips.value[i] == RowOf(suggestions[i])
  {
    Panel(score, BandClass(ScoreBand(score)), TipsSection(suggestions))
  }
}
