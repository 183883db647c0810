/** The per-answer feedback card: the score's colour tier for the badge and the bar, the
    bar's width, and the order in which the evaluation's parts are laid out. */
module EvaluationCard {
  import opened Protocol

  /** The three bands the card distinguishes. */
  datatype Tier = Strong | Fair | Weak

  const GreenBadge := "bg-green-100 text-green-800 border-green-200"
  const YellowBadge := "bg-yellow-100 text-yellow-800 border-yellow-200"
  const RedBadge := "bg-red-100 text-red-800 border-red-200"

  /** The badge classes: green from 8, yellow from 5, red below, that is the badge of
      the score's tier. */
  function ScoreColor(score: int): (c: string)
    ensures c == BadgeOf(ScoreTier(score))
  {
    if score >= 8 then GreenBadge else if score >= 5 then YellowBadge else RedBadge
  }

  /** The bar colour, with its own copy of the thresholds, which agree with the tier's. */
  function BarColor(score: int): (c: string)
    ensures c == BarOf(ScoreTier(score))
  {
    if score >= 8 then "#0A5C47" else if score >= 5 then "#D4830A" else "#C0392B"
  }

  /** The tier of a score; lower bounds are inclusive. */
  function ScoreTier(score: int): (t: Tier)
    ensures t == Strong <==> score >= 8
    ensures t == Fair <==> 5 <= score < 8
    ensures t == Weak <==> score < 5
  {
    if score >= 8 then Strong else if score >= 5 then Fair else Weak
  }

  function BadgeOf(t: Tier): string {
    match t
    case Strong => GreenBadge
    case Fair => YellowBadge
    case Weak => RedBadge
  }

  function BarOf(t: Tier): string {
    match t
    case Strong => "#0A5C47"
    case Fair => "#D4830A"
    case Weak => "#C0392B"
  }

  function Rank(t: Tier): nat {
    match t
    case Weak => 0
    case Fair => 1
    case Strong => 2
  }

  /** Badge and bar are both functions of the tier, and distinct tiers look different:
      the badge and the bar of one score always show the same tier. */
  lemma BadgeAndBarShareTier(score: int)
    ensures ScoreColor(score) == BadgeOf(ScoreTier(score))
    ensures BarColor(score) == BarOf(ScoreTier(score))
    ensures forall t, u :: BadgeOf(t) == BadgeOf(u) ==> t == u
    ensures forall t, u :: BarOf(t) == BarOf(u) ==> t == u
  {
  }

  /** A higher score never gets a lower tier. */
  lemma TierMonotone(a: int, b: int)
    requires a <= b
    ensures Rank(ScoreTier(a)) <= Rank(ScoreTier(b))
  {
  }

  /** The bar's width in percent, `score * 10`. */
  function BarWidth(score: int): (w: int)
    ensures 0 <= score <= 10 ==> 0 <= w <= 100
    ensures w % 10 == 0 && w / 10 == score
  {
    score * 10
  }

  datatype Assessment = Assessment(title: string, content: string)

  /** The three assessment boxes, always in this order; the titles serve as React keys
      and are pairwise distinct. */
  function Assessments(e: Evaluation): (boxes: seq<Assessment>)
    ensures |boxes| == 3
    ensures boxes[0] == Assessment("Technical Accuracy", e.technicalAccuracy)
    ensures boxes[1] == Assessment("Clarity", e.clarity)
    ensures boxes[2] == Assessment("Depth", e.depth)
    ensures forall i, j :: 0 <= i < j < |boxes| ==> boxes[i].title != boxes[j].title
  {
    [Assessment("Technical Accuracy", e.technicalAccuracy),
     Assessment("Clarity", e.clarity),
     Assessment("Depth", e.depth)]
  }

  /** A list entry keyed by its position. */
  datatype Item = Item(key: nat, text: string)

  /** `items.map((s, i) => <li key={i}>{s}</li>)`: one entry per item in the original
      order, under pairwise distinct keys. */
  function ListItems(items: seq<string>): (rows: seq<Item>)
    ensures |rows| == |items|
    ensures forall i :: 0 <= i < |rows| ==> rows[i].text == items[i]
    ensures forall i, j :: 0 <= i < |rows| && 0 <= j < |rows| && rows[i].key == rows[j].key ==> i == j
  {
    seq(|items|, i requires 0 <= i < |items| => Item(i, items[i]))
  }
}
