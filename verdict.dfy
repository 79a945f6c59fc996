/**
 * Verdict resolution in the follower scan: the run mode and two classifier
 * results of the form `{score, reasons}` give at most one category and a
 * reason string. The classifier results are abstract here.
 */
module Verdict {
  import opened Text

  const BOT_SCORE_THRESHOLD: int := 35
  const MARKETER_SCORE_THRESHOLD: int := 30

  /** A classifier result as the scan reads it: `.score` and `.reasons`. */
  datatype ScoreCard = ScoreCard(score: int, reasons: seq<string>)

  datatype Category = Bot | Marketer

  /** `includeMarketers` and `marketerOnly` of the scan settings. */
  datatype Mode = Mode(includeMarketers: bool, marketerOnly: bool)

  /** `reason` and `category` are set together, or both stay `null`. */
  datatype Verdict = NoMatch | Match(category: Category, reason: string)

  function CategoryName(c: Category): string {
    match c
    case Bot => "bot"
    case Marketer => "marketer"
  }

  /** Without either marketer flag the marketer classifier is not run: `{score: 0, reasons: []}`. */
  function MarketerCardFor(mode: Mode, computed: ScoreCard): (c: ScoreCard)
    ensures !mode.includeMarketers && !mode.marketerOnly ==> c.score < MARKETER_SCORE_THRESHOLD
    ensures mode.includeMarketers || mode.marketerOnly ==> c == computed
  {
    if mode.includeMarketers || mode.marketerOnly then computed else ScoreCard(0, [])
  }

  /** The `if` chain of the scan: marketer-only, then bot, then marketer if included. */
  function Resolve(mode: Mode, bot: ScoreCard, marketer: ScoreCard): Verdict
  {
    if mode.marketerOnly then
      if marketer.score >= MARKETER_SCORE_THRESHOLD then Match(Marketer, Join(marketer.reasons, ", "))
      else NoMatch
    else if bot.score >= BOT_SCORE_THRESHOLD then Match(Bot, Join(bot.reasons, ", "))
    else if mode.includeMarketers && marketer.score >= MARKETER_SCORE_THRESHOLD then
      Match(Marketer, Join(marketer.reasons, ", "))
    else NoMatch
  }

  /**
   * What the three modes select, stated as facts about the outcome: a
   * marketer-only run never says `bot`; elsewhere `bot` wins exactly at
   * score 35 and above, and `marketer` needs the include flag.
   */
  lemma ResolveCategories(mode: Mode, bot: ScoreCard, marketer: ScoreCard)
    ensures var v := Resolve(mode, bot, MarketerCardFor(mode, marketer));
      (mode.marketerOnly ==>
         !(v.Match? && v.category == Bot) && (v.Match? <==> marketer.score >= MARKETER_SCORE_THRESHOLD)) &&
      (!mode.marketerOnly ==>
         ((v.Match? && v.category == Bot) <==> bot.score >= BOT_SCORE_THRESHOLD) &&
         ((v.Match? && v.category == Marketer) <==>
            bot.score < BOT_SCORE_THRESHOLD && mode.includeMarketers &&
            marketer.score >= MARKETER_SCORE_THRESHOLD))
  {
  }

  /** Raising either score never turns a match into no match. */
  lemma ResolveMonotone(mode: Mode, bot: ScoreCard, marketer: ScoreCard, bot2: ScoreCard, marketer2: ScoreCard)
    requires bot2.score >= bot.score && marketer2.score >= marketer.score
    ensures Resolve(mode, bot, marketer).Match? ==> Resolve(mode, bot2, marketer2).Match?
  {
  }

  /**
   * The joined reason is empty, so the scan does not flag the profile, exactly
   * when there are no reasons or a single empty one.
   */
  lemma {:induction false} JoinedReasonEmpty(reasons: seq<string>)
    ensures Join(reasons, ", ") == "" <==> |reasons| == 0 || (|reasons| == 1 && reasons[0] == "")
  {
    if |reasons| >= 2 {
      assert |Join(reasons, ", ")| >= 2;
    }
  }

  /** The reason a match carries is the chosen classifier's reasons, joined in order. */
  lemma MatchReason(mode: Mode, bot: ScoreCard, marketer: ScoreCard)
    ensures var v := Resolve(mode, bot, marketer);
      v.Match? ==> v.reason == Join(if v.category == Bot then bot.reasons else marketer.reasons, ", ")
  {
  }
}
