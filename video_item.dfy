/** A video on the dashboard, and the band of its score badge. */
module VideoItem {
  import VideoResultsTable

  /** `getScoreColor` of the dashboard item. */
  function ScoreColor(score: int): (c: string)
    ensures score >= 90 ==> c == "score-excellent"
    ensures 80 <= score < 90 ==> c == "score-good"
    ensures 70 <= score < 80 ==> c == "score-fair"
    ensures score < 70 ==> c == "score-poor"
  {
    if score >= 90 then "score-excellent"
    else if score >= 80 then "score-good"
    else if score >= 70 then "score-fair"
    else "score-poor"
  }

  /** The dashboard and the results table give every score the same badge. */
  lemma AgreesWithResultsTable(score: int)
    ensures ScoreColor(score) == VideoResultsTable.ScoreColor(score)
  {
  }
}
