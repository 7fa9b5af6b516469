/** The table of found viral videos: the score badge's band, the status
    badge, the abbreviated view count, and the empty state shown when there
    are no videos. */
module VideoResultsTable {
  import opened JsSemantics
  import opened Schema

  /** `getScoreColor`: 90 and up excellent, 80..89 good, 70..79 fair, lower
      poor. */
  function ScoreColor(score: int): (c: string)
    ensures c == "score-excellent" <==> score >= 90
    ensures c == "score-good" <==> 80 <= score < 90
    ensures c == "score-fair" <==> 70 <= score < 80
    ensures c == "score-poor" <==> score < 70
  {
    if score >= 90 then "score-excellent"
    else if score >= 80 then "score-good"
    else if score >= 70 then "score-fair"
    else "score-poor"
  }

  /** The place of a band, poor (0) to excellent (3). */
  function Band(c: string): nat {
    if c == "score-excellent" then 3
    else if c == "score-good" then 2
    else if c == "score-fair" then 1
    else 0
  }

  /** A higher score never gets a lower band. */
  lemma ScoreColorMonotone(a: int, b: int)
    requires a <= b
    ensures Band(ScoreColor(a)) <= Band(ScoreColor(b))
  {
  }

  /** `getStatusColor`: processed videos are ready, processing ones are
      processing, and every other status shows as pending. */
  function StatusColor(status: string): (c: string)
    ensures c == "status-ready" <==> status == "processed"
    ensures c == "status-processing" <==> status == "processing"
    ensures c == "status-pending" <==> status != "processed" && status != "processing"
  {
    if status == "processed" then "status-ready"
    else if status == "processing" then "status-processing"
    else "status-pending"
  }

  /** What `formatViews` shows: a value scaled to millions with one decimal
      or to thousands with none, each with its suffix, or the count as it is.
      The decimal rendering of `toFixed` is not modelled. */
  datatype ViewsLabel = Scaled(value: real, decimals: nat, suffix: string) | Plain(text: string)

  function FormatViews(views: int): (r: ViewsLabel)
    ensures r.Scaled? && r.suffix == "M" <==> views >= 1000000
    ensures r.Scaled? && r.suffix == "K" <==> 1000 <= views < 1000000
    ensures r.Plain? <==> views < 1000
    ensures r.Scaled? && r.suffix == "M" ==> r.value * 1000000.0 == views as real && r.decimals == 1
    ensures r.Scaled? && r.suffix == "K" ==> r.value * 1000.0 == views as real && r.decimals == 0
  {
    if views >= 1000000 then Scaled(views as real / 1000000.0, 1, "M")
    else if views >= 1000 then Scaled(views as real / 1000.0, 0, "K")
    else Plain(IntToString(views))
  }

  /** A count below a thousand is shown as its numeral, which reads back as
      the count. */
  lemma PlainViewsRoundTrip(views: int)
    requires views < 1000
    ensures FormatViews(views).Plain? && ParseInt(FormatViews(views).text) == Int(views)
  {
    ParseIntToString(views, "");
    assert IntToString(views) + "" == IntToString(views);
  }

  /** A row of the table. */
  datatype Row = Row(
    title: string, platform: string, views: ViewsLabel, engagement_rate: real,
    scoreColor: string, ai_score: int, statusColor: string, status: string)

  datatype TableView = EmptyState | Table(rows: seq<Row>)

  function RowOf(v: ViralVideo): Row {
    Row(v.title, v.platform, FormatViews(v.views), v.engagement_rate,
      ScoreColor(v.ai_score), v.ai_score, StatusColor(v.status), v.status)
  }

  /** The component: the empty state for no videos, else one row per video
      in the order given. */
  function Render(videos: seq<ViralVideo>): (t: TableView)
    ensures t.EmptyState? <==> videos == []
    ensures t.Table? ==> |t.rows| == |videos|
    ensures t.Table? ==> forall i :: 0 <= i < |videos| ==> t.rows[i] == RowOf(videos[i])
  {
    if |videos| == 0 then EmptyState
    else Table(seq(|videos|, i requires 0 <= i < |videos| => RowOf(videos[i])))
  }
}
