/** The viral agent page: what a search records and creates, and when
    viewing a video asks for its analysis. */
module ViralAgentPage {
  import opened Wrappers
  import opened Schema
  import VideoResultsTable

  /** The search form's values. */
  datatype SearchParams = SearchParams(platform: string, minViews: int, timePeriod: string, niche: string)

  /** What a handler does, in order: record the search, or post a viral
      video to be created. */
  datatype Effect = SetSearchParams(params: SearchParams) | CreateViralVideo(body: InsertViralVideo)

  /** The two sample videos a search "finds", on the searched platform. */
  function SampleVideos(platform: string): seq<InsertViralVideo> {
    [ InsertViralVideo("How I Made $10K in 30 Days", platform, "https://example.com/video1",
        1200000, 12.5, 94, Some("This is how I transformed my life with affiliate marketing"),
        Some("#sidehustle #affiliatemarketing #passiveincome"), None, Some("pending")),
      InsertViralVideo("Affiliate Marketing Secrets", platform, "https://example.com/video2",
        890000, 9.8, 87, Some("The secrets nobody tells you about affiliate marketing"),
        Some("#wealth #entrepreneurship #success"), None, Some("pending")) ]
  }

  /** `handleSearch`: the search is recorded first, then exactly two videos
      are posted, both pending and on the searched platform. */
  function HandleSearch(params: SearchParams): (r: seq<Effect>)
    ensures |r| == 3 && r[0] == SetSearchParams(params)
    ensures forall i :: 1 <= i < |r| ==>
      r[i].CreateViralVideo? && r[i].body.status == Some("pending") && r[i].body.platform == params.platform
  {
    var vs := SampleVideos(params.platform);
    [SetSearchParams(params), CreateViralVideo(vs[0]), CreateViralVideo(vs[1])]
  }

  /** `handleViewVideo`: the id to analyse when the video is pending, and
      nothing (a toast) otherwise. */
  function HandleViewVideo(video: ViralVideo): (r: Option<int>)
    ensures r.Some? <==> video.status == "pending"
    ensures r.Some? ==> r.value == video.id
  {
    if video.status == "pending" then Some(video.id) else None
  }

  /** A video a search creates is stored pending on the searched platform,
      so viewing it asks for its analysis; once analysed it is "processed"
      and viewing it asks for nothing. */
  lemma SearchedVideosAwaitAnalysis(params: SearchParams, id: int, now: Timestamp, score: int, later: Timestamp)
    ensures forall e :: e in HandleSearch(params) && e.CreateViralVideo? ==>
      var v := NewViralVideo(e.body, id, now);
      && v.status == "pending" && v.platform == params.platform
      && HandleViewVideo(v) == Some(id)
      && HandleViewVideo(v.(ai_score := score, status := "processed", updated_at := later)) == None
  {
    var r := HandleSearch(params);
    forall e | e in r && e.CreateViralVideo?
      ensures var v := NewViralVideo(e.body, id, now);
        && v.status == "pending" && v.platform == params.platform
        && HandleViewVideo(v) == Some(id)
        && HandleViewVideo(v.(ai_score := score, status := "processed", updated_at := later)) == None
    {
      var i :| 0 <= i < |r| && r[i] == e;
      assert i != 0;
      assert e.body.status == Some("pending");
    }
  }

  /** The results table shows the first sample in millions with an
      excellent badge and the second in thousands with a good one. */
  lemma SampleVideosDisplay(platform: string)
    ensures var vs := SampleVideos(platform);
      && VideoResultsTable.FormatViews(vs[0].views).suffix == "M"
      && VideoResultsTable.FormatViews(vs[1].views).suffix == "K"
      && VideoResultsTable.ScoreColor(vs[0].ai_score) == "score-excellent"
      && VideoResultsTable.ScoreColor(vs[1].ai_score) == "score-good"
  {
  }
}
