/** The HTTP handlers that do more than pass a store call through: the
    dashboard statistics, video analysis, script generation, the PATCH and
    POST handlers, analytics by video and content scoring. A handler is a
    method over the store; the language model's reply is an input, and a
    handler that would call the model returns the request it makes (`None`
    when it makes none). The route parameter `:id` is read by `parseInt`. */
module Routes {
  import opened Wrappers
  import opened JsSemantics
  import opened Schema
  import opened Folds
  import opened Sorting
  import opened Storage
  import OpenAi

  /** `res.json(body)`, or `res.status(status).json({ error })`. */
  datatype Response<T> = Json(body: T) | Fail(status: int, error: string)

  // --------------------------------------------------------- statistics

  datatype DashboardStats = DashboardStats(
    monthly_revenue: real, videos_created: int, avg_engagement: real,
    conversion_rate: real, total_views: int, viral_videos_found: int)

  // The figures of an analytics row, with null counted as 0 (`a.revenue || 0`).
  function Revenue(a: Analytics): real { a.revenue.GetOr(0.0) }
  function Views(a: Analytics): int { a.views.GetOr(0) }
  function Engagement(a: Analytics): real { a.engagement_rate.GetOr(0.0) }
  function Conversion(a: Analytics): real { a.conversion_rate.GetOr(0.0) }

  /** The folds of `/api/dashboard/stats` over the three lists it reads. */
  function Stats(videos: seq<Video>, analytics: seq<Analytics>, viralVideos: seq<ViralVideo>): (r: DashboardStats)
    ensures r.videos_created == |videos| && r.viral_videos_found == |viralVideos|
    ensures r.total_views == SumInt(analytics, Views) && r.monthly_revenue == SumReal(analytics, Revenue)
    ensures analytics != [] ==>
      && r.avg_engagement * (|analytics| as real) == SumReal(analytics, Engagement)
      && r.conversion_rate * (|analytics| as real) == SumReal(analytics, Conversion)
    ensures analytics == [] ==>
      r.avg_engagement == 0.0 && r.conversion_rate == 0.0 && r.total_views == 0 && r.monthly_revenue == 0.0
  {
    DashboardStats(
      SumReal(analytics, Revenue), |videos|, Mean(analytics, Engagement),
      Mean(analytics, Conversion), SumInt(analytics, Views), |viralVideos|)
  }

  /** `/api/dashboard/stats`: revenue and views summed and engagement and
      conversion averaged over every analytics row, whatever the order the
      list comes in; every viral video counts, whatever its score. */
  function GetDashboardStats(s: MemStorage): (r: DashboardStats)
    reads s
    requires s.Valid()
    ensures r.videos_created == s.currentVideoId - 1
    ensures r.viral_videos_found == s.currentViralVideoId - 1
    ensures r.monthly_revenue == SumReal(KeyOrder(s.analytics, s.currentAnalyticsId), Revenue)
    ensures r.total_views == SumInt(KeyOrder(s.analytics, s.currentAnalyticsId), Views)
    ensures r.avg_engagement == Mean(KeyOrder(s.analytics, s.currentAnalyticsId), Engagement)
    ensures r.conversion_rate == Mean(KeyOrder(s.analytics, s.currentAnalyticsId), Conversion)
    ensures s.analytics == map[] ==> r.monthly_revenue == 0.0 && r.total_views == 0
                                     && r.avg_engagement == 0.0 && r.conversion_rate == 0.0
  {
    var rows := s.GetAnalytics();
    var table := KeyOrder(s.analytics, s.currentAnalyticsId);
    SumRealPermutation(rows, table, Revenue);
    SumIntPermutation(rows, table, Views);
    MeanPermutation(rows, table, Engagement);
    MeanPermutation(rows, table, Conversion);
    Stats(s.GetVideos(), rows, s.GetViralVideos())
  }

  /** Engagement and conversion are averages: when every row's figure lies
      in a range, so does the reported one. */
  lemma StatsAverageBounds(videos: seq<Video>, analytics: seq<Analytics>, viralVideos: seq<ViralVideo>, lo: real, hi: real)
    requires lo <= 0.0 <= hi
    requires forall a :: a in analytics ==> lo <= Engagement(a) <= hi && lo <= Conversion(a) <= hi
    ensures lo <= Stats(videos, analytics, viralVideos).avg_engagement <= hi
    ensures lo <= Stats(videos, analytics, viralVideos).conversion_rate <= hi
  {
    if analytics != [] {
      MeanBounds(analytics, Engagement, lo, hi);
      MeanBounds(analytics, Conversion, lo, hi);
    }
  }

  /** One more analytics row adds its revenue and views to the totals. */
  lemma StatsAddRow(videos: seq<Video>, analytics: seq<Analytics>, viralVideos: seq<ViralVideo>, a: Analytics)
    ensures Stats(videos, analytics + [a], viralVideos).monthly_revenue
         == Stats(videos, analytics, viralVideos).monthly_revenue + Revenue(a)
    ensures Stats(videos, analytics + [a], viralVideos).total_views
         == Stats(videos, analytics, viralVideos).total_views + Views(a)
  {
    assert (analytics + [a])[..|analytics|] == analytics;
  }

  // ------------------------------------------------------- video analysis

  /** The arguments `analyzeViralVideo` is called with; missing captions and
      hashtags are sent as "". */
  datatype AnalysisRequest = AnalysisRequest(
    title: string, captions: string, hashtags: string, views: int, engagement_rate: real)

  function AnalysisRequestFor(v: ViralVideo): AnalysisRequest {
    AnalysisRequest(v.title, v.captions.GetOr(""), v.hashtags.GetOr(""), v.views, v.engagement_rate)
  }

  datatype AnalyzeBody = AnalyzeBody(analysis: OpenAi.VideoAnalysis, video: Option<ViralVideo>)

  /** The row of `id`, when `idParam` parses to a stored id. */
  function FoundId<T>(m: map<int, T>, idParam: string): (r: Option<int>)
    ensures r.Some? <==> ParseInt(idParam).Int? && ParseInt(idParam).value in m
    ensures r.Some? ==> r.value in m && ParseInt(idParam) == Int(r.value)
  {
    match ParseInt(idParam)
    case Int(id) => if id in m then Some(id) else None
    case NaN => None
  }

  /** `POST /api/viral-videos/:id/analyze`: an unknown id is a 404 before any
      call; otherwise the video is sent for analysis and, when the analysis
      succeeds, only its score (the clamped analysis score), its status
      ("processed") and its `updated_at` change. */
  method AnalyzeVideo(s: MemStorage, idParam: string, reply: Result<OpenAi.AnalysisReply, string>, now: Timestamp)
      returns (resp: Response<AnalyzeBody>, request: Option<AnalysisRequest>)
    requires s.Valid()
    modifies s`viralVideos
    ensures s.Valid()
    ensures FoundId(old(s.viralVideos), idParam).None? ==>
      resp == Fail(404, "Video not found") && request == None && s.viralVideos == old(s.viralVideos)
    ensures FoundId(old(s.viralVideos), idParam).Some? ==>
      request == Some(AnalysisRequestFor(old(s.viralVideos)[FoundId(old(s.viralVideos), idParam).value]))
    ensures FoundId(old(s.viralVideos), idParam).Some? && reply.Err? ==>
      resp == Fail(500, "Failed to analyze video") && s.viralVideos == old(s.viralVideos)
    ensures FoundId(old(s.viralVideos), idParam).Some? && reply.Ok? ==>
      var id := FoundId(old(s.viralVideos), idParam).value;
      var analysis := OpenAi.NormalizeAnalysis(reply.value);
      var scored := old(s.viralVideos)[id].(ai_score := analysis.score, status := "processed", updated_at := now);
      resp == Json(AnalyzeBody(analysis, Some(scored)))
      && s.viralVideos == old(s.viralVideos)[id := scored]
      && 0 <= scored.ai_score <= 100
  {
    var found := FoundId(s.viralVideos, idParam);
    if found.None? {
      return Fail(404, "Video not found"), None;
    }
    var id := found.value;
    var video := s.viralVideos[id];
    request := Some(AnalysisRequestFor(video));
    var analysis := OpenAi.AnalyzeViralVideo(reply);
    if analysis.Err? {
      return Fail(500, "Failed to analyze video"), request;
    }
    ScorePatchEffect(video, analysis.value.score, now);
    var updated := s.UpdateViralVideo(id, ScorePatch(analysis.value.score), now);
    resp := Json(AnalyzeBody(analysis.value, updated));
  }

  // ---------------------------------------------------- script generation

  /** The fields `/api/scripts/generate` reads from the request body. */
  datatype GenerateBody = GenerateBody(
    content_type: Option<string>, video_length: Option<string>, target_audience: Option<string>,
    key_message: Option<string>, template_type: Option<string>)

  /** The arguments `generateScript` is called with. */
  datatype GenerateRequest = GenerateRequest(
    content_type: string, video_length: string, target_audience: string,
    key_message: string, template_type: string)

  /** None of the five fields is falsy. */
  predicate RequiredFieldsPresent(b: GenerateBody)
    ensures RequiredFieldsPresent(b) <==>
      var fields := [b.content_type, b.video_length, b.target_audience, b.key_message, b.template_type];
      None !in fields && Some("") !in fields
  {
    !Falsy(b.content_type, "") && !Falsy(b.video_length, "") && !Falsy(b.target_audience, "")
    && !Falsy(b.key_message, "") && !Falsy(b.template_type, "")
  }

  datatype GenerateResult = GenerateResult(script: Script, generated: OpenAi.GeneratedScript)

  /** `POST /api/scripts/generate`: a missing field is a 400 before any call;
      otherwise the generator's script is stored as an AI-generated draft
      with the request's fields (the key message is not stored). */
  method GenerateScriptRoute(s: MemStorage, body: GenerateBody, reply: Result<OpenAi.ScriptReply, string>, now: Timestamp)
      returns (resp: Response<GenerateResult>, request: Option<GenerateRequest>)
    requires s.Valid()
    modifies s`scripts, s`currentScriptId
    ensures s.Valid()
    ensures !RequiredFieldsPresent(body) ==>
      resp == Fail(400, "Missing required fields") && request == None
      && s.scripts == old(s.scripts) && s.currentScriptId == old(s.currentScriptId)
    ensures RequiredFieldsPresent(body) ==>
      request == Some(GenerateRequest(body.content_type.value, body.video_length.value,
        body.target_audience.value, body.key_message.value, body.template_type.value))
    ensures RequiredFieldsPresent(body) && reply.Err? ==>
      resp == Fail(500, "Failed to generate script")
      && s.scripts == old(s.scripts) && s.currentScriptId == old(s.currentScriptId)
    ensures RequiredFieldsPresent(body) && reply.Ok? ==>
      var g := OpenAi.NormalizeScript(reply.value);
      && resp.Json? && resp.body.generated == g
      && var script := resp.body.script;
      && script.id == old(s.currentScriptId) && script.id !in old(s.scripts)
      && s.scripts == old(s.scripts)[script.id := script]
      && s.currentScriptId == old(s.currentScriptId) + 1
      && script.title == g.title && script.content == g.full_script
      && script.content_type == body.content_type.value && script.video_length == body.video_length.value
      && script.target_audience == body.target_audience.value
      && script.template_type == body.template_type.value
      && script.ai_generated == Some(true) && script.status == "draft"
      && script.created_at == now && script.updated_at == now
  {
    if !RequiredFieldsPresent(body) {
      return Fail(400, "Missing required fields"), None;
    }
    request := Some(GenerateRequest(body.content_type.value, body.video_length.value,
      body.target_audience.value, body.key_message.value, body.template_type.value));
    var generated := OpenAi.GenerateScript(reply);
    if generated.Err? {
      return Fail(500, "Failed to generate script"), request;
    }
    var g := generated.value;
    var script := s.CreateScript(InsertScript(g.title, g.full_script, body.content_type.value,
      body.video_length.value, body.target_audience.value, body.template_type.value,
      Some(true), Some("draft")), now);
    resp := Json(GenerateResult(script, g));
  }

  // ------------------------------------------------------- PATCH handlers

  /** `PATCH /api/scripts/:id`: 404 exactly when the id does not parse to a
      stored script; otherwise the merged script. */
  method PatchScript(s: MemStorage, idParam: string, updates: ScriptPatch, now: Timestamp)
      returns (resp: Response<Script>)
    requires s.Valid()
    modifies s`scripts
    ensures s.Valid()
    ensures resp.Fail? <==> FoundId(old(s.scripts), idParam).None?
    ensures resp.Fail? ==> resp == Fail(404, "Script not found") && s.scripts == old(s.scripts)
    ensures resp.Json? ==>
      var id := FoundId(old(s.scripts), idParam).value;
      resp.body == MergeScript(old(s.scripts)[id], updates, now)
      && s.scripts == old(s.scripts)[id := resp.body]
  {
    var found := FoundId(s.scripts, idParam);
    if found.None? {
      return Fail(404, "Script not found");
    }
    var script := s.UpdateScript(found.value, updates, now);
    resp := Json(script.value);
  }

  /** `PATCH /api/videos/:id` */
  method PatchVideo(s: MemStorage, idParam: string, updates: VideoPatch)
      returns (resp: Response<Video>)
    requires s.Valid()
    modifies s`videos
    ensures s.Valid()
    ensures resp.Fail? <==> FoundId(old(s.videos), idParam).None?
    ensures resp.Fail? ==> resp == Fail(404, "Video not found") && s.videos == old(s.videos)
    ensures resp.Json? ==>
      var id := FoundId(old(s.videos), idParam).value;
      resp.body == MergeVideo(old(s.videos)[id], updates)
      && s.videos == old(s.videos)[id := resp.body]
  {
    var found := FoundId(s.videos, idParam);
    if found.None? {
      return Fail(404, "Video not found");
    }
    var video := s.UpdateVideo(found.value, updates);
    resp := Json(video.value);
  }

  /** `PATCH /api/scheduled-posts/:id` */
  method PatchScheduledPost(s: MemStorage, idParam: string, updates: ScheduledPostPatch)
      returns (resp: Response<ScheduledPost>)
    requires s.Valid()
    modifies s`scheduledPosts
    ensures s.Valid()
    ensures resp.Fail? <==> FoundId(old(s.scheduledPosts), idParam).None?
    ensures resp.Fail? ==> resp == Fail(404, "Post not found") && s.scheduledPosts == old(s.scheduledPosts)
    ensures resp.Json? ==>
      var id := FoundId(old(s.scheduledPosts), idParam).value;
      resp.body == MergeScheduledPost(old(s.scheduledPosts)[id], updates)
      && s.scheduledPosts == old(s.scheduledPosts)[id := resp.body]
  {
    var found := FoundId(s.scheduledPosts, idParam);
    if found.None? {
      return Fail(404, "Post not found");
    }
    var post := s.UpdateScheduledPost(found.value, updates);
    resp := Json(post.value);
  }

  // -------------------------------------------------------- POST handlers
  // Each body is `Err` when the insert schema rejects it; that is a 400 and
  // the store is not touched.

  method PostViralVideo(s: MemStorage, body: Result<InsertViralVideo, string>, now: Timestamp)
      returns (resp: Response<ViralVideo>)
    requires s.Valid()
    modifies s`viralVideos, s`currentViralVideoId
    ensures s.Valid()
    ensures body.Err? ==> (resp == Fail(400, "Invalid video data")
                           && s.viralVideos == old(s.viralVideos) && s.currentViralVideoId == old(s.currentViralVideoId))
    ensures body.Ok? ==> (resp == Json(NewViralVideo(body.value, old(s.currentViralVideoId), now))
                          && s.viralVideos == old(s.viralVideos)[resp.body.id := resp.body])
  {
    if body.Err? {
      return Fail(400, "Invalid video data");
    }
    var v := s.CreateViralVideo(body.value, now);
    resp := Json(v);
  }

  method PostAffiliateProduct(s: MemStorage, body: Result<InsertAffiliateProduct, string>, now: Timestamp)
      returns (resp: Response<AffiliateProduct>)
    requires s.Valid()
    modifies s`affiliateProducts, s`currentAffiliateProductId
    ensures s.Valid()
    ensures body.Err? ==> (resp == Fail(400, "Invalid product data")
                           && s.affiliateProducts == old(s.affiliateProducts)
                           && s.currentAffiliateProductId == old(s.currentAffiliateProductId))
    ensures body.Ok? ==> (resp == Json(NewAffiliateProduct(body.value, old(s.currentAffiliateProductId), now))
                          && s.affiliateProducts == old(s.affiliateProducts)[resp.body.id := resp.body])
  {
    if body.Err? {
      return Fail(400, "Invalid product data");
    }
    var p := s.CreateAffiliateProduct(body.value, now);
    resp := Json(p);
  }

  method PostScript(s: MemStorage, body: Result<InsertScript, string>, now: Timestamp)
      returns (resp: Response<Script>)
    requires s.Valid()
    modifies s`scripts, s`currentScriptId
    ensures s.Valid()
    ensures body.Err? ==> (resp == Fail(400, "Invalid script data")
                           && s.scripts == old(s.scripts) && s.currentScriptId == old(s.currentScriptId))
    ensures body.Ok? ==> (resp == Json(NewScript(body.value, old(s.currentScriptId), now))
                          && s.scripts == old(s.scripts)[resp.body.id := resp.body])
  {
    if body.Err? {
      return Fail(400, "Invalid script data");
    }
    var script := s.CreateScript(body.value, now);
    resp := Json(script);
  }

  method PostVideo(s: MemStorage, body: Result<InsertVideo, string>, now: Timestamp)
      returns (resp: Response<Video>)
    requires s.Valid()
    modifies s`videos, s`currentVideoId
    ensures s.Valid()
    ensures body.Err? ==> (resp == Fail(400, "Invalid video data")
                           && s.videos == old(s.videos) && s.currentVideoId == old(s.currentVideoId))
    ensures body.Ok? ==> (resp == Json(NewVideo(body.value, old(s.currentVideoId), now))
                          && s.videos == old(s.videos)[resp.body.id := resp.body])
  {
    if body.Err? {
      return Fail(400, "Invalid video data");
    }
    var v := s.CreateVideo(body.value, now);
    resp := Json(v);
  }

  method PostScheduledPost(s: MemStorage, body: Result<InsertScheduledPost, string>, now: Timestamp)
      returns (resp: Response<ScheduledPost>)
    requires s.Valid()
    modifies s`scheduledPosts, s`currentScheduledPostId
    ensures s.Valid()
    ensures body.Err? ==> (resp == Fail(400, "Invalid post data")
                           && s.scheduledPosts == old(s.scheduledPosts)
                           && s.currentScheduledPostId == old(s.currentScheduledPostId))
    ensures body.Ok? ==> (resp == Json(NewScheduledPost(body.value, old(s.currentScheduledPostId), now))
                          && s.scheduledPosts == old(s.scheduledPosts)[resp.body.id := resp.body])
  {
    if body.Err? {
      return Fail(400, "Invalid post data");
    }
    var p := s.CreateScheduledPost(body.value, now);
    resp := Json(p);
  }

  method PostAnalytics(s: MemStorage, body: Result<InsertAnalytics, string>, now: Timestamp)
      returns (resp: Response<Analytics>)
    requires s.Valid()
    modifies s`analytics, s`currentAnalyticsId
    ensures s.Valid()
    ensures body.Err? ==> (resp == Fail(400, "Invalid analytics data")
                           && s.analytics == old(s.analytics) && s.currentAnalyticsId == old(s.currentAnalyticsId))
    ensures body.Ok? ==> (resp == Json(NewAnalytics(body.value, old(s.currentAnalyticsId), now))
                          && s.analytics == old(s.analytics)[resp.body.id := resp.body])
  {
    if body.Err? {
      return Fail(400, "Invalid analytics data");
    }
    var a := s.CreateAnalytics(body.value, now);
    resp := Json(a);
  }

  // ------------------------------------------------- analytics by video

  /** `GET /api/analytics/video/:videoId`: the video's rows, newest first. A
      parameter that does not parse gives NaN, which no row's `video_id`
      equals. */
  function AnalyticsByVideo(s: MemStorage, videoIdParam: string): (r: seq<Analytics>)
    reads s
    requires s.Valid()
    ensures ParseInt(videoIdParam).NaN? ==> r == []
    ensures forall a :: a in r <==>
      ParseInt(videoIdParam).Int? && a.video_id == Some(ParseInt(videoIdParam).value)
      && exists k :: k in s.analytics && s.analytics[k] == a
    ensures ParseInt(videoIdParam).Int? ==>
      multiset(r) == multiset(ForVideo(KeyOrder(s.analytics, s.currentAnalyticsId), ParseInt(videoIdParam).value))
    ensures SortedBy(r, AnalyticsAge)
  {
    match ParseInt(videoIdParam)
    case Int(videoId) => s.GetAnalyticsByVideo(videoId)
    case NaN => []
  }

  // ------------------------------------------------------ content scoring

  /** `POST /api/content/score`: a falsy `content` is a 400 and nothing is
      scored; otherwise the content is sent for scoring and the score is
      returned (NaN when the reply is not a number). */
  function ContentScore(content: Option<string>, reply: Result<Option<string>, string>)
    : (r: (Response<IntOrNaN>, Option<string>))
    ensures Falsy(content, "") ==> r.0 == Fail(400, "Content is required") && r.1 == None
    ensures !Falsy(content, "") ==> r.1 == content && r.0.Json?
    ensures r.0.Json? && r.0.body.Int? ==> 0 <= r.0.body.value <= 100
    ensures r.0.Json? && reply.Err? ==> r.0.body == Int(50)
    ensures !Falsy(content, "") ==> r.0 == Json(OpenAi.ScoreContentAuthenticity(reply))
  {
    if Falsy(content, "") then (Fail(400, "Content is required"), None)
    else (Json(OpenAi.ScoreContentAuthenticity(reply)), content)
  }
}
