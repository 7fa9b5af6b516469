/** What the server does with the language model's replies: the parsed JSON
    reply becomes a `VideoAnalysis` or a `GeneratedScript` with every score
    clamped into 0..100 and every missing field defaulted, and the
    authenticity reply becomes a number. The request itself (prompt, network
    call, JSON parsing) is foreign: its outcome is an input, `Err` when the
    call or the parse throws. */
module OpenAi {
  import opened Wrappers
  import opened Text
  import opened JsSemantics

  // ------------------------------------------------------- video analysis

  /** The parsed reply of an analysis request; a field is `None` when the
      reply does not have it (an empty reply reads as `{}`). */
  datatype AnalysisReply = AnalysisReply(
    score: Option<int>, engagement_quality: Option<string>,
    content_themes: Option<seq<string>>, success_factors: Option<seq<string>>,
    recommendations: Option<seq<string>>)

  datatype VideoAnalysis = VideoAnalysis(
    score: int, engagement_quality: string, content_themes: seq<string>,
    success_factors: seq<string>, recommendations: seq<string>)

  /** The analysis built from a reply. An array is never falsy, so a list is
      replaced only when it is missing. */
  function NormalizeAnalysis(reply: AnalysisReply): (a: VideoAnalysis)
    ensures 0 <= a.score <= 100
    ensures Falsy(reply.score, 0) ==> a.score == 0
    ensures reply.score.Some? && 0 <= reply.score.value <= 100 ==> a.score == reply.score.value
    ensures reply.score.Some? && reply.score.value > 100 ==> a.score == 100
    ensures reply.score.Some? && reply.score.value < 0 ==> a.score == 0
    ensures a.engagement_quality != ""
    ensures Falsy(reply.engagement_quality, "") ==> a.engagement_quality == "good"
    ensures !Falsy(reply.engagement_quality, "") ==> Some(a.engagement_quality) == reply.engagement_quality
    ensures a.content_themes == (if reply.content_themes.Some? then reply.content_themes.value else [])
    ensures a.success_factors == (if reply.success_factors.Some? then reply.success_factors.value else [])
    ensures a.recommendations == (if reply.recommendations.Some? then reply.recommendations.value else [])
  {
    VideoAnalysis(
      Clamp(OrDefault(reply.score, 0, 0)),
      OrDefault(reply.engagement_quality, "", "good"),
      reply.content_themes.GetOr([]),
      reply.success_factors.GetOr([]),
      reply.recommendations.GetOr([]))
  }

  /** The reply that carries exactly the fields of `a`. */
  function AnalysisReplyOf(a: VideoAnalysis): AnalysisReply {
    AnalysisReply(Some(a.score), Some(a.engagement_quality), Some(a.content_themes),
      Some(a.success_factors), Some(a.recommendations))
  }

  /** An analysis survives a round trip through its reply exactly when it is
      already in normal form: a score in 0..100 and a quality that is set. */
  lemma AnalysisRoundTrip(a: VideoAnalysis)
    ensures NormalizeAnalysis(AnalysisReplyOf(a)) == a
        <==> 0 <= a.score <= 100 && a.engagement_quality != ""
  {
    if 0 <= a.score <= 100 && a.engagement_quality != "" {
      assert Clamp(a.score) == a.score;
    }
  }

  /** Normalising twice changes nothing. */
  lemma NormalizeAnalysisIdempotent(reply: AnalysisReply)
    ensures NormalizeAnalysis(AnalysisReplyOf(NormalizeAnalysis(reply))) == NormalizeAnalysis(reply)
  {
    AnalysisRoundTrip(NormalizeAnalysis(reply));
  }

  function AnalysisErrorPrefix(): string { "Failed to analyze viral video: " }

  /** `analyzeViralVideo`: the normalised reply, or the error rethrown with
      its message behind a fixed prefix. */
  function AnalyzeViralVideo(reply: Result<AnalysisReply, string>): (r: Result<VideoAnalysis, string>)
    ensures r.Ok? <==> reply.Ok?
    ensures r.Ok? ==> 0 <= r.value.score <= 100
    ensures reply.Ok? ==> r == Ok(NormalizeAnalysis(reply.value))
    ensures r.Err? ==> (|r.error| >= |AnalysisErrorPrefix()|
                        && r.error[..|AnalysisErrorPrefix()|] == AnalysisErrorPrefix()
                        && r.error[|AnalysisErrorPrefix()|..] == reply.error)
  {
    match reply
    case Ok(parsed) => Ok(NormalizeAnalysis(parsed))
    case Err(message) => Err(AnalysisErrorPrefix() + message)
  }

  // ---------------------------------------------------- script generation

  /** The parsed reply of a generation request. */
  datatype ScriptReply = ScriptReply(
    title: Option<string>, hook: Option<string>, problem: Option<string>,
    solution: Option<string>, proof: Option<string>, cta: Option<string>,
    full_script: Option<string>, hashtags: Option<seq<string>>,
    estimated_engagement: Option<int>)

  datatype GeneratedScript = GeneratedScript(
    title: string, hook: string, problem: string, solution: string, proof: string,
    cta: string, full_script: string, hashtags: seq<string>, estimated_engagement: int)

  /** The script built from a reply. `estimated_engagement || 50` treats a
      reported engagement of 0 as missing. */
  function NormalizeScript(reply: ScriptReply): (g: GeneratedScript)
    ensures g.title != ""
    ensures Falsy(reply.title, "") ==> g.title == "Untitled Script"
    ensures !Falsy(reply.title, "") ==> Some(g.title) == reply.title
    ensures g.hook == reply.hook.GetOr("") && g.problem == reply.problem.GetOr("")
    ensures g.solution == reply.solution.GetOr("") && g.proof == reply.proof.GetOr("")
    ensures g.cta == reply.cta.GetOr("") && g.full_script == reply.full_script.GetOr("")
    ensures g.hashtags == (if reply.hashtags.Some? then reply.hashtags.value else [])
    ensures 0 <= g.estimated_engagement <= 100
    ensures Falsy(reply.estimated_engagement, 0) ==> g.estimated_engagement == 50
    ensures reply.estimated_engagement.Some? && 0 < reply.estimated_engagement.value <= 100
      ==> g.estimated_engagement == reply.estimated_engagement.value
    ensures reply.estimated_engagement.Some? && reply.estimated_engagement.value > 100
      ==> g.estimated_engagement == 100
    ensures reply.estimated_engagement.Some? && reply.estimated_engagement.value < 0
      ==> g.estimated_engagement == 0
  {
    GeneratedScript(
      OrDefault(reply.title, "", "Untitled Script"),
      OrDefault(reply.hook, "", ""),
      OrDefault(reply.problem, "", ""),
      OrDefault(reply.solution, "", ""),
      OrDefault(reply.proof, "", ""),
      OrDefault(reply.cta, "", ""),
      OrDefault(reply.full_script, "", ""),
      reply.hashtags.GetOr([]),
      Clamp(OrDefault(reply.estimated_engagement, 0, 50)))
  }

  function ScriptReplyOf(g: GeneratedScript): ScriptReply {
    ScriptReply(Some(g.title), Some(g.hook), Some(g.problem), Some(g.solution),
      Some(g.proof), Some(g.cta), Some(g.full_script), Some(g.hashtags),
      Some(g.estimated_engagement))
  }

  /** A script survives a round trip through its reply exactly when its title
      is set and its engagement lies in 1..100: an engagement of 0 comes back
      as 50. */
  lemma ScriptRoundTrip(g: GeneratedScript)
    ensures NormalizeScript(ScriptReplyOf(g)) == g
        <==> g.title != "" && 0 < g.estimated_engagement <= 100
  {
    if g.title != "" && 0 < g.estimated_engagement <= 100 {
      assert Clamp(g.estimated_engagement) == g.estimated_engagement;
    }
  }

  /** So normalisation is not idempotent: a reply below 1 is clamped to 0,
      which a second pass turns into 50. */
  lemma NormalizeScriptNotIdempotent(reply: ScriptReply)
    requires reply.estimated_engagement.Some? && reply.estimated_engagement.value < 0
    ensures NormalizeScript(reply).estimated_engagement == 0
    ensures NormalizeScript(ScriptReplyOf(NormalizeScript(reply))).estimated_engagement == 50
  {
  }

  function ScriptErrorPrefix(): string { "Failed to generate script: " }

  /** `generateScript`: the normalised reply, or the error rethrown with its
      message behind a fixed prefix. */
  function GenerateScript(reply: Result<ScriptReply, string>): (r: Result<GeneratedScript, string>)
    ensures r.Ok? <==> reply.Ok?
    ensures r.Ok? ==> r.value.title != "" && 0 <= r.value.estimated_engagement <= 100
    ensures reply.Ok? ==> r == Ok(NormalizeScript(reply.value))
    ensures r.Err? ==> (|r.error| >= |ScriptErrorPrefix()|
                        && r.error[..|ScriptErrorPrefix()|] == ScriptErrorPrefix()
                        && r.error[|ScriptErrorPrefix()|..] == reply.error)
  {
    match reply
    case Ok(parsed) => Ok(NormalizeScript(parsed))
    case Err(message) => Err(ScriptErrorPrefix() + message)
  }

  // ------------------------------------------------ authenticity scoring

  /** `scoreContentAuthenticity`: the reply text (`None` for a null content)
      read by `parseInt`, an empty or null reply counting as "50", then
      clamped; NaN passes through the clamp unchanged. A failed call gives 50. */
  function ScoreContentAuthenticity(reply: Result<Option<string>, string>): (r: IntOrNaN)
    ensures r.Int? ==> 0 <= r.value <= 100
    ensures reply.Err? ==> r == Int(50)
    ensures reply.Ok? && Falsy(reply.value, "") ==> r == Int(50)
    ensures reply.Ok? && !Falsy(reply.value, "") ==>
      (r == NaN <==> ParseInt(reply.value.value) == NaN)
    ensures reply.Ok? && !Falsy(reply.value, "") && ParseInt(reply.value.value).Int?
      && 0 <= ParseInt(reply.value.value).value <= 100
      ==> r == ParseInt(reply.value.value)
    ensures reply.Ok? && !Falsy(reply.value, "") && ParseInt(reply.value.value).Int?
      ==> r == Int(Clamp(ParseInt(reply.value.value).value))
  {
    match reply
    case Err(_) => Int(50)
    case Ok(content) =>
      var text := OrDefault(content, "", "50");
      if text == "50" then
        ParseIntToString(50, "");
        assert IntToString(50) + "" == "50";
        ClampNumber(ParseInt(text))
      else
        ClampNumber(ParseInt(text))
  }

  /** `Math.max(0, Math.min(100, x))` on a number that may be NaN. */
  function ClampNumber(x: IntOrNaN): (r: IntOrNaN)
    ensures r.NaN? <==> x.NaN?
    ensures r.Int? ==> 0 <= r.value <= 100 && (0 <= x.value <= 100 ==> r.value == x.value)
    ensures x.Int? && x.value < 0 ==> r == Int(0)
    ensures x.Int? && x.value > 100 ==> r == Int(100)
  {
    match x
    case Int(v) => Int(Clamp(v))
    case NaN => NaN
  }

  /** A reply that is a score in 0..100 written as a numeral, optionally
      followed by text that cannot continue it, is that score. */
  lemma AuthenticityOfNumeral(score: int, rest: string)
    requires 0 <= score <= 100
    requires rest == [] || (!IsDecimalDigit(rest[0]) && rest[0] != 'x' && rest[0] != 'X')
    ensures ScoreContentAuthenticity(Ok(Some(IntToString(score) + rest))) == Int(score)
  {
    ParseIntToString(score, rest);
    assert IntToString(score) + rest != [] by {
      assert |NatToDecimal(score)| >= 1;
    }
  }
}
