/** The command-line agent: its records, the part of its database that the
    agent's own operations touch, the fallbacks it returns when a language
    model call fails, reading the authenticity score with `int`, generating
    and storing a script, and the dashboard statistics. The database is held
    as sequences; SQL and the connection are not modelled. */
module Agent {
  import opened Wrappers
  import opened Text
  import opened Folds
  import OpenAi

  /** The `ViralVideo` dataclass. */
  datatype AgentViralVideo = AgentViralVideo(
    id: Option<int>, title: string, platform: string, url: string, views: int,
    engagement_rate: real, ai_score: int, captions: string, hashtags: string,
    status: string, audio_transcript: string, created_at: string)

  /** The `GeneratedScript` dataclass. */
  datatype AgentScript = AgentScript(
    id: Option<int>, title: string, content: string, content_type: string,
    video_length: string, target_audience: string, template_type: string,
    ai_generated: bool, status: string, created_at: string)

  // ----------------------------------------------------------- database

  /** The `viral_videos` and `generated_scripts` tables. A script row gets
      the next AUTOINCREMENT id and the database's timestamp. */
  class AgentDatabase {
    var viralVideos: seq<AgentViralVideo>
    var scripts: seq<AgentScript>
    var nextScriptId: int

    /** Every stored script has an id below the next one. */
    ghost predicate Valid()
      reads this
    {
      nextScriptId >= 1
      && forall i :: 0 <= i < |scripts| ==> scripts[i].id.Some? && 1 <= scripts[i].id.value < nextScriptId
    }

    /** A fresh database file whose `viral_videos` table holds `videos`,
        with no scripts. */
    constructor (videos: seq<AgentViralVideo>)
      ensures Valid()
      ensures viralVideos == videos && scripts == [] && nextScriptId == 1
    {
      viralVideos := videos;
      scripts := [];
      nextScriptId := 1;
    }

    /** `insert_script`: the row is stored under a fresh id, which is returned. */
    method InsertScript(script: AgentScript, now: string) returns (id: int)
      requires Valid()
      modifies this`scripts, this`nextScriptId
      ensures Valid()
      ensures id == old(nextScriptId)
      ensures forall i :: 0 <= i < |old(scripts)| ==> old(scripts)[i].id != Some(id)
      ensures scripts == old(scripts) + [script.(id := Some(id), created_at := now)]
      ensures nextScriptId == old(nextScriptId) + 1
    {
      id := nextScriptId;
      scripts := scripts + [script.(id := Some(id), created_at := now)];
      nextScriptId := nextScriptId + 1;
    }
  }

  // ------------------------------------------------- language model calls

  /** What `analyze_viral_video` returns when the call fails. */
  function AnalysisFallback(): (r: OpenAi.AnalysisReply)
    ensures r.score == Some(0) && r.engagement_quality == Some("unknown")
    ensures r.content_themes == Some(["analysis_failed"]) && r.success_factors == Some(["Could not analyze"])
    ensures r.recommendations == Some(["Retry analysis"])
  {
    OpenAi.AnalysisReply(Some(0), Some("unknown"), Some(["analysis_failed"]),
      Some(["Could not analyze"]), Some(["Retry analysis"]))
  }

  /** `analyze_viral_video`: the parsed reply as it is, or the fallback. */
  function AnalyzeViralVideo(reply: Result<OpenAi.AnalysisReply, string>): (r: OpenAi.AnalysisReply)
    ensures reply.Err? ==> r.score == Some(0) && r.engagement_quality == Some("unknown")
    ensures reply.Err? ==> r.content_themes == Some(["analysis_failed"])
    ensures reply.Ok? ==> r == reply.value
  {
    match reply
    case Ok(parsed) => parsed
    case Err(_) => AnalysisFallback()
  }

  /** The fallback analysis is already in the server's normal form: the
      server would show it unchanged, with a score of 0. */
  lemma AnalysisFallbackNormal()
    ensures OpenAi.NormalizeAnalysis(AnalysisFallback())
         == OpenAi.VideoAnalysis(0, "unknown", ["analysis_failed"], ["Could not analyze"], ["Retry analysis"])
    ensures OpenAi.AnalysisReplyOf(OpenAi.NormalizeAnalysis(AnalysisFallback())) == AnalysisFallback()
  {
    OpenAi.AnalysisRoundTrip(OpenAi.VideoAnalysis(0, "unknown", ["analysis_failed"], ["Could not analyze"], ["Retry analysis"]));
  }

  /** What `generate_script` returns when the call fails. */
  function ScriptFallback(): (r: OpenAi.ScriptReply)
    ensures r.title == Some("Error generating script") && r.estimated_engagement == Some(0)
    ensures r.full_script == Some("Script generation failed due to technical error.")
    ensures r.hashtags == Some(["#error"])
    ensures forall f :: f in [r.hook, r.problem, r.solution, r.proof, r.cta] ==> f.Some? && f.value != ""
  {
    OpenAi.ScriptReply(Some("Error generating script"), Some("Script generation failed"),
      Some("Technical error occurred"), Some("Please try again"), Some("No results available"),
      Some("Contact support"), Some("Script generation failed due to technical error."),
      Some(["#error"]), Some(0))
  }

  /** `generate_script`: the parsed reply as it is, or the fallback. */
  function GenerateScript(reply: Result<OpenAi.ScriptReply, string>): (r: OpenAi.ScriptReply)
    ensures reply.Err? ==> r.estimated_engagement == Some(0) && r.hashtags == Some(["#error"])
    ensures reply.Err? ==> r.title == Some("Error generating script")
    ensures reply.Ok? ==> r == reply.value
  {
    match reply
    case Ok(parsed) => parsed
    case Err(_) => ScriptFallback()
  }

  /** The fallback's engagement of 0 is one the server would not keep: its
      `|| 50` turns it into 50. */
  lemma ScriptFallbackEngagement()
    ensures OpenAi.NormalizeScript(ScriptFallback()).estimated_engagement == 50
    ensures OpenAi.NormalizeScript(ScriptFallback()).title == "Error generating script"
  {
  }

  // ------------------------------------------------ authenticity scoring

  predicate DigitsOrUnderscores(d: string) {
    forall i :: 0 <= i < |d| ==> IsDecimalDigit(d[i]) || d[i] == '_'
  }

  /** What `int` accepts between the sign and the end: decimal digits, with
      single underscores between two digits. */
  predicate IsPyDigits(d: string) {
    |d| > 0 && IsDecimalDigit(d[0]) && IsDecimalDigit(d[|d| - 1]) && DigitsOrUnderscores(d)
    && forall i :: 0 < i < |d| && d[i] == '_' ==> d[i - 1] != '_'
  }

  /** The digits of `d` with the underscores left out. */
  function DropUnderscores(d: string): (r: string)
    requires DigitsOrUnderscores(d)
    ensures AllRadixDigits(r, 10)
    ensures |r| <= |d|
    ensures AllRadixDigits(d, 10) ==> r == d
  {
    if d == [] then []
    else if d[0] == '_' then DropUnderscores(d[1..])
    else [d[0]] + DropUnderscores(d[1..])
  }

  /** `int(s)` on a string: surrounding whitespace, an optional sign, then
      digits; `None` where `int` raises `ValueError`. */
  function PyParseInt(s: string): (r: Option<int>)
    ensures r.Some? ==> Strip(s, IsPySpace) != []
  {
    var t := Strip(s, IsPySpace);
    var negative := |t| > 0 && t[0] == '-';
    var body := if |t| > 0 && (t[0] == '-' || t[0] == '+') then t[1..] else t;
    if IsPyDigits(body) then
      var v := DigitsValue(DropUnderscores(body), 10) as int;
      Some(if negative then -v else v)
    else None
  }

  /** `str(n)`, padded with whitespace on either side, reads back as `n`. */
  lemma {:induction false} PyParseIntOfNumeral(before: string, n: int, after: string)
    requires forall i :: 0 <= i < |before| ==> IsPySpace(before[i])
    requires forall i :: 0 <= i < |after| ==> IsPySpace(after[i])
    ensures PyParseInt(before + PyStr(n) + after) == Some(n)
  {
    PyStrEnds(n);
    StripPadded(before, PyStr(n), after, IsPySpace);
    PyParseOfStripped(before + PyStr(n) + after, n);
  }

  /** `str(n)` neither starts nor ends with whitespace. */
  lemma {:induction false} PyStrEnds(n: int)
    ensures !IsPySpace(PyStr(n)[0]) && !IsPySpace(PyStr(n)[|PyStr(n)| - 1])
  {
    var s := PyStr(n);
    assert IsDecimalDigit(s[|s| - 1]);
    if n < 0 {
      assert s[0] == '-';
    } else {
      assert IsDecimalDigit(s[0]);
    }
  }

  /** Text that strips to `str(n)` reads as `n`. */
  lemma {:induction false} PyParseOfStripped(s: string, n: int)
    requires Strip(s, IsPySpace) == PyStr(n)
    ensures PyParseInt(s) == Some(n)
  {
    var t := Strip(s, IsPySpace);
    var m: nat := if n < 0 then -n else n;
    var digits := NatToDecimal(m);
    NumeralIsPyDigits(digits);
    if n < 0 {
      assert t == "-" + digits;
      assert t[1..] == digits;
      assert PyParseInt(s) == Some(-(DigitsValue(digits, 10) as int));
    } else {
      assert t == digits;
      assert IsDecimalDigit(t[0]);
      assert PyParseInt(s) == Some(DigitsValue(digits, 10) as int);
    }
  }

  /** A decimal numeral is a valid `int` body and has no underscores. */
  lemma {:induction false} NumeralIsPyDigits(digits: string)
    requires 1 <= |digits| && AllRadixDigits(digits, 10)
    ensures IsPyDigits(digits) && DropUnderscores(digits) == digits
  {
    assert forall i :: 0 <= i < |digits| ==> IsRadixDigit(digits[i], 10);
  }

  /** A character that is neither whitespace, a sign, a digit nor an
      underscore makes `int` raise `ValueError`: a reply such as "85/100" or
      "Score: 85" reads as `None`. */
  lemma {:induction false} PyParseIntRejects(s: string, i: int)
    requires 0 <= i < |s| && !IsPySpace(s[i]) && !IsDecimalDigit(s[i])
    requires s[i] != '+' && s[i] != '-' && s[i] != '_'
    ensures PyParseInt(s) == None
    ensures ScoreContentAuthenticity(Ok(Some(s))) == 50
  {
    StripKeeps(s, IsPySpace, i);
    var t := Strip(s, IsPySpace);
    var j :| 0 <= j < |t| && t[j] == s[i];
    var body := if |t| > 0 && (t[0] == '-' || t[0] == '+') then t[1..] else t;
    var k := if |t| > 0 && (t[0] == '-' || t[0] == '+') then j - 1 else j;
    assert body[k] == s[i];
  }

  /** `str(n)` for an integer `n`. */
  function PyStr(n: int): (s: string)
    ensures s != [] && IsDecimalDigit(s[|s| - 1])
    ensures s[0] == '-' <==> n < 0
    ensures n >= 0 ==> IsDecimalDigit(s[0])
  {
    var digits := NatToDecimal(if n < 0 then -n else n);
    if n < 0 then "-" + digits else digits
  }

  /** A reply made of whitespace only is not a number. */
  lemma PyParseIntOfBlank(s: string)
    requires forall i :: 0 <= i < |s| ==> IsPySpace(s[i])
    ensures PyParseInt(s) == None
  {
  }

  /** `score_content_authenticity`: the reply text read by `int`; 50 when the
      call fails, the reply has no text, or the text is not an integer. The
      score is not clamped. */
  function ScoreContentAuthenticity(reply: Result<Option<string>, string>): (r: int)
    ensures reply.Err? ==> r == 50
    ensures reply.Ok? && reply.value.None? ==> r == 50
    ensures reply.Ok? && reply.value.Some? && PyParseInt(reply.value.value).None? ==> r == 50
    ensures reply.Ok? && reply.value.Some? && PyParseInt(reply.value.value).Some? ==>
      r == PyParseInt(reply.value.value).value
  {
    match reply
    case Err(_) => 50
    case Ok(content) =>
      if content.None? then 50
      else match PyParseInt(content.value)
        case Some(v) => v
        case None => 50
  }

  /** Any integer the model writes, however far outside 0..100 and however
      padded, is the score. */
  lemma AuthenticityUnclamped(before: string, n: int, after: string)
    requires forall i :: 0 <= i < |before| ==> IsPySpace(before[i])
    requires forall i :: 0 <= i < |after| ==> IsPySpace(after[i])
    ensures ScoreContentAuthenticity(Ok(Some(before + PyStr(n) + after))) == n
  {
    PyParseIntOfNumeral(before, n, after);
  }

  // ---------------------------------------------------- script generation

  /** `generate_content_script`: the model's title and full script (or
      their defaults when the reply lacks them) with the request's fields,
      stored as an AI-generated script; the key message is only sent to the
      model. The returned script carries the new id and no timestamp. */
  method GenerateContentScript(db: AgentDatabase, contentType: string, videoLength: string,
      targetAudience: string, keyMessage: string, templateType: string,
      reply: Result<OpenAi.ScriptReply, string>, now: string)
      returns (script: AgentScript)
    requires db.Valid()
    modifies db`scripts, db`nextScriptId
    ensures db.Valid()
    ensures script.id == Some(old(db.nextScriptId))
    ensures script.title == GenerateScript(reply).title.GetOr("Generated Script")
    ensures script.content == GenerateScript(reply).full_script.GetOr("Content generation failed")
    ensures script.content_type == contentType && script.video_length == videoLength
    ensures script.target_audience == targetAudience && script.template_type == templateType
    ensures script.ai_generated && script.status == "generated" && script.created_at == ""
    ensures db.scripts == old(db.scripts) + [script.(created_at := now)]
    ensures db.nextScriptId == old(db.nextScriptId) + 1
  {
    var data := GenerateScript(reply);
    script := AgentScript(None, data.title.GetOr("Generated Script"),
      data.full_script.GetOr("Content generation failed"), contentType, videoLength,
      targetAudience, templateType, true, "generated", "");
    var id := db.InsertScript(script, now);
    script := script.(id := Some(id));
  }

  /** When the call fails the stored script is the fallback's. */
  lemma FailedGenerationTitle(reply: Result<OpenAi.ScriptReply, string>)
    requires reply.Err?
    ensures GenerateScript(reply).title.GetOr("Generated Script") == "Error generating script"
    ensures GenerateScript(reply).full_script.GetOr("Content generation failed")
         == "Script generation failed due to technical error."
  {
  }

  /** The five inputs of `generate_script_interactive`. */
  datatype ScriptInputs = ScriptInputs(
    content_type: string, video_length: string, target_audience: string,
    key_message: string, template_type: string)

  /** Each input stripped: empty exactly when it was blank, and otherwise
      starting and ending with a character that is not whitespace. */
  function StripInputs(raw: ScriptInputs): (r: ScriptInputs)
    ensures r.content_type == [] <==> Blank(raw.content_type)
    ensures r.video_length == [] <==> Blank(raw.video_length)
    ensures r.target_audience == [] <==> Blank(raw.target_audience)
    ensures r.key_message == [] <==> Blank(raw.key_message)
    ensures r.template_type == [] <==> Blank(raw.template_type)
    ensures Trimmed(r.content_type) && Trimmed(r.video_length) && Trimmed(r.target_audience)
    ensures Trimmed(r.key_message) && Trimmed(r.template_type)
  {
    StrippedField(raw.content_type);
    StrippedField(raw.video_length);
    StrippedField(raw.target_audience);
    StrippedField(raw.key_message);
    StrippedField(raw.template_type);
    ScriptInputs(Strip(raw.content_type, IsPySpace), Strip(raw.video_length, IsPySpace),
      Strip(raw.target_audience, IsPySpace), Strip(raw.key_message, IsPySpace),
      Strip(raw.template_type, IsPySpace))
  }

  lemma StrippedField(s: string)
    ensures Strip(s, IsPySpace) == [] <==> Blank(s)
    ensures Trimmed(Strip(s, IsPySpace))
  {
  }

  /** No whitespace at either end. */
  predicate Trimmed(s: string) {
    s == [] || (!IsPySpace(s[0]) && !IsPySpace(s[|s| - 1]))
  }

  /** `all([...])` over the stripped inputs. */
  predicate AllFilled(inputs: ScriptInputs) {
    inputs.content_type != "" && inputs.video_length != "" && inputs.target_audience != ""
    && inputs.key_message != "" && inputs.template_type != ""
  }

  /** A text that is whitespace only, which `strip` empties. */
  predicate Blank(s: string) {
    forall i :: 0 <= i < |s| ==> IsPySpace(s[i])
  }

  /** The stripped inputs are all filled exactly when no raw input is blank. */
  lemma AllFilledIffNoneBlank(raw: ScriptInputs)
    ensures AllFilled(StripInputs(raw))
        <==> (!Blank(raw.content_type) && !Blank(raw.video_length) && !Blank(raw.target_audience)
              && !Blank(raw.key_message) && !Blank(raw.template_type))
  {
  }

  /** `generate_script_interactive`: nothing is generated unless every
      stripped input is non-empty; otherwise the script generated from the
      stripped inputs is stored under the next id, as
      `generate_content_script` stores it (the stripped key message goes to
      the model only). */
  method GenerateScriptInteractive(db: AgentDatabase, raw: ScriptInputs,
      reply: Result<OpenAi.ScriptReply, string>, now: string)
      returns (script: Option<AgentScript>)
    requires db.Valid()
    modifies db`scripts, db`nextScriptId
    ensures db.Valid()
    ensures script.None? <==> !AllFilled(StripInputs(raw))
    ensures script.None? ==> db.scripts == old(db.scripts) && db.nextScriptId == old(db.nextScriptId)
    ensures script.Some? ==>
      (&& db.scripts == old(db.scripts) + [script.value.(created_at := now)]
       && script.value.content_type == Strip(raw.content_type, IsPySpace)
       && script.value.video_length == Strip(raw.video_length, IsPySpace)
       && script.value.target_audience == Strip(raw.target_audience, IsPySpace)
       && script.value.template_type == Strip(raw.template_type, IsPySpace)
       && script.value.content_type != [] && !IsPySpace(script.value.content_type[0]))
    ensures script.Some? ==>
      (&& script.value.id == Some(old(db.nextScriptId))
       && db.nextScriptId == old(db.nextScriptId) + 1
       && script.value.title == GenerateScript(reply).title.GetOr("Generated Script")
       && script.value.content == GenerateScript(reply).full_script.GetOr("Content generation failed")
       && script.value.ai_generated && script.value.status == "generated"
       && script.value.created_at == "")
  {
    var inputs := StripInputs(raw);
    if !AllFilled(inputs) {
      return None;
    }
    var s := GenerateContentScript(db, inputs.content_type, inputs.video_length,
      inputs.target_audience, inputs.key_message, inputs.template_type, reply, now);
    script := Some(s);
  }

  // ---------------------------------------------------------- statistics

  datatype AgentStats = AgentStats(
    monthly_revenue: int, videos_created: int, avg_engagement: real,
    conversion_rate: real, total_views: int, viral_videos_found: int)

  function VideoViews(v: AgentViralVideo): int { v.views }
  function VideoEngagement(v: AgentViralVideo): real { v.engagement_rate }
  predicate IsViral(v: AgentViralVideo) { v.ai_score > 85 }

  /** The statistics of a list of videos and scripts: the views summed,
      the engagement averaged and the videos scoring above 85 counted. */
  function Stats(videos: seq<AgentViralVideo>, scripts: seq<AgentScript>): (r: AgentStats)
    ensures r.monthly_revenue == 5600 && r.conversion_rate == 4.2
    ensures r.videos_created == |scripts|
    ensures r.total_views == SumInt(videos, VideoViews)
    ensures r.viral_videos_found == |Filter(videos, IsViral)|
    ensures forall v :: v in Filter(videos, IsViral) <==> v in videos && v.ai_score > 85
    ensures 0 <= r.viral_videos_found <= |videos|
    ensures videos != [] ==> r.avg_engagement * (|videos| as real) == SumReal(videos, VideoEngagement)
    ensures videos == [] ==> r.avg_engagement == 0.0 && r.total_views == 0 && r.viral_videos_found == 0
  {
    AgentStats(5600, |scripts|, Mean(videos, VideoEngagement), 4.2,
      SumInt(videos, VideoViews), |Filter(videos, IsViral)|)
  }

  /** `get_dashboard_stats` over the whole database: the views of every
      stored video summed, their engagement averaged, the videos scoring
      above 85 counted, and the stored scripts counted. */
  function GetDashboardStats(db: AgentDatabase): (r: AgentStats)
    reads db
    ensures r.monthly_revenue == 5600 && r.conversion_rate == 4.2
    ensures r.videos_created == |db.scripts|
    ensures r.total_views == SumInt(db.viralVideos, VideoViews)
    ensures r.viral_videos_found == |Filter(db.viralVideos, IsViral)|
    ensures db.viralVideos != [] ==>
      r.avg_engagement * (|db.viralVideos| as real) == SumReal(db.viralVideos, VideoEngagement)
    ensures db.viralVideos == [] ==> r.avg_engagement == 0.0 && r.total_views == 0
  {
    Stats(db.viralVideos, db.scripts)
  }

  /** The statistics do not depend on the order the rows are read in
      (`ORDER BY ai_score DESC` for videos, `created_at DESC` for scripts). */
  lemma StatsOrderIndependent(v1: seq<AgentViralVideo>, v2: seq<AgentViralVideo>,
      s1: seq<AgentScript>, s2: seq<AgentScript>)
    requires multiset(v1) == multiset(v2) && |s1| == |s2|
    ensures Stats(v1, s1) == Stats(v2, s2)
  {
    MeanPermutation(v1, v2, VideoEngagement);
    SumIntPermutation(v1, v2, VideoViews);
    FilterPermutation(v1, v2, IsViral);
  }

  /** One more video adds its views, and counts as viral exactly when its
      score is above 85 (a score of 85 does not count). */
  lemma StatsAddVideo(videos: seq<AgentViralVideo>, scripts: seq<AgentScript>, v: AgentViralVideo)
    ensures Stats(videos + [v], scripts).total_views == Stats(videos, scripts).total_views + v.views
    ensures Stats(videos + [v], scripts).viral_videos_found
         == Stats(videos, scripts).viral_videos_found + (if v.ai_score > 85 then 1 else 0)
  {
    assert (videos + [v])[..|videos|] == videos;
    var one := (x: AgentViralVideo) => if IsViral(x) then 1 else 0;
    FilterAsSum(videos + [v], IsViral);
    FilterAsSum(videos, IsViral);
  }
}
