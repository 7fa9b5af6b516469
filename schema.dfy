/** The records of the store, one datatype per table, with the values the
    create operations accept (`Insert…`), the partial records the update
    operations merge (`…Patch`, TypeScript's `Partial<…>`), and the functions
    that build a stored record from each. Field names are the column names. */
module Schema {
  import opened Wrappers
  import opened JsSemantics

  /** `Date` values, as milliseconds since the epoch. */
  type Timestamp = int

  /** `p` over `cur`: the patch's value when it has one. */
  function Over<T>(cur: T, p: Option<T>): T {
    if p.Some? then p.value else cur
  }

  /** A field after a spread merge: the patch's value when the patch names
      the field, the stored value otherwise. */
  predicate Applied<T(==)>(r: T, cur: T, p: Option<T>) {
    if p.Some? then r == p.value else r == cur
  }

  /** The patch that applies `p` and then `q`. */
  function Then<T>(p: Option<T>, q: Option<T>): Option<T> {
    if q.Some? then q else p
  }

  // ---------------------------------------------------------------- users

  datatype User = User(id: int, username: string, password: string, name: string, email: string)

  datatype InsertUser = InsertUser(username: string, password: string, name: string, email: string)

  /** `{ ...insertUser, id }` */
  function NewUser(ins: InsertUser, id: int): (u: User)
    ensures u.id == id
    ensures InsertUser(u.username, u.password, u.name, u.email) == ins
  {
    User(id, ins.username, ins.password, ins.name, ins.email)
  }

  // --------------------------------------------------------- viral videos

  datatype ViralVideo = ViralVideo(
    id: int, title: string, platform: string, url: string, views: int,
    engagement_rate: real, ai_score: int, captions: Option<string>,
    hashtags: Option<string>, audio_transcript: Option<string>, status: string,
    created_at: Timestamp, updated_at: Timestamp)

  datatype InsertViralVideo = InsertViralVideo(
    title: string, platform: string, url: string, views: int, engagement_rate: real,
    ai_score: int, captions: Option<string>, hashtags: Option<string>,
    audio_transcript: Option<string>, status: Option<string>)

  /** A nullable field of a patch is `Some(None)` when the patch sets it to
      null and `None` when the patch does not mention it. */
  datatype ViralVideoPatch = ViralVideoPatch(
    id: Option<int>, title: Option<string>, platform: Option<string>, url: Option<string>,
    views: Option<int>, engagement_rate: Option<real>, ai_score: Option<int>,
    captions: Option<Option<string>>, hashtags: Option<Option<string>>,
    audio_transcript: Option<Option<string>>, status: Option<string>,
    created_at: Option<Timestamp>, updated_at: Option<Timestamp>)

  /** `createViralVideo`'s record: the input with a falsy status replaced by
      "pending" and falsy captions, hashtags and transcript stored as null. */
  function NewViralVideo(ins: InsertViralVideo, id: int, now: Timestamp): (v: ViralVideo)
    ensures v.id == id && v.created_at == now && v.updated_at == now
    ensures v.title == ins.title && v.platform == ins.platform && v.url == ins.url
    ensures v.views == ins.views && v.engagement_rate == ins.engagement_rate && v.ai_score == ins.ai_score
    ensures v.status != ""
    ensures v.status == "pending" <==> (Falsy(ins.status, "") || ins.status == Some("pending"))
    ensures !Falsy(ins.status, "") ==> Some(v.status) == ins.status
    ensures v.captions == None <==> Falsy(ins.captions, "")
    ensures v.hashtags == None <==> Falsy(ins.hashtags, "")
    ensures v.audio_transcript == None <==> Falsy(ins.audio_transcript, "")
    ensures v.captions != None ==> v.captions == ins.captions
    ensures v.hashtags != None ==> v.hashtags == ins.hashtags
    ensures v.audio_transcript != None ==> v.audio_transcript == ins.audio_transcript
  {
    ViralVideo(id, ins.title, ins.platform, ins.url, ins.views, ins.engagement_rate, ins.ai_score,
      OrNull(ins.captions, ""), OrNull(ins.hashtags, ""), OrNull(ins.audio_transcript, ""),
      OrDefault(ins.status, "", "pending"), now, now)
  }

  /** The input a stored viral video could have been created from. */
  function ViralVideoInput(v: ViralVideo): InsertViralVideo {
    InsertViralVideo(v.title, v.platform, v.url, v.views, v.engagement_rate, v.ai_score,
      v.captions, v.hashtags, v.audio_transcript, Some(v.status))
  }

  /** The input survives creation unchanged exactly when it names a status
      and none of its optional text fields is the empty string. */
  lemma ViralVideoInputKept(ins: InsertViralVideo, id: int, now: Timestamp)
    ensures ViralVideoInput(NewViralVideo(ins, id, now)) == ins
        <==> (ins.status.Some? && ins.status != Some("") && ins.captions != Some("")
              && ins.hashtags != Some("") && ins.audio_transcript != Some(""))
  {
  }

  /** `{ ...video, ...updates, updated_at: now }` */
  function MergeViralVideo(v: ViralVideo, p: ViralVideoPatch, now: Timestamp): (r: ViralVideo)
    ensures Applied(r.id, v.id, p.id) && Applied(r.title, v.title, p.title)
    ensures Applied(r.platform, v.platform, p.platform) && Applied(r.url, v.url, p.url)
    ensures Applied(r.views, v.views, p.views) && Applied(r.engagement_rate, v.engagement_rate, p.engagement_rate)
    ensures Applied(r.ai_score, v.ai_score, p.ai_score) && Applied(r.captions, v.captions, p.captions)
    ensures Applied(r.hashtags, v.hashtags, p.hashtags)
    ensures Applied(r.audio_transcript, v.audio_transcript, p.audio_transcript)
    ensures Applied(r.status, v.status, p.status) && Applied(r.created_at, v.created_at, p.created_at)
    ensures r.updated_at == now
  {
    ViralVideo(Over(v.id, p.id), Over(v.title, p.title), Over(v.platform, p.platform),
      Over(v.url, p.url), Over(v.views, p.views), Over(v.engagement_rate, p.engagement_rate),
      Over(v.ai_score, p.ai_score), Over(v.captions, p.captions), Over(v.hashtags, p.hashtags),
      Over(v.audio_transcript, p.audio_transcript), Over(v.status, p.status),
      Over(v.created_at, p.created_at), now)
  }

  /** Applying `p` and then `q`. */
  function ThenViralVideo(p: ViralVideoPatch, q: ViralVideoPatch): ViralVideoPatch {
    ViralVideoPatch(Then(p.id, q.id), Then(p.title, q.title), Then(p.platform, q.platform),
      Then(p.url, q.url), Then(p.views, q.views), Then(p.engagement_rate, q.engagement_rate),
      Then(p.ai_score, q.ai_score), Then(p.captions, q.captions), Then(p.hashtags, q.hashtags),
      Then(p.audio_transcript, q.audio_transcript), Then(p.status, q.status),
      Then(p.created_at, q.created_at), Then(p.updated_at, q.updated_at))
  }

  /** The patch the analyze route sends: a new score and status "processed". */
  function ScorePatch(score: int): ViralVideoPatch {
    ViralVideoPatch(None, None, None, None, None, None, Some(score), None, None, None,
      Some("processed"), None, None)
  }

  /** Two successive updates equal one update with the combined patch, and
      repeating an update changes nothing but the timestamp. */
  lemma ViralVideoMergeLaws(v: ViralVideo, p: ViralVideoPatch, q: ViralVideoPatch, t1: Timestamp, t2: Timestamp)
    ensures MergeViralVideo(MergeViralVideo(v, p, t1), q, t2) == MergeViralVideo(v, ThenViralVideo(p, q), t2)
    ensures MergeViralVideo(MergeViralVideo(v, p, t1), p, t2) == MergeViralVideo(v, p, t2)
  {
  }

  /** The analyze patch changes the score, the status and the update time and
      keeps every other field. */
  lemma ScorePatchEffect(v: ViralVideo, score: int, now: Timestamp)
    ensures MergeViralVideo(v, ScorePatch(score), now)
         == v.(ai_score := score, status := "processed", updated_at := now)
  {
  }

  // --------------------------------------------------- affiliate products

  datatype AffiliateProduct = AffiliateProduct(
    id: int, name: string, category: string, commission_rate: real,
    commission_amount: Option<real>, url: string, gravity: Option<int>,
    refund_rate: Option<real>, has_upsells: Option<bool>, is_recurring: Option<bool>,
    created_at: Timestamp)

  datatype InsertAffiliateProduct = InsertAffiliateProduct(
    name: string, category: string, commission_rate: real, commission_amount: Option<real>,
    url: string, gravity: Option<int>, refund_rate: Option<real>,
    has_upsells: Option<bool>, is_recurring: Option<bool>)

  /** `createAffiliateProduct`'s record: each optional field that is falsy,
      including a `false` flag and a zero amount, is stored as null. */
  function NewAffiliateProduct(ins: InsertAffiliateProduct, id: int, now: Timestamp): (p: AffiliateProduct)
    ensures p.id == id && p.created_at == now
    ensures p.name == ins.name && p.category == ins.category && p.url == ins.url
    ensures p.commission_rate == ins.commission_rate
    ensures p.commission_amount == None <==> Falsy(ins.commission_amount, 0.0)
    ensures p.gravity == None <==> Falsy(ins.gravity, 0)
    ensures p.refund_rate == None <==> Falsy(ins.refund_rate, 0.0)
    ensures p.has_upsells == None <==> ins.has_upsells != Some(true)
    ensures p.is_recurring == None <==> ins.is_recurring != Some(true)
    ensures p.has_upsells != Some(false) && p.is_recurring != Some(false)
    ensures p.commission_amount != None ==> p.commission_amount == ins.commission_amount
    ensures p.gravity != None ==> p.gravity == ins.gravity
    ensures p.refund_rate != None ==> p.refund_rate == ins.refund_rate
  {
    assert ins.has_upsells.Some? ==> ins.has_upsells.value || !ins.has_upsells.value;
    assert ins.is_recurring.Some? ==> ins.is_recurring.value || !ins.is_recurring.value;
    AffiliateProduct(id, ins.name, ins.category, ins.commission_rate,
      OrNull(ins.commission_amount, 0.0), ins.url, OrNull(ins.gravity, 0),
      OrNull(ins.refund_rate, 0.0), OrNull(ins.has_upsells, false),
      OrNull(ins.is_recurring, false), now)
  }

  function AffiliateProductInput(p: AffiliateProduct): InsertAffiliateProduct {
    InsertAffiliateProduct(p.name, p.category, p.commission_rate, p.commission_amount,
      p.url, p.gravity, p.refund_rate, p.has_upsells, p.is_recurring)
  }

  /** The input survives creation exactly when no optional field holds its
      type's zero: `false` flags and zero figures come back as null. */
  lemma AffiliateProductInputKept(ins: InsertAffiliateProduct, id: int, now: Timestamp)
    ensures AffiliateProductInput(NewAffiliateProduct(ins, id, now)) == ins
        <==> (ins.commission_amount != Some(0.0) && ins.gravity != Some(0)
              && ins.refund_rate != Some(0.0) && ins.has_upsells != Some(false)
              && ins.is_recurring != Some(false))
  {
  }

  // -------------------------------------------------------------- scripts

  datatype Script = Script(
    id: int, title: string, content: string, content_type: string,
    video_length: string, target_audience: string, template_type: string,
    ai_generated: Option<bool>, status: string, created_at: Timestamp,
    updated_at: Timestamp)

  datatype InsertScript = InsertScript(
    title: string, content: string, content_type: string, video_length: string,
    target_audience: string, template_type: string, ai_generated: Option<bool>,
    status: Option<string>)

  datatype ScriptPatch = ScriptPatch(
    id: Option<int>, title: Option<string>, content: Option<string>,
    content_type: Option<string>, video_length: Option<string>,
    target_audience: Option<string>, template_type: Option<string>,
    ai_generated: Option<Option<bool>>, status: Option<string>,
    created_at: Option<Timestamp>, updated_at: Option<Timestamp>)

  /** `createScript`'s record: a falsy status becomes "draft" and a falsy
      `ai_generated` (also an explicit `false`) is stored as null. */
  function NewScript(ins: InsertScript, id: int, now: Timestamp): (s: Script)
    ensures s.id == id && s.created_at == now && s.updated_at == now
    ensures s.title == ins.title && s.content == ins.content
    ensures s.content_type == ins.content_type && s.video_length == ins.video_length
    ensures s.target_audience == ins.target_audience && s.template_type == ins.template_type
    ensures s.status != ""
    ensures Falsy(ins.status, "") ==> s.status == "draft"
    ensures !Falsy(ins.status, "") ==> Some(s.status) == ins.status
    ensures s.ai_generated == (if ins.ai_generated == Some(true) then Some(true) else None)
  {
    assert ins.ai_generated.Some? ==> ins.ai_generated.value || !ins.ai_generated.value;
    Script(id, ins.title, ins.content, ins.content_type, ins.video_length,
      ins.target_audience, ins.template_type, OrNull(ins.ai_generated, false),
      OrDefault(ins.status, "", "draft"), now, now)
  }

  /** `{ ...script, ...updates, updated_at: now }` */
  function MergeScript(s: Script, p: ScriptPatch, now: Timestamp): (r: Script)
    ensures Applied(r.id, s.id, p.id) && Applied(r.title, s.title, p.title)
    ensures Applied(r.content, s.content, p.content) && Applied(r.content_type, s.content_type, p.content_type)
    ensures Applied(r.video_length, s.video_length, p.video_length)
    ensures Applied(r.target_audience, s.target_audience, p.target_audience)
    ensures Applied(r.template_type, s.template_type, p.template_type)
    ensures Applied(r.ai_generated, s.ai_generated, p.ai_generated) && Applied(r.status, s.status, p.status)
    ensures Applied(r.created_at, s.created_at, p.created_at)
    ensures r.updated_at == now
  {
    Script(Over(s.id, p.id), Over(s.title, p.title), Over(s.content, p.content),
      Over(s.content_type, p.content_type), Over(s.video_length, p.video_length),
      Over(s.target_audience, p.target_audience), Over(s.template_type, p.template_type),
      Over(s.ai_generated, p.ai_generated), Over(s.status, p.status),
      Over(s.created_at, p.created_at), now)
  }

  function ThenScript(p: ScriptPatch, q: ScriptPatch): ScriptPatch {
    ScriptPatch(Then(p.id, q.id), Then(p.title, q.title), Then(p.content, q.content),
      Then(p.content_type, q.content_type), Then(p.video_length, q.video_length),
      Then(p.target_audience, q.target_audience), Then(p.template_type, q.template_type),
      Then(p.ai_generated, q.ai_generated), Then(p.status, q.status),
      Then(p.created_at, q.created_at), Then(p.updated_at, q.updated_at))
  }

  /** The patch that sets only the status (`{ status: "approved" }`). */
  function ScriptStatusPatch(status: string): ScriptPatch {
    ScriptPatch(None, None, None, None, None, None, None, None, Some(status), None, None)
  }

  lemma ScriptMergeLaws(s: Script, p: ScriptPatch, q: ScriptPatch, t1: Timestamp, t2: Timestamp)
    ensures MergeScript(MergeScript(s, p, t1), q, t2) == MergeScript(s, ThenScript(p, q), t2)
    ensures MergeScript(MergeScript(s, p, t1), p, t2) == MergeScript(s, p, t2)
    ensures MergeScript(s, ScriptStatusPatch("approved"), t1) == s.(status := "approved", updated_at := t1)
  {
  }

  // --------------------------------------------------------------- videos

  datatype Video = Video(
    id: int, script_id: Option<int>, title: string, filename: Option<string>,
    duration: Option<int>, status: string, generated_at: Timestamp)

  datatype InsertVideo = InsertVideo(
    script_id: Option<int>, title: string, filename: Option<string>,
    duration: Option<int>, status: Option<string>)

  datatype VideoPatch = VideoPatch(
    id: Option<int>, script_id: Option<Option<int>>, title: Option<string>,
    filename: Option<Option<string>>, duration: Option<Option<int>>,
    status: Option<string>, generated_at: Option<Timestamp>)

  /** `createVideo`'s record: a falsy status becomes "generating"; a falsy
      script id (also 0), filename or duration (also 0) is stored as null. */
  function NewVideo(ins: InsertVideo, id: int, now: Timestamp): (v: Video)
    ensures v.id == id && v.generated_at == now && v.title == ins.title
    ensures v.status != ""
    ensures Falsy(ins.status, "") ==> v.status == "generating"
    ensures !Falsy(ins.status, "") ==> Some(v.status) == ins.status
    ensures v.script_id == None <==> Falsy(ins.script_id, 0)
    ensures v.filename == None <==> Falsy(ins.filename, "")
    ensures v.duration == None <==> Falsy(ins.duration, 0)
    ensures v.script_id != None ==> v.script_id == ins.script_id
    ensures v.filename != None ==> v.filename == ins.filename
    ensures v.duration != None ==> v.duration == ins.duration
  {
    Video(id, OrNull(ins.script_id, 0), ins.title, OrNull(ins.filename, ""),
      OrNull(ins.duration, 0), OrDefault(ins.status, "", "generating"), now)
  }

  /** `{ ...video, ...updates }`: no timestamp is refreshed. */
  function MergeVideo(v: Video, p: VideoPatch): (r: Video)
    ensures Applied(r.id, v.id, p.id) && Applied(r.script_id, v.script_id, p.script_id)
    ensures Applied(r.title, v.title, p.title) && Applied(r.filename, v.filename, p.filename)
    ensures Applied(r.duration, v.duration, p.duration) && Applied(r.status, v.status, p.status)
    ensures Applied(r.generated_at, v.generated_at, p.generated_at)
  {
    Video(Over(v.id, p.id), Over(v.script_id, p.script_id), Over(v.title, p.title),
      Over(v.filename, p.filename), Over(v.duration, p.duration), Over(v.status, p.status),
      Over(v.generated_at, p.generated_at))
  }

  function ThenVideo(p: VideoPatch, q: VideoPatch): VideoPatch {
    VideoPatch(Then(p.id, q.id), Then(p.script_id, q.script_id), Then(p.title, q.title),
      Then(p.filename, q.filename), Then(p.duration, q.duration), Then(p.status, q.status),
      Then(p.generated_at, q.generated_at))
  }

  /** With no timestamp added, an update is idempotent and an empty patch is
      the identity. */
  lemma VideoMergeLaws(v: Video, p: VideoPatch, q: VideoPatch)
    ensures MergeVideo(MergeVideo(v, p), q) == MergeVideo(v, ThenVideo(p, q))
    ensures MergeVideo(MergeVideo(v, p), p) == MergeVideo(v, p)
    ensures MergeVideo(v, VideoPatch(None, None, None, None, None, None, None)) == v
  {
  }

  // ------------------------------------------------------ scheduled posts

  datatype ScheduledPost = ScheduledPost(
    id: int, video_id: Option<int>, platform: string, scheduled_time: Timestamp,
    caption: Option<string>, hashtags: Option<string>, status: string,
    posted_at: Option<Timestamp>, created_at: Timestamp)

  datatype InsertScheduledPost = InsertScheduledPost(
    video_id: Option<int>, platform: string, scheduled_time: Timestamp,
    caption: Option<string>, hashtags: Option<string>, status: Option<string>,
    posted_at: Option<Timestamp>)

  datatype ScheduledPostPatch = ScheduledPostPatch(
    id: Option<int>, video_id: Option<Option<int>>, platform: Option<string>,
    scheduled_time: Option<Timestamp>, caption: Option<Option<string>>,
    hashtags: Option<Option<string>>, status: Option<string>,
    posted_at: Option<Option<Timestamp>>, created_at: Option<Timestamp>)

  /** `createScheduledPost`'s record: a falsy status becomes "scheduled"; a
      falsy video id (also 0), caption or hashtags is stored as null. A `Date`
      is an object and never falsy, so `posted_at` is kept as given. */
  function NewScheduledPost(ins: InsertScheduledPost, id: int, now: Timestamp): (p: ScheduledPost)
    ensures p.id == id && p.created_at == now
    ensures p.platform == ins.platform && p.scheduled_time == ins.scheduled_time
    ensures p.posted_at == ins.posted_at
    ensures p.status != ""
    ensures Falsy(ins.status, "") ==> p.status == "scheduled"
    ensures !Falsy(ins.status, "") ==> Some(p.status) == ins.status
    ensures p.video_id == None <==> Falsy(ins.video_id, 0)
    ensures p.caption == None <==> Falsy(ins.caption, "")
    ensures p.hashtags == None <==> Falsy(ins.hashtags, "")
    ensures p.video_id != None ==> p.video_id == ins.video_id
    ensures p.caption != None ==> p.caption == ins.caption
    ensures p.hashtags != None ==> p.hashtags == ins.hashtags
  {
    ScheduledPost(id, OrNull(ins.video_id, 0), ins.platform, ins.scheduled_time,
      OrNull(ins.caption, ""), OrNull(ins.hashtags, ""), OrDefault(ins.status, "", "scheduled"),
      ins.posted_at, now)
  }

  /** `{ ...post, ...updates }`: no timestamp is refreshed. */
  function MergeScheduledPost(p: ScheduledPost, u: ScheduledPostPatch): (r: ScheduledPost)
    ensures Applied(r.id, p.id, u.id) && Applied(r.video_id, p.video_id, u.video_id)
    ensures Applied(r.platform, p.platform, u.platform)
    ensures Applied(r.scheduled_time, p.scheduled_time, u.scheduled_time)
    ensures Applied(r.caption, p.caption, u.caption) && Applied(r.hashtags, p.hashtags, u.hashtags)
    ensures Applied(r.status, p.status, u.status) && Applied(r.posted_at, p.posted_at, u.posted_at)
    ensures Applied(r.created_at, p.created_at, u.created_at)
  {
    ScheduledPost(Over(p.id, u.id), Over(p.video_id, u.video_id), Over(p.platform, u.platform),
      Over(p.scheduled_time, u.scheduled_time), Over(p.caption, u.caption),
      Over(p.hashtags, u.hashtags), Over(p.status, u.status), Over(p.posted_at, u.posted_at),
      Over(p.created_at, u.created_at))
  }

  function ThenScheduledPost(p: ScheduledPostPatch, q: ScheduledPostPatch): ScheduledPostPatch {
    ScheduledPostPatch(Then(p.id, q.id), Then(p.video_id, q.video_id), Then(p.platform, q.platform),
      Then(p.scheduled_time, q.scheduled_time), Then(p.caption, q.caption),
      Then(p.hashtags, q.hashtags), Then(p.status, q.status), Then(p.posted_at, q.posted_at),
      Then(p.created_at, q.created_at))
  }

  /** The patch that sets only the status (`{ status: "cancelled" }`). */
  function PostStatusPatch(status: string): ScheduledPostPatch {
    ScheduledPostPatch(None, None, None, None, None, None, Some(status), None, None)
  }

  lemma ScheduledPostMergeLaws(p: ScheduledPost, u: ScheduledPostPatch, w: ScheduledPostPatch)
    ensures MergeScheduledPost(MergeScheduledPost(p, u), w) == MergeScheduledPost(p, ThenScheduledPost(u, w))
    ensures MergeScheduledPost(MergeScheduledPost(p, u), u) == MergeScheduledPost(p, u)
    ensures MergeScheduledPost(p, PostStatusPatch("cancelled")) == p.(status := "cancelled")
  {
  }

  // ------------------------------------------------------------ analytics

  datatype Analytics = Analytics(
    id: int, video_id: Option<int>, platform: string, views: Option<int>,
    engagement_rate: Option<real>, revenue: Option<real>,
    conversion_rate: Option<real>, date: Timestamp)

  datatype InsertAnalytics = InsertAnalytics(
    video_id: Option<int>, platform: string, views: Option<int>,
    engagement_rate: Option<real>, revenue: Option<real>, conversion_rate: Option<real>)

  /** `createAnalytics`'s record: every falsy figure, zero included, is
      stored as null. */
  function NewAnalytics(ins: InsertAnalytics, id: int, now: Timestamp): (a: Analytics)
    ensures a.id == id && a.date == now && a.platform == ins.platform
    ensures a.video_id == None <==> Falsy(ins.video_id, 0)
    ensures a.views == None <==> Falsy(ins.views, 0)
    ensures a.engagement_rate == None <==> Falsy(ins.engagement_rate, 0.0)
    ensures a.revenue == None <==> Falsy(ins.revenue, 0.0)
    ensures a.conversion_rate == None <==> Falsy(ins.conversion_rate, 0.0)
    ensures a.video_id != None ==> a.video_id == ins.video_id
    ensures a.views != None ==> a.views == ins.views
    ensures a.engagement_rate != None ==> a.engagement_rate == ins.engagement_rate
    ensures a.revenue != None ==> a.revenue == ins.revenue
    ensures a.conversion_rate != None ==> a.conversion_rate == ins.conversion_rate
  {
    Analytics(id, OrNull(ins.video_id, 0), ins.platform, OrNull(ins.views, 0),
      OrNull(ins.engagement_rate, 0.0), OrNull(ins.revenue, 0.0),
      OrNull(ins.conversion_rate, 0.0), now)
  }
}
