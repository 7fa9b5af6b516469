/** The scheduler page: the posts it asks the server to create and the
    cancellation it sends. Times are milliseconds since the epoch, and the
    current time is a parameter. */
module SchedulerAgentPage {
  import opened Wrappers
  import opened Schema
  import ScheduledPosts

  const HourMs: int := 60 * 60 * 1000

  /** The captions as the page's source text holds them: each ends in an
      emoji that was stored re-encoded, so it appears as the code points
      its UTF-8 bytes have in Windows-1252. */
  function AddPostCaption(): string {
    "Transform your life with these side hustle tips! " + "\U{F0}\U{178}\U{2019}\U{B0}"
  }

  function MorningCaption(): string {
    "Morning motivation: Start your side hustle today! " + "\U{F0}\U{178}\U{152}\U{2026}"
  }

  function LunchCaption(): string {
    "Lunch break tip: How to make money while you eat! "
      + "\U{F0}\U{178}\U{BD}\U{EF}\U{B8}\U{F0}\U{178}\U{2019}\U{B0}"
  }

  /** `handleAddPost`: one post of video 1 on TikTok, 24 hours from now. */
  function HandleAddPost(now: Timestamp): (r: InsertScheduledPost)
    ensures r.scheduled_time == now + 24 * HourMs
    ensures r.video_id == Some(1) && r.platform == "TikTok"
    ensures r.caption == Some(AddPostCaption())
    ensures r.hashtags == Some("#sidehustle #passiveincome #entrepreneurship")
    ensures r.status == Some("scheduled") && r.posted_at == None
  {
    InsertScheduledPost(Some(1), "TikTok", now + 24 * 60 * 60 * 1000, Some(AddPostCaption()),
      Some("#sidehustle #passiveincome #entrepreneurship"), Some("scheduled"), None)
  }

  /** `handleBulkSchedule`: two posts, sent in this order, video 1 on TikTok
      in 6 hours and video 2 on Instagram in 12. */
  function HandleBulkSchedule(now: Timestamp): (r: seq<InsertScheduledPost>)
    ensures |r| == 2
    ensures r[0].scheduled_time == now + 6 * HourMs && r[1].scheduled_time == now + 12 * HourMs
    ensures r[0].video_id == Some(1) && r[0].platform == "TikTok"
    ensures r[1].video_id == Some(2) && r[1].platform == "Instagram"
    ensures r[0].caption == Some(MorningCaption()) && r[1].caption == Some(LunchCaption())
    ensures r[0].hashtags == Some("#morningmotivation #sidehustle #success")
    ensures r[1].hashtags == Some("#lunchbreak #passiveincome #affiliatemarketing")
    ensures forall i :: 0 <= i < |r| ==> r[i].status == Some("scheduled") && r[i].posted_at == None
  {
    [ InsertScheduledPost(Some(1), "TikTok", now + 6 * 60 * 60 * 1000, Some(MorningCaption()),
        Some("#morningmotivation #sidehustle #success"), Some("scheduled"), None),
      InsertScheduledPost(Some(2), "Instagram", now + 12 * 60 * 60 * 1000, Some(LunchCaption()),
        Some("#lunchbreak #passiveincome #affiliatemarketing"), Some("scheduled"), None) ]
  }

  /** Every post the page creates. */
  function PagePosts(now: Timestamp): seq<InsertScheduledPost> {
    [HandleAddPost(now)] + HandleBulkSchedule(now)
  }

  /** What the store makes of each body the page sends, once the server
      has accepted it: a post that is scheduled, in the future, for the video
      it names, with its caption; the bulk posts are in time order. Whether
      the server's schema check accepts the body is not part of this. */
  lemma PagePostsStoredScheduled(now: Timestamp, id: int, created: Timestamp)
    ensures forall i :: 0 <= i < |PagePosts(now)| ==>
      var p := NewScheduledPost(PagePosts(now)[i], id, created);
      && p.status == "scheduled"
      && p.scheduled_time > now
      && p.video_id == PagePosts(now)[i].video_id
      && p.caption == PagePosts(now)[i].caption
    ensures HandleBulkSchedule(now)[0].scheduled_time < HandleBulkSchedule(now)[1].scheduled_time
  {
    var ps := PagePosts(now);
    forall i | 0 <= i < |ps|
      ensures var p := NewScheduledPost(ps[i], id, created);
        && p.status == "scheduled" && p.scheduled_time > now
        && p.video_id == ps[i].video_id && p.caption == ps[i].caption
    {
      assert ps[i].status == Some("scheduled");
      assert ps[i].scheduled_time >= now + 6 * HourMs;
      assert ps[i].video_id.Some? && ps[i].video_id.value > 0;
      assert ps[i].caption.Some? && ps[i].caption.value != "";
    }
  }

  /** The PATCH request `handleDeletePost` sends. */
  datatype CancelRequest = CancelRequest(id: int, updates: ScheduledPostPatch)

  /** `handleDeletePost`: a soft delete that only sets the status. */
  function HandleDeletePost(post: ScheduledPost): (r: CancelRequest)
    ensures r.id == post.id && r.updates == PostStatusPatch("cancelled")
  {
    CancelRequest(post.id, PostStatusPatch("cancelled"))
  }

  /** A cancelled post keeps every field but its status; it is then shown
      as pending and offers no action beyond viewing. */
  lemma CancelledPostIsInert(post: ScheduledPost)
    ensures MergeScheduledPost(post, HandleDeletePost(post).updates) == post.(status := "cancelled")
    ensures ScheduledPosts.StatusColor("cancelled") == "status-pending"
    ensures ScheduledPosts.PostActions("cancelled") == ScheduledPosts.Actions(true, false, false, false)
  {
    ScheduledPostMergeLaws(post, PostStatusPatch("cancelled"), PostStatusPatch("cancelled"));
  }
}
