/** The list of scheduled posts: the status badge, the heading cut from the
    caption, which actions a post offers, and the empty state. */
module ScheduledPosts {
  import opened Wrappers
  import opened Schema

  /** `getStatusColor`: posted, scheduled and failed have their own badge;
      any other status, "cancelled" among them, shows as pending. */
  function StatusColor(status: string): (c: string)
    ensures c == "status-posted" <==> status == "posted"
    ensures c == "status-scheduled" <==> status == "scheduled"
    ensures c == "status-failed" <==> status == "failed"
    ensures c == "status-pending" <==> status !in {"posted", "scheduled", "failed"}
  {
    if status == "posted" then "status-posted"
    else if status == "scheduled" then "status-scheduled"
    else if status == "failed" then "status-failed"
    else "status-pending"
  }

  /** A post's heading: a text and whether "..." follows it. */
  datatype Heading = Heading(text: string, ellipsis: bool)

  /** The first 50 characters of the caption, or "Untitled Post" when the
      caption is null or empty; "..." follows exactly when the caption is
      longer than 50. */
  function PostHeading(caption: Option<string>): (h: Heading)
    ensures caption == None || caption == Some("") ==> h == Heading("Untitled Post", false)
    ensures caption.Some? && caption.value != "" ==>
      && |h.text| == (if |caption.value| <= 50 then |caption.value| else 50)
      && h.text == caption.value[..|h.text|]
    ensures h.ellipsis <==> caption.Some? && |caption.value| > 50
  {
    match caption
    case None => Heading("Untitled Post", false)
    case Some(c) =>
      var cut := if |c| <= 50 then c else c[..50];
      Heading(if cut == "" then "Untitled Post" else cut, c != "" && |c| > 50)
  }

  /** A caption of at most 50 characters is shown in full, with nothing
      after it. */
  lemma ShortCaptionInFull(c: string)
    requires 0 < |c| <= 50
    ensures PostHeading(Some(c)) == Heading(c, false)
  {
    assert c[..|c|] == c;
  }

  /** The actions on a post besides viewing. */
  datatype Actions = Actions(view: bool, analyze: bool, edit: bool, delete: bool)

  /** Every post can be viewed; only a posted one analysed; only a
      scheduled one edited or deleted. */
  function PostActions(status: string): (a: Actions)
    ensures a.view
    ensures a.analyze <==> status == "posted"
    ensures a.edit <==> status == "scheduled"
    ensures a.delete <==> status == "scheduled"
  {
    Actions(true, status == "posted", status == "scheduled", status == "scheduled")
  }

  /** No post offers both analysis and editing. */
  lemma AnalyzeExcludesEdit(status: string)
    ensures !(PostActions(status).analyze && PostActions(status).edit)
  {
  }

  datatype Row = Row(heading: Heading, platform: string, statusColor: string, status: string, actions: Actions)

  datatype ListView = EmptyState | List(rows: seq<Row>)

  function RowOf(p: ScheduledPost): Row {
    Row(PostHeading(p.caption), p.platform, StatusColor(p.status), p.status, PostActions(p.status))
  }

  /** The component: the empty state for no posts, else one row per post in
      the order given. */
  function Render(posts: seq<ScheduledPost>): (v: ListView)
    ensures v.EmptyState? <==> posts == []
    ensures v.List? ==> |v.rows| == |posts|
    ensures v.List? ==> forall i :: 0 <= i < |posts| ==> v.rows[i] == RowOf(posts[i])
  {
    if |posts| == 0 then EmptyState
    else List(seq(|posts|, i requires 0 <= i < |posts| => RowOf(posts[i])))
  }
}
