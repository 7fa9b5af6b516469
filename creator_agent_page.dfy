/** The video creator page: the generate request it sends, the approval of
    the newest script, and the video status badge. */
module CreatorAgentPage {
  import opened Wrappers
  import opened Text
  import opened Schema
  import opened Sorting
  import Storage
  import Routes
  import ScriptGenerator

  /** `getStatusColor`: ready, generating and posted have their own badge,
      and any other status shows as pending. */
  function StatusColor(status: string): (c: string)
    ensures c == "status-ready" <==> status == "ready"
    ensures c == "status-processing" <==> status == "generating"
    ensures c == "status-posted" <==> status == "posted"
    ensures c == "status-pending" <==> status !in {"ready", "generating", "posted"}
  {
    if status == "ready" then "status-ready"
    else if status == "generating" then "status-processing"
    else if status == "posted" then "status-posted"
    else "status-pending"
  }

  /** The body posted to `/api/scripts/generate`: each form field under its
      snake-case name, unchanged. */
  function GenerateBodyOf(p: ScriptGenerator.GenerateParams): (b: Routes.GenerateBody)
    ensures b.content_type == Some(p.contentType) && b.video_length == Some(p.videoLength)
    ensures b.target_audience == Some(p.targetAudience) && b.key_message == Some(p.keyMessage)
    ensures b.template_type == Some(p.templateType)
  {
    Routes.GenerateBody(Some(p.contentType), Some(p.videoLength), Some(p.targetAudience),
      Some(p.keyMessage), Some(p.templateType))
  }

  /** A form the generate button accepts, with its selections made, passes
      the server's required-field check; the initial selections are made. */
  lemma EnabledFormPassesServerCheck(isLoading: Option<bool>, p: ScriptGenerator.GenerateParams)
    requires ScriptGenerator.GenerateEnabled(isLoading, p.keyMessage)
    requires p.contentType != "" && p.videoLength != "" && p.targetAudience != "" && p.templateType != ""
    ensures Routes.RequiredFieldsPresent(GenerateBodyOf(p))
    ensures ScriptGenerator.InitialForm().contentType != ""
    ensures ScriptGenerator.InitialForm().videoLength != ""
    ensures ScriptGenerator.InitialForm().targetAudience != ""
    ensures ScriptGenerator.InitialForm().templateType != ""
  {
  }

  /** The PATCH request `handleApprove` sends. */
  datatype ApproveRequest = ApproveRequest(id: int, updates: ScriptPatch)

  /** `handleApprove`: approve the first script of the loaded list; nothing
      when the list is not loaded or empty (a row is an object, so it is
      never falsy). */
  function HandleApprove(scripts: Option<seq<Script>>): (r: Option<ApproveRequest>)
    ensures r.None? <==> scripts.None? || scripts.value == []
    ensures r.Some? ==> r.value.id == scripts.value[0].id
    ensures r.Some? ==> r.value.updates == ScriptStatusPatch("approved")
  {
    match scripts
    case Some(s) => if |s| > 0 then Some(ApproveRequest(s[0].id, ScriptStatusPatch("approved"))) else None
    case None => None
  }

  /** On the list as the store orders it, the approved script is one of
      the newest, and the patch marks it approved and changes nothing else
      but its update time. */
  lemma ApproveNewest(scripts: seq<Script>, t: Timestamp)
    requires SortedBy(scripts, Storage.ScriptAge)
    requires scripts != []
    ensures HandleApprove(Some(scripts)).Some?
    ensures forall j :: 0 <= j < |scripts| ==> scripts[j].created_at <= scripts[0].created_at
    ensures MergeScript(scripts[0], HandleApprove(Some(scripts)).value.updates, t)
         == scripts[0].(status := "approved", updated_at := t)
  {
    forall j | 0 <= j < |scripts|
      ensures scripts[j].created_at <= scripts[0].created_at
    {
      if j > 0 {
        assert Storage.ScriptAge(scripts[0]) <= Storage.ScriptAge(scripts[j]);
      }
    }
    var p := ScriptStatusPatch("approved");
    ScriptMergeLaws(scripts[0], p, p, t, t);
  }
}
