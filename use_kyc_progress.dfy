/** The hook holding the caller's KYC progress: it loads it through the
    `get_or_create_kyc_progress` procedure, updates it, and derives two percentages. */
module UseKycProgress {
  import opened Js
  import opened KycStore
  import KycProgressApi

  const LoadFailedMessage: string := "Failed to load progress"
  const UpdateFailedMessage: string := "Failed to update progress"

  /** The hook's percentage is out of five steps. */
  const HookTotalSteps: nat := 5

  /** The answer of the `get_or_create_kyc_progress` call: `data` (possibly `null`), or
      an error. The procedure's body is not part of this model. */
  datatype RpcReply = RpcData(data: Option<Row>) | RpcError(failure: Failure)

  /** The answer of `.update(updates).eq('user_id', user).select().single()`: the row
      handed back, or the error. */
  datatype WriteReply = Written(row: Row) | WriteError(failure: Failure)

  /** The hook's state: `progress`, `loading` and `error`. */
  datatype ProgressView = ProgressView(progress: Row, loading: bool, error: Option<string>)

  /** The progress before anything is loaded: step `personal`, every flag false. */
  function InitialProgress(): (row: Row)
    ensures "current_step" in row && row["current_step"] == Str(ValidSteps[0])
    ensures forall i :: 0 <= i < |StepFlags| ==> StepFlags[i] in row && row[StepFlags[i]] == Bool(false)
    ensures CompletedSteps(row) == 0
  {
    var row := map["current_step" := Str("personal"),
        "personal_info_completed" := Bool(false), "bvn_verified" := Bool(false),
        "documents_verified" := Bool(false), "address_completed" := Bool(false),
        "overall_completed" := Bool(false)];
    assert forall i :: 0 <= i < |StepFlags| ==> !FlagSet(row, StepFlags[i]);
    row
  }

  /** `loadProgress`: nothing without a session user; otherwise the returned row when
      there is one, the progress kept when `data` is `null`, or the error recorded. */
  function LoadResult(v: ProgressView, sessionUser: Option<string>, reply: RpcReply): (w: ProgressView)
    ensures !Truthy(sessionUser) ==> w == v
    ensures Truthy(sessionUser) ==> !w.loading
    ensures Truthy(sessionUser) && reply == RpcData(None) ==> w.progress == v.progress && w.error == None
    ensures Truthy(sessionUser) && reply.RpcData? && reply.data.Some? ==> w.progress == reply.data.value && w.error == None
    ensures Truthy(sessionUser) && reply.RpcError? ==>
      w.progress == v.progress && w.error == Some(ErrorText(reply.failure, LoadFailedMessage))
  {
    if !Truthy(sessionUser) then v
    else
      match reply
      case RpcError(f) => v.(loading := false, error := Some(ErrorText(f, LoadFailedMessage)))
      case RpcData(None) => v.(loading := false, error := None)
      case RpcData(Some(row)) => v.(progress := row, loading := false, error := None)
  }

  /** `updateProgress`: false without a session user and no request; otherwise true with
      the returned row as the progress, or false with the error and the progress kept. */
  function UpdateResult(v: ProgressView, sessionUser: Option<string>, reply: WriteReply): (res: (ProgressView, bool))
    ensures !Truthy(sessionUser) ==> res == (v, false)
    ensures Truthy(sessionUser) ==> !res.0.loading && (res.1 <==> reply.Written?)
    ensures Truthy(sessionUser) && reply.Written? ==> res.0.progress == reply.row && res.0.error == None
    ensures Truthy(sessionUser) && reply.WriteError? ==>
      res.0.progress == v.progress && res.0.error == Some(ErrorText(reply.failure, UpdateFailedMessage))
  {
    if !Truthy(sessionUser) then (v, false)
    else
      match reply
      case WriteError(f) => (v.(loading := false, error := Some(ErrorText(f, UpdateFailedMessage))), false)
      case Written(row) => (v.(progress := row, loading := false, error := None), true)
  }

  /** `getStepProgress`: 20, 40, 60, 80 or 100 for the five steps in order, 0 for
      anything else, including a missing step. */
  function StepPercent(row: Row): (p: nat)
    ensures p <= 100
    ensures p != 0 <==> "current_step" in row && row["current_step"].Str? && row["current_step"].s in ValidSteps
    ensures forall i :: 0 <= i < |ValidSteps| && "current_step" in row && row["current_step"] == Str(ValidSteps[i]) ==>
              p == 20 * (i + 1)
  {
    if "current_step" !in row || !row["current_step"].Str? then 0
    else
      match row["current_step"].s
      case "personal" => 20
      case "bvn_verification" => 40
      case "id_face_match" => 60
      case "address_details" => 80
      case "review" => 100
      case _ => 0
  }

  /** The route reports 25 per completed step, the hook 20: the two disagree as soon as
      one step is done. */
  lemma PercentagesDisagree(row: Row)
    requires CompletedSteps(row) > 0
    ensures KycProgressApi.ReportOf(row).progressPercentage == 25 * CompletedSteps(row)
    ensures RoundedPercent(CompletedSteps(row), HookTotalSteps) == 20 * CompletedSteps(row)
    ensures KycProgressApi.ReportOf(row).progressPercentage != RoundedPercent(CompletedSteps(row), HookTotalSteps)
  {
    PercentOutOfFive(CompletedSteps(row));
  }

  class KycProgressHook {
    var progress: Row
    var loading: bool
    var error: Option<string>

    constructor ()
      ensures View() == ProgressView(InitialProgress(), false, None)
    {
      progress, loading, error := InitialProgress(), false, None;
    }

    function View(): ProgressView
      reads this
    {
      ProgressView(progress, loading, error)
    }

    method LoadProgress(sessionUser: Option<string>, reply: RpcReply)
      modifies this
      ensures View() == LoadResult(old(View()), sessionUser, reply)
    {
      if !Truthy(sessionUser) {
        return;
      }
      loading, error := true, None;
      match reply {
        case RpcError(f) => error := Some(ErrorText(f, LoadFailedMessage));
        case RpcData(data) =>
          if data.Some? {
            progress := data.value;
          }
      }
      loading := false;
    }

    method UpdateProgress(sessionUser: Option<string>, reply: WriteReply) returns (ok: bool)
      modifies this
      ensures (View(), ok) == UpdateResult(old(View()), sessionUser, reply)
    {
      if !Truthy(sessionUser) {
        return false;
      }
      loading, error := true, None;
      match reply {
        case WriteError(f) =>
          error := Some(ErrorText(f, UpdateFailedMessage));
          ok := false;
        case Written(row) =>
          progress := row;
          ok := true;
      }
      loading := false;
    }

    /** `getProgressPercentage`: counts the set flags one by one, then rounds the share
      of five to a percentage. */
    method ProgressPercentage() returns (p: int)
      ensures p == 20 * CompletedSteps(progress)
      ensures 0 <= p <= 100
    {
      var completed: nat := 0;
      if FlagSet(progress, "personal_info_completed") { completed := completed + 1; }
      if FlagSet(progress, "bvn_verified") { completed := completed + 1; }
      if FlagSet(progress, "documents_verified") { completed := completed + 1; }
      if FlagSet(progress, "address_completed") { completed := completed + 1; }
      if FlagSet(progress, "overall_completed") { completed := completed + 1; }
      CompletedStepsUnfold(progress);
      PercentOutOfFive(completed);
      p := RoundedPercent(completed, HookTotalSteps);
    }

    /** `getStepProgress` on the current progress. */
    function StepProgress(): nat
      reads this
    {
      StepPercent(progress)
    }
  }
}
