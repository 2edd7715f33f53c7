/** The `kyc-progress` API route: `GET` reads (or creates) the caller's progress row and
    reports the completed steps and a percentage; `POST` validates the step, builds the
    update object and inserts or updates the caller's row. */
module KycProgressApi {
  import opened Js
  import opened KycStore
  import opened ApiAuth

  /** The route's replies; `HttpStatus` gives the status code of each. */
  datatype ProgressReply =
    | Unauthorized
    | BadRequest(error: string)
    | ServerError(error: string, details: string)
    | Report(progress: Row, stepProgress: seq<nat>, progressPercentage: int, totalSteps: nat, completedSteps: nat)
    | Saved(progress: Row)

  function HttpStatus(r: ProgressReply): nat {
    match r
    case Unauthorized => 401
    case BadRequest(_) => 400
    case ServerError(_, _) => 500
    case Report(_, _, _, _, _) => 200
    case Saved(_) => 200
  }

  /** The denominator `GET` uses: four, although five flags are counted. */
  const TotalSteps: nat := 4

  /** The row `GET` creates for a user without one: step `personal`, every flag false. */
  function DefaultProgress(user: UserId, now: string): (row: Row)
    ensures "current_step" in row && row["current_step"] == Str(ValidSteps[0])
    ensures "user_id" in row && row["user_id"] == Str(user)
    ensures forall i :: 0 <= i < |StepFlags| ==> StepFlags[i] in row && row[StepFlags[i]] == Bool(false)
  {
    map["user_id" := Str(user), "current_step" := Str("personal"),
        "personal_info_completed" := Bool(false), "bvn_verified" := Bool(false),
        "documents_verified" := Bool(false), "address_completed" := Bool(false),
        "overall_completed" := Bool(false), "created_at" := Str(now), "updated_at" := Str(now)]
  }

  /** `stepProgress`: 1 or 0 for each of the five flags, in step order. */
  function StepProgress(row: Row): (s: seq<nat>)
    ensures |s| == |StepFlags|
    ensures forall i :: 0 <= i < |s| ==> s[i] == if FlagSet(row, StepFlags[i]) then 1 else 0
  {
    seq(|StepFlags|, i requires 0 <= i < |StepFlags| => if FlagSet(row, StepFlags[i]) then 1 else 0)
  }

  /** The success body of `GET` for a progress row. */
  function ReportOf(row: Row): (r: ProgressReply)
    ensures r.Report? && r.progress == row && r.totalSteps == TotalSteps
    ensures r.completedSteps == CompletedSteps(row) <= 5
    ensures r.progressPercentage == 25 * r.completedSteps
  {
    PercentOutOfFour(CompletedSteps(row));
    Report(row, StepProgress(row), RoundedPercent(CompletedSteps(row), TotalSteps), TotalSteps, CompletedSteps(row))
  }

  /** `GET`: the caller's row with its step counts; a missing row is created from the
      default first. `fetchFailure` and `createFailure` are the store's errors, if any. */
  function GetProgress(rows: Rows, header: Option<string>, getUser: string -> Option<string>,
                       fetchFailure: Option<Failure>, createFailure: Option<Failure>, now: string): (res: (Rows, ProgressReply))
    ensures res.1.Unauthorized? <==> VerifyAuth(header, getUser).None?
    ensures !res.1.Report? ==> res.0 == rows
    ensures VerifyAuth(header, getUser).Some? ==>
      var user := VerifyAuth(header, getUser).value;
      && (fetchFailure.Some? ==> res.1 == ServerError("Failed to fetch KYC progress", fetchFailure.value.message))
      && (fetchFailure.None? && user in rows ==> res == (rows, ReportOf(rows[user])))
      && (fetchFailure.None? && user !in rows && createFailure.Some? ==>
            res.1 == ServerError("Failed to create default KYC progress", createFailure.value.message))
      && (fetchFailure.None? && user !in rows && createFailure.None? ==>
            res == (rows[user := DefaultProgress(user, now)], ReportOf(DefaultProgress(user, now))))
  {
    match VerifyAuth(header, getUser)
    case None => (rows, Unauthorized)
    case Some(user) =>
      match LookupRow(rows, user, fetchFailure)
      case LookupFailed(f) => (rows, ServerError("Failed to fetch KYC progress", f.message))
      case Found(row) => (rows, ReportOf(row))
      case NotFound =>
        if createFailure.Some? then (rows, ServerError("Failed to create default KYC progress", createFailure.value.message))
        else (rows[user := DefaultProgress(user, now)], ReportOf(DefaultProgress(user, now)))
  }

  /** A freshly created row reports no step done and zero percent. */
  lemma DefaultReportsZero(user: UserId, now: string)
    ensures ReportOf(DefaultProgress(user, now)).completedSteps == 0
    ensures ReportOf(DefaultProgress(user, now)).progressPercentage == 0
  {
    var row := DefaultProgress(user, now);
    assert forall i :: 0 <= i < |StepFlags| ==> !FlagSet(row, StepFlags[i]);
  }

  /** With all five flags set, `GET` reports 125 percent. */
  lemma AllFlagsReport125(row: Row)
    requires forall i :: 0 <= i < |StepFlags| ==> FlagSet(row, StepFlags[i])
    ensures ReportOf(row).progressPercentage == 125
  {
  }

  /** The other reading of the count: the comment beside `totalSteps` names four steps
      and leaves `review` out, so only the four flags before `overall_completed` count.
      Out of four, each is worth 25 and the report never passes 100. */
  function FourStepPercent(row: Row): (p: int)
    ensures p == 25 * CountSet(row, StepFlags[..TotalSteps])
    ensures 0 <= p <= 100
    ensures p == 100 <==> forall i :: 0 <= i < TotalSteps ==> FlagSet(row, StepFlags[i])
  {
    var completed := CountSet(row, StepFlags[..TotalSteps]);
    PercentOutOfFour(completed);
    RoundedPercent(completed, TotalSteps)
  }

  /** With all five flags set, the four-step reading reports exactly 100. */
  lemma AllFlagsFourStepReport100(row: Row)
    requires forall i :: 0 <= i < |StepFlags| ==> FlagSet(row, StepFlags[i])
    ensures FourStepPercent(row) == 100
  {
  }

  // ---- POST ----

  /** The six columns the update object may set, in the order the route tests them,
      and the body key each is read from. */
  const Columns: seq<string> :=
    ["current_step", "personal_info_completed", "bvn_verified", "documents_verified", "address_completed", "overall_completed"]
  const BodyKeys: seq<string> :=
    ["currentStep", "personalInfoCompleted", "bvnVerified", "documentsVerified", "addressCompleted", "overallCompleted"]

  /** The three columns the route sets itself. */
  const SystemColumns: set<string> := {"user_id", "created_at", "updated_at"}

  lemma ColumnsDistinct()
    ensures forall i, j :: 0 <= i < j < |Columns| ==> Columns[i] != Columns[j]
    ensures forall i :: 0 <= i < |Columns| ==> Columns[i] !in SystemColumns
  {
  }

  /** The step check: a truthy `currentStep` must be one of the five step names. A falsy
      one (`""`, `false`, `0`, `null`) or an absent one passes. */
  predicate StepAccepted(fields: Row) {
    "currentStep" in fields && TruthyValue(fields["currentStep"]) ==>
      fields["currentStep"].Str? && fields["currentStep"].s in ValidSteps
  }

  /** The columns among the first `n` whose body key is present. */
  function ProvidedAmong(fields: Row, n: nat): set<string>
    requires n <= |Columns|
  {
    set i | 0 <= i < n && BodyKeys[i] in fields :: Columns[i]
  }

  /** The columns of the update object taken from the body. */
  function ProvidedColumns(fields: Row): set<string> {
    ProvidedAmong(fields, |Columns|)
  }

  /** The update object after the first `n` conditional assignments: each present field
      under its column name, and nothing else. */
  function ProvidedFields(fields: Row, n: nat): (r: Row)
    requires n <= |Columns|
    ensures r.Keys == ProvidedAmong(fields, n)
    ensures forall i :: 0 <= i < n && BodyKeys[i] in fields ==> r[Columns[i]] == fields[BodyKeys[i]]
  {
    if n == 0 then map[]
    else
      var prev := ProvidedFields(fields, n - 1);
      ColumnsDistinct();
      if BodyKeys[n - 1] in fields then
        assert ProvidedAmong(fields, n) == ProvidedAmong(fields, n - 1) + {Columns[n - 1]};
        prev[Columns[n - 1] := fields[BodyKeys[n - 1]]]
      else
        assert ProvidedAmong(fields, n) == ProvidedAmong(fields, n - 1);
        prev
  }

  /** The update object: every provided field under its column name, then `user_id`
      and both timestamps. */
  function UpdateObject(fields: Row, user: UserId, now: string): (obj: Row)
    ensures obj.Keys == ProvidedColumns(fields) + SystemColumns
    ensures forall i :: 0 <= i < |Columns| && BodyKeys[i] in fields ==> obj[Columns[i]] == fields[BodyKeys[i]]
    ensures obj["user_id"] == Str(user) && obj["created_at"] == Str(now) && obj["updated_at"] == Str(now)
  {
    ColumnsDistinct();
    ProvidedFields(fields, |Columns|)["user_id" := Str(user)]["created_at" := Str(now)]["updated_at" := Str(now)]
  }

  /** Keys of the body outside the six the route reads change nothing. */
  lemma UpdateObjectIgnoresOtherKeys(fields: Row, extra: string, v: Value, user: UserId, now: string)
    requires extra !in BodyKeys
    ensures UpdateObject(fields[extra := v], user, now) == UpdateObject(fields, user, now)
  {
    ProvidedFieldsIgnoresOtherKeys(fields, extra, v, |Columns|);
  }

  /** The same after any number of the conditional assignments. */
  lemma {:induction false} ProvidedFieldsIgnoresOtherKeys(fields: Row, extra: string, v: Value, n: nat)
    requires extra !in BodyKeys && n <= |Columns|
    ensures ProvidedFields(fields[extra := v], n) == ProvidedFields(fields, n)
  {
    if n > 0 {
      ProvidedFieldsIgnoresOtherKeys(fields, extra, v, n - 1);
      assert BodyKeys[n - 1] != extra;
      assert (BodyKeys[n - 1] in fields[extra := v]) == (BodyKeys[n - 1] in fields);
    }
  }

  /** The route's answer to the upsert's outcome. */
  function SaveReply(out: UpsertOutcome): (r: ProgressReply)
    ensures out.Succeeded() <==> r.Saved?
    ensures out.Succeeded() ==> r.progress == out.row
  {
    match out
    case Inserted(row) => Saved(row)
    case Updated(row) => Saved(row)
    case CheckFailed(f) => ServerError("Failed to check existing KYC progress", f.message)
    case InsertFailed(f) => ServerError("Failed to create KYC progress", f.message)
    case UpdateFailed(f) => ServerError("Failed to update KYC progress", f.message)
  }

  /** `POST`: authenticate, parse, validate the step, then insert or update the caller's
      row with the update object. */
  function PostProgress(rows: Rows, header: Option<string>, getUser: string -> Option<string>, body: Body,
                        now: string, checkFailure: Option<Failure>, writeFailure: Option<Failure>): (res: (Rows, ProgressReply))
    ensures res.1.Unauthorized? <==> VerifyAuth(header, getUser).None?
    ensures res.1.BadRequest? <==> VerifyAuth(header, getUser).Some? && body.Parsed? && !StepAccepted(body.fields)
    ensures res.1.BadRequest? ==> res.1.error == "Invalid current step"
    ensures !res.1.Saved? ==> res.0 == rows
    ensures res.1.Saved? ==> body.Parsed? && StepAccepted(body.fields)
    ensures res.1.Saved? && body.Parsed? ==>
      var user := VerifyAuth(header, getUser).value;
      var obj := UpdateObject(body.fields, user, now);
      && res.0.Keys == rows.Keys + {user} && res.0[user] == res.1.progress
      && obj.Keys <= res.1.progress.Keys
      && (forall k :: k in obj ==> res.1.progress[k] == obj[k])
      && (forall u :: u in rows && u != user ==> res.0[u] == rows[u])
    ensures VerifyAuth(header, getUser).Some? && body.Parsed? && StepAccepted(body.fields) ==>
      var user := VerifyAuth(header, getUser).value;
      var obj := UpdateObject(body.fields, user, now);
      res == (UpsertRows(rows, user, obj, obj, checkFailure, writeFailure).0,
              SaveReply(UpsertRows(rows, user, obj, obj, checkFailure, writeFailure).1))
  {
    match VerifyAuth(header, getUser)
    case None => (rows, Unauthorized)
    case Some(user) =>
      match body
      case Unparsable(f) =>
        (rows, ServerError("Internal server error while saving KYC progress", ErrorText(f, "Unknown error occurred")))
      case Parsed(fields) =>
        if !StepAccepted(fields) then (rows, BadRequest("Invalid current step"))
        else
          var obj := UpdateObject(fields, user, now);
          var (rows', out) := UpsertRows(rows, user, obj, obj, checkFailure, writeFailure);
          (rows', SaveReply(out))
  }

  /** A falsy but present `currentStep`, such as `""`, passes the presence guard and is written. */
  lemma FalsyStepIsWritten(rows: Rows, header: Option<string>, getUser: string -> Option<string>,
                           fields: Row, now: string)
    requires VerifyAuth(header, getUser).Some?
    requires "currentStep" in fields && fields["currentStep"] == Str("")
    ensures PostProgress(rows, header, getUser, Parsed(fields), now, None, None).1.Saved?
    ensures var saved := PostProgress(rows, header, getUser, Parsed(fields), now, None, None).1.progress;
            "current_step" in saved && saved["current_step"] == Str("")
  {
    assert BodyKeys[0] in fields;
  }

  /** Every save of an existing row rewrites `created_at` with the time of the save. */
  lemma UpdateRewritesCreatedAt(rows: Rows, header: Option<string>, getUser: string -> Option<string>,
                                fields: Row, now: string)
    requires VerifyAuth(header, getUser).Some? && VerifyAuth(header, getUser).value in rows
    requires StepAccepted(fields)
    ensures var res := PostProgress(rows, header, getUser, Parsed(fields), now, None, None);
            res.1.Saved? && res.1.progress["created_at"] == Str(now)
  {
  }

  /** The route over a table store; it issues the reads and writes one by one. */
  method Get(table: Table, header: Option<string>, getUser: string -> Option<string>,
             fetchFailure: Option<Failure>, createFailure: Option<Failure>, now: string) returns (reply: ProgressReply)
    modifies table
    ensures (table.rows, reply) == GetProgress(old(table.rows), header, getUser, fetchFailure, createFailure, now)
  {
    var user := VerifyAuth(header, getUser);
    if user.None? {
      return Unauthorized;
    }
    var found := table.Lookup(user.value, fetchFailure);
    match found {
      case LookupFailed(f) =>
        reply := ServerError("Failed to fetch KYC progress", f.message);
      case Found(row) =>
        reply := ReportOf(row);
      case NotFound =>
        var written := table.Insert(user.value, DefaultProgress(user.value, now), createFailure);
        if written.None? {
          reply := ServerError("Failed to create default KYC progress", createFailure.value.message);
        } else {
          reply := ReportOf(written.value);
        }
    }
  }

  method Post(table: Table, header: Option<string>, getUser: string -> Option<string>, body: Body,
              now: string, checkFailure: Option<Failure>, writeFailure: Option<Failure>) returns (reply: ProgressReply)
    modifies table
    ensures (table.rows, reply) == PostProgress(old(table.rows), header, getUser, body, now, checkFailure, writeFailure)
  {
    var user := VerifyAuth(header, getUser);
    if user.None? {
      return Unauthorized;
    }
    if body.Unparsable? {
      return ServerError("Internal server error while saving KYC progress", ErrorText(body.failure, "Unknown error occurred"));
    }
    if !StepAccepted(body.fields) {
      return BadRequest("Invalid current step");
    }
    var obj := UpdateObject(body.fields, user.value, now);
    var out := table.Upsert(user.value, obj, obj, checkFailure, writeFailure);
    reply := SaveReply(out);
  }
}
