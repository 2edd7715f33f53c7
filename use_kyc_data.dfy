/** The hook holding the caller's KYC form data: it loads the caller's `kyc_data` row
    and saves updates by inserting or updating that row. */
module UseKycData {
  import opened Js
  import opened KycStore

  const LoadFailedMessage: string := "Failed to load form data"
  const SaveFailedMessage: string := "Failed to save form data"

  /** The hook's state: `formData`, `loading` and `error`. */
  datatype DataView = DataView(formData: Row, loading: bool, error: Option<string>)

  const InitialView: DataView := DataView(map[], false, None)

  /** `loadFormData`: nothing without a session user; otherwise the caller's row, `{}`
      when there is none, or an error that leaves `formData` as it was. */
  function LoadResult(v: DataView, rows: Rows, sessionUser: Option<string>, fetchFailure: Option<Failure>): (w: DataView)
    ensures !Truthy(sessionUser) ==> w == v
    ensures Truthy(sessionUser) ==> !w.loading
    ensures Truthy(sessionUser) && fetchFailure.Some? ==>
      w.formData == v.formData && w.error == Some(ErrorText(fetchFailure.value, LoadFailedMessage))
    ensures Truthy(sessionUser) && fetchFailure.None? ==>
      w.error == None && w.formData == (if sessionUser.value in rows then rows[sessionUser.value] else map[])
  {
    if !Truthy(sessionUser) then v
    else
      match LookupRow(rows, sessionUser.value, fetchFailure)
      case LookupFailed(f) => v.(loading := false, error := Some(ErrorText(f, LoadFailedMessage)))
      case Found(row) => v.(formData := row, loading := false, error := None)
      case NotFound => v.(formData := map[], loading := false, error := None)
  }

  /** The row the insert path sends: the updates with `user_id` set to the caller. */
  function InsertRow(updates: Row, user: UserId): (row: Row)
    ensures row.Keys == updates.Keys + {"user_id"} && row["user_id"] == Str(user)
    ensures forall k :: k in updates && k != "user_id" ==> row[k] == updates[k]
  {
    updates["user_id" := Str(user)]
  }

  /** `saveFormData`: false without a session user; otherwise the insert-or-update (the
      insert with `user_id` forced to the caller, the update with the updates as given),
      then the row handed back becomes `formData` and the answer is true, or the error
      is recorded and the answer is false. */
  function SaveResult(v: DataView, rows: Rows, sessionUser: Option<string>, updates: Row,
                      checkFailure: Option<Failure>, writeFailure: Option<Failure>): (res: (DataView, Rows, bool))
    ensures !Truthy(sessionUser) ==> res == (v, rows, false)
    ensures Truthy(sessionUser) ==> !res.0.loading
    ensures Truthy(sessionUser) ==>
      var user := sessionUser.value;
      var (rows', out) := UpsertRows(rows, user, InsertRow(updates, user), updates, checkFailure, writeFailure);
      && res.1 == rows'
      && (res.2 <==> out.Succeeded())
      && (res.2 ==> res.0.formData == rows'[user] && res.0.error == None)
      && (!res.2 ==> res.0.formData == v.formData && res.0.error == Some(ErrorText(out.failure, SaveFailedMessage)))
  {
    if !Truthy(sessionUser) then (v, rows, false)
    else
      var user := sessionUser.value;
      var (rows', out) := UpsertRows(rows, user, InsertRow(updates, user), updates, checkFailure, writeFailure);
      if out.Succeeded() then (v.(formData := out.row, loading := false, error := None), rows', true)
      else (v.(loading := false, error := Some(ErrorText(out.failure, SaveFailedMessage))), rows', false)
  }

  /** The update path sends the updates unmodified, so a `user_id` among them is written
      over the caller's own. */
  lemma UpdateKeepsForeignOwner(v: DataView, rows: Rows, user: UserId, other: UserId, updates: Row)
    requires user != "" && user in rows
    requires "user_id" in updates && updates["user_id"] == Str(other)
    ensures var res := SaveResult(v, rows, Some(user), updates, None, None);
            res.2 && res.1[user]["user_id"] == Str(other)
  {
  }

  /** The insert path, in contrast, always records the caller as the owner. */
  lemma InsertOwnsRow(v: DataView, rows: Rows, user: UserId, updates: Row)
    requires user != "" && user !in rows
    ensures var res := SaveResult(v, rows, Some(user), updates, None, None);
            res.2 && res.1[user]["user_id"] == Str(user)
  {
  }

  /** The hook's state, updated in place by its two operations. */
  class KycDataHook {
    var formData: Row
    var loading: bool
    var error: Option<string>

    constructor ()
      ensures View() == InitialView
    {
      formData, loading, error := map[], false, None;
    }

    function View(): DataView
      reads this
    {
      DataView(formData, loading, error)
    }

    method LoadFormData(table: Table, sessionUser: Option<string>, fetchFailure: Option<Failure>)
      modifies this
      ensures View() == LoadResult(old(View()), table.rows, sessionUser, fetchFailure)
    {
      if !Truthy(sessionUser) {
        return;
      }
      loading, error := true, None;
      var found := table.Lookup(sessionUser.value, fetchFailure);
      match found {
        case LookupFailed(f) => error := Some(ErrorText(f, LoadFailedMessage));
        case Found(row) => formData := row;
        case NotFound => formData := map[];
      }
      loading := false;
    }

    method SaveFormData(table: Table, sessionUser: Option<string>, updates: Row,
                        checkFailure: Option<Failure>, writeFailure: Option<Failure>) returns (ok: bool)
      modifies this, table
      ensures (View(), table.rows, ok)
           == SaveResult(old(View()), old(table.rows), sessionUser, updates, checkFailure, writeFailure)
    {
      if !Truthy(sessionUser) {
        return false;
      }
      loading, error := true, None;
      var user := sessionUser.value;
      var out := table.Upsert(user, InsertRow(updates, user), updates, checkFailure, writeFailure);
      if out.Succeeded() {
        formData := out.row;
        ok := true;
      } else {
        error := Some(ErrorText(out.failure, SaveFailedMessage));
        ok := false;
      }
      loading := false;
    }
  }
}
