/** The per-user KYC tables (`kyc_progress` and `kyc_data`) as the two KYC API routes
    and the KYC hooks see them: one row per user, a row being a JSON object, and the
    insert-or-update branching on the "not found" answer of a `.single()` read. */
module KycStore {
  import opened Js

  type UserId = string

  /** A JSON value as a row field or a request-body field holds it. `Compound` is an
      array or an object, whose contents the model does not follow. */
  datatype Value = Null | Bool(b: bool) | Num(x: real) | Str(s: string) | Compound

  /** JavaScript truthiness of a JSON value. */
  predicate TruthyValue(v: Value) {
    match v
    case Null => false
    case Bool(b) => b
    case Num(x) => x != 0.0
    case Str(s) => s != ""
    case Compound => true
  }

  /** A row, or a request body: a JSON object from field names to values. */
  type Row = map<string, Value>

  /** The request body of a `POST`: a parsed JSON object (any other non-null JSON value
      yields none of the fields the routes read, so it is the empty object), or the error
      that `request.json()`, or reading fields of a `null` body, throws. */
  datatype Body = Parsed(fields: Row) | Unparsable(failure: Failure)

  /** A table with at most one row per user, keyed by `user_id`. */
  type Rows = map<UserId, Row>

  /** What `.select(...).eq('user_id', user).single()` answers: the user's row, the
      "not found" error (code `PGRST116`), or any other error. */
  datatype Lookup = Found(row: Row) | NotFound | LookupFailed(failure: Failure)

  /** The read of `user`'s row. `failure` is an error the store raises for reasons the
      model does not follow (network, permissions); without one the answer is the table's. */
  function LookupRow(rows: Rows, user: UserId, failure: Option<Failure>): (r: Lookup)
    ensures r.LookupFailed? <==> failure.Some?
    ensures r.NotFound? <==> failure.None? && user !in rows
    ensures r.Found? <==> failure.None? && user in rows
    ensures r.Found? ==> r.row == rows[user]
  {
    if failure.Some? then LookupFailed(failure.value)
    else if user in rows then Found(rows[user])
    else NotFound
  }

  /** Which branch of the insert-or-update ran and how it ended; on success, the row
      `.select().single()` hands back. */
  datatype UpsertOutcome =
    | Inserted(row: Row)
    | Updated(row: Row)
    | CheckFailed(failure: Failure)
    | InsertFailed(failure: Failure)
    | UpdateFailed(failure: Failure)
  {
    predicate Succeeded() { Inserted? || Updated? }
  }

  /** The insert-or-update shared by the two KYC routes and the form-data hook: read the
      user's row; "not found" inserts `insertRow`; any other read error stops with no
      write; a found row gets the fields of `updateRow`, which replace those of the same
      name. `checkFailure` and `writeFailure` are the errors the store raises, if any. */
  function UpsertRows(rows: Rows, user: UserId, insertRow: Row, updateRow: Row,
                  checkFailure: Option<Failure>, writeFailure: Option<Failure>): (res: (Rows, UpsertOutcome))
    ensures res.1.CheckFailed? <==> checkFailure.Some?
    ensures res.1.Inserted? <==> checkFailure.None? && user !in rows && writeFailure.None?
    ensures res.1.InsertFailed? <==> checkFailure.None? && user !in rows && writeFailure.Some?
    ensures res.1.Updated? <==> checkFailure.None? && user in rows && writeFailure.None?
    ensures res.1.UpdateFailed? <==> checkFailure.None? && user in rows && writeFailure.Some?
    // a failed branch writes nothing
    ensures !res.1.Succeeded() ==> res.0 == rows
    // only the user's row changes, and it becomes the row handed back
    ensures res.1.Succeeded() ==> res.0.Keys == rows.Keys + {user} && res.0[user] == res.1.row
    ensures forall u :: u != user && u in rows ==> u in res.0 && res.0[u] == rows[u]
    ensures res.1.Inserted? ==> res.1.row == insertRow
    // an update keeps the fields it does not name and takes the ones it names
    ensures res.1.Updated? ==> res.1.row.Keys == rows[user].Keys + updateRow.Keys
    ensures res.1.Updated? ==> forall k :: k in updateRow ==> res.1.row[k] == updateRow[k]
    ensures res.1.Updated? ==> forall k :: k in rows[user] && k !in updateRow ==> res.1.row[k] == rows[user][k]
  {
    match LookupRow(rows, user, checkFailure)
    case LookupFailed(f) => (rows, CheckFailed(f))
    case NotFound =>
      if writeFailure.Some? then (rows, InsertFailed(writeFailure.value))
      else (rows[user := insertRow], Inserted(insertRow))
    case Found(row) =>
      if writeFailure.Some? then (rows, UpdateFailed(writeFailure.value))
      else
        var merged := row + updateRow;
        (rows[user := merged], Updated(merged))
  }

  /** Saving the same fields twice leaves the table as one save does, when the insert and
      the update send the same row (as both routes do). */
  lemma UpsertTwice(rows: Rows, user: UserId, obj: Row)
    ensures var once := UpsertRows(rows, user, obj, obj, None, None).0;
            UpsertRows(once, user, obj, obj, None, None).0 == once
  {
    var once := UpsertRows(rows, user, obj, obj, None, None).0;
    assert user in once;
    var merged := once[user] + obj;
    assert merged == once[user];
  }

  /** The five KYC steps, in order. */
  const ValidSteps: seq<string> := ["personal", "bvn_verification", "id_face_match", "address_details", "review"]

  /** The five completion flags of a `kyc_progress` row, in the order of the steps. */
  const StepFlags: seq<string> :=
    ["personal_info_completed", "bvn_verified", "documents_verified", "address_completed", "overall_completed"]

  /** `row.flag ? 1 : 0` reads the flag as set: present and truthy. */
  predicate FlagSet(row: Row, flag: string) {
    flag in row && TruthyValue(row[flag])
  }

  /** How many of `flags` are set in `row`. */
  function CountSet(row: Row, flags: seq<string>): (c: nat)
    ensures c <= |flags|
    ensures c == 0 <==> forall i :: 0 <= i < |flags| ==> !FlagSet(row, flags[i])
    ensures c == |flags| <==> forall i :: 0 <= i < |flags| ==> FlagSet(row, flags[i])
  {
    if flags == [] then 0
    else (if FlagSet(row, flags[0]) then 1 else 0) + CountSet(row, flags[1..])
  }

  /** The number of completed steps: the set flags among all five. */
  function CompletedSteps(row: Row): nat {
    CountSet(row, StepFlags)
  }

  /** 1 for a set flag, 0 otherwise. */
  function Bit(row: Row, flag: string): nat {
    if FlagSet(row, flag) then 1 else 0
  }

  /** The count of completed steps, flag by flag. */
  lemma {:induction false} CompletedStepsUnfold(row: Row)
    ensures CompletedSteps(row)
         == Bit(row, StepFlags[0]) + Bit(row, StepFlags[1]) + Bit(row, StepFlags[2])
          + Bit(row, StepFlags[3]) + Bit(row, StepFlags[4])
  {
    var s := StepFlags;
    assert s[1..][1..] == s[2..] && s[2..][1..] == s[3..] && s[3..][1..] == s[4..] && s[4..][1..] == s[5..];
    assert s[5..] == [];
    assert CountSet(row, s[4..]) == Bit(row, s[4]) + CountSet(row, s[5..]);
    assert CountSet(row, s[3..]) == Bit(row, s[3]) + CountSet(row, s[4..]);
    assert CountSet(row, s[2..]) == Bit(row, s[2]) + CountSet(row, s[3..]);
    assert CountSet(row, s[1..]) == Bit(row, s[1]) + CountSet(row, s[2..]);
  }

  /** `Math.round((completed / total) * 100)`: the nearest integer to the percentage,
      halves rounded up. */
  function RoundedPercent(completed: nat, total: nat): (p: int)
    requires total > 0
    ensures 2 * total * p <= 200 * completed + total < 2 * total * (p + 1)
  {
    (200 * completed + total) / (2 * total)
  }

  /** Out of four steps, each completed step is worth 25. */
  lemma PercentOutOfFour(completed: nat)
    ensures RoundedPercent(completed, 4) == 25 * completed
  {
    var p := RoundedPercent(completed, 4);
    assert 8 * p <= 200 * completed + 4 < 8 * (p + 1);
  }

  /** Out of five steps, each completed step is worth 20. */
  lemma PercentOutOfFive(completed: nat)
    ensures RoundedPercent(completed, 5) == 20 * completed
  {
    var p := RoundedPercent(completed, 5);
    assert 10 * p <= 200 * completed + 5 < 10 * (p + 1);
  }

  /** A table store: the rows of one KYC table, updated in place. */
  class Table {
    var rows: Rows

    constructor (rows0: Rows)
      ensures rows == rows0
    {
      rows := rows0;
    }

    /** The `.single()` read of `user`'s row; changes nothing. */
    method Lookup(user: UserId, failure: Option<Failure>) returns (r: Lookup)
      ensures r == LookupRow(rows, user, failure)
    {
      if failure.Some? {
        r := LookupFailed(failure.value);
      } else if user in rows {
        r := Found(rows[user]);
      } else {
        r := NotFound;
      }
    }

    /** `.insert(row).select().single()`: fails with `failure`, or adds the row. */
    method Insert(user: UserId, row: Row, failure: Option<Failure>) returns (written: Option<Row>)
      modifies this
      ensures failure.Some? ==> written == None && rows == old(rows)
      ensures failure.None? ==> written == Some(row) && rows == old(rows)[user := row]
    {
      if failure.Some? {
        written := None;
      } else {
        rows := rows[user := row];
        written := Some(row);
      }
    }

    /** `.update(fields).eq('user_id', user).select().single()` on an existing row. */
    method Update(user: UserId, fields: Row, failure: Option<Failure>) returns (written: Option<Row>)
      requires user in rows
      modifies this
      ensures failure.Some? ==> written == None && rows == old(rows)
      ensures failure.None? ==> written == Some(old(rows)[user] + fields) && rows == old(rows)[user := old(rows)[user] + fields]
    {
      if failure.Some? {
        written := None;
      } else {
        var merged := rows[user] + fields;
        rows := rows[user := merged];
        written := Some(merged);
      }
    }

    /** The insert-or-update, step by step as the callers issue it. */
    method Upsert(user: UserId, insertRow: Row, updateRow: Row,
                  checkFailure: Option<Failure>, writeFailure: Option<Failure>) returns (outcome: UpsertOutcome)
      modifies this
      ensures (rows, outcome) == UpsertRows(old(rows), user, insertRow, updateRow, checkFailure, writeFailure)
    {
      var found := Lookup(user, checkFailure);
      match found {
        case LookupFailed(f) =>
          outcome := CheckFailed(f);
        case NotFound =>
          var written := Insert(user, insertRow, writeFailure);
          outcome := if written.Some? then Inserted(written.value) else InsertFailed(writeFailure.value);
        case Found(_) =>
          var written := Update(user, updateRow, writeFailure);
          outcome := if written.Some? then Updated(written.value) else UpdateFailed(writeFailure.value);
      }
    }
  }
}
