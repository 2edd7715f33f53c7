/** The `kyc-form-data` API route: `GET` returns the caller's form-data row, or `{}`;
    `POST` keeps only the whitelisted fields of the body, stamps the owner and the
    times, and inserts or updates the caller's row. */
module KycFormDataApi {
  import opened Js
  import opened KycStore
  import opened ApiAuth

  datatype FormReply =
    | Unauthorized
    | ServerError(error: string, details: string)
    | FormData(formData: Row)
    | Saved(formData: Row)

  function HttpStatus(r: FormReply): nat {
    match r
    case Unauthorized => 401
    case ServerError(_, _) => 500
    case FormData(_) => 200
    case Saved(_) => 200
  }

  /** The eighteen body fields a client may write. */
  const WritableFields: set<string> := {
    "first_name", "last_name", "middle_name", "date_of_birth", "phone_number", "address",
    "address_lat", "address_lon", "address_place_id", "bvn", "nin", "document_type",
    "document_number", "document_front_url", "document_back_url", "selfie_url", "lga", "state"}

  /** `fieldMapping`: each writable field to the column of the same name. */
  const FieldMapping: map<string, string> := map k | k in WritableFields :: k

  /** Every field maps to a non-empty column of its own name, so `fieldMapping[key]` is
      truthy exactly for the eighteen fields. */
  lemma MappingIsIdentity()
    ensures forall k :: k in FieldMapping ==> FieldMapping[k] == k && FieldMapping[k] != ""
  {
  }

  /** The columns the route sets itself, and the ones only an administrator sets, are
      not among the writable fields. */
  lemma ReservedColumnsNotMapped()
    ensures "user_id" !in FieldMapping && "created_at" !in FieldMapping && "updated_at" !in FieldMapping
    ensures "approved" !in FieldMapping && "id" !in FieldMapping
  {
  }

  /** The whitelisted part of a body: among the keys `seen`, the mapped ones with their
      values. */
  function Whitelisted(body: Row, seen: set<string>): (r: Row)
    ensures r.Keys == seen * body.Keys * FieldMapping.Keys
    ensures forall k :: k in r ==> r[k] == body[k]
  {
    map k | k in seen && k in body && k in FieldMapping :: body[k]
  }

  /** Seeing one more key adds that field when it is mapped and nothing otherwise. */
  lemma WhitelistedAdd(body: Row, seen: set<string>, key: string)
    requires key in body
    ensures key in FieldMapping ==> Whitelisted(body, seen + {key}) == Whitelisted(body, seen)[key := body[key]]
    ensures key !in FieldMapping ==> Whitelisted(body, seen + {key}) == Whitelisted(body, seen)
  {
  }

  /** The `forEach` over the body's keys: copies each mapped field under its column name.
      The keys are visited in any order; the result does not depend on it. */
  method FilterFields(body: Row) returns (filtered: Row)
    ensures filtered == Whitelisted(body, body.Keys)
  {
    MappingIsIdentity();
    filtered := map[];
    var keys := body.Keys;
    while keys != {}
      invariant keys <= body.Keys
      invariant filtered == Whitelisted(body, body.Keys - keys)
      decreases |keys|
    {
      var key :| key in keys;
      WhitelistedAdd(body, body.Keys - keys, key);
      assert body.Keys - (keys - {key}) == (body.Keys - keys) + {key};
      if key in FieldMapping && FieldMapping[key] != "" {
        filtered := filtered[FieldMapping[key] := body[key]];
      }
      keys := keys - {key};
    }
  }

  /** The row `POST` writes: the whitelisted fields, then `user_id` and both
      timestamps, which no body field can override. */
  function FormObject(body: Row, user: UserId, now: string): (obj: Row)
    ensures obj.Keys == (body.Keys * FieldMapping.Keys) + {"user_id", "created_at", "updated_at"}
    ensures forall k :: k in body && k in FieldMapping ==> obj[k] == body[k]
    ensures obj["user_id"] == Str(user) && obj["created_at"] == Str(now) && obj["updated_at"] == Str(now)
  {
    ReservedColumnsNotMapped();
    Whitelisted(body, body.Keys)["user_id" := Str(user)]["created_at" := Str(now)]["updated_at" := Str(now)]
  }

  /** A body cannot set the administrator's `approved` flag or the row `id`, whatever
      else it holds. */
  lemma NoApprovalFromBody(body: Row, user: UserId, now: string)
    ensures "approved" !in FormObject(body, user, now)
    ensures "id" !in FormObject(body, user, now)
  {
    ReservedColumnsNotMapped();
  }

  /** `GET`: the caller's row, `{}` when there is none, 500 on any other read error. */
  function GetFormData(rows: Rows, header: Option<string>, getUser: string -> Option<string>,
                       fetchFailure: Option<Failure>): (r: FormReply)
    ensures r.Unauthorized? <==> VerifyAuth(header, getUser).None?
    ensures VerifyAuth(header, getUser).Some? ==>
      var user := VerifyAuth(header, getUser).value;
      && (fetchFailure.Some? ==> r == ServerError("Failed to fetch KYC data", fetchFailure.value.message))
      && (fetchFailure.None? && user in rows ==> r == FormData(rows[user]))
      && (fetchFailure.None? && user !in rows ==> r == FormData(map[]))
  {
    match VerifyAuth(header, getUser)
    case None => Unauthorized
    case Some(user) =>
      match LookupRow(rows, user, fetchFailure)
      case LookupFailed(f) => ServerError("Failed to fetch KYC data", f.message)
      case Found(row) => FormData(row)
      case NotFound => FormData(map[])
  }

  function SaveReply(out: UpsertOutcome): (r: FormReply)
    ensures out.Succeeded() <==> r.Saved?
    ensures out.Succeeded() ==> r.formData == out.row
  {
    match out
    case Inserted(row) => Saved(row)
    case Updated(row) => Saved(row)
    case CheckFailed(f) => ServerError("Failed to check existing KYC data", f.message)
    case InsertFailed(f) => ServerError("Failed to create KYC data", f.message)
    case UpdateFailed(f) => ServerError("Failed to update KYC data", f.message)
  }

  /** `POST`: authenticate, parse, filter, then insert or update the caller's row. */
  function PostFormData(rows: Rows, header: Option<string>, getUser: string -> Option<string>, body: Body,
                        now: string, checkFailure: Option<Failure>, writeFailure: Option<Failure>): (res: (Rows, FormReply))
    ensures res.1.Unauthorized? <==> VerifyAuth(header, getUser).None?
    ensures !res.1.Saved? ==> res.0 == rows
    ensures res.1.Saved? ==> body.Parsed?
    ensures res.1.Saved? && body.Parsed? ==>
      var user := VerifyAuth(header, getUser).value;
      && res.0.Keys == rows.Keys + {user} && res.0[user] == res.1.formData
      && "user_id" in res.1.formData && res.1.formData["user_id"] == Str(user)
      && (forall k :: k in body.fields && k in FieldMapping ==> k in res.1.formData && res.1.formData[k] == body.fields[k])
      && (forall u :: u in rows && u != user ==> res.0[u] == rows[u])
    ensures VerifyAuth(header, getUser).Some? && body.Parsed? ==>
      var user := VerifyAuth(header, getUser).value;
      var obj := FormObject(body.fields, user, now);
      res == (UpsertRows(rows, user, obj, obj, checkFailure, writeFailure).0,
              SaveReply(UpsertRows(rows, user, obj, obj, checkFailure, writeFailure).1))
  {
    match VerifyAuth(header, getUser)
    case None => (rows, Unauthorized)
    case Some(user) =>
      match body
      case Unparsable(f) =>
        (rows, ServerError("Internal server error while saving KYC form data", ErrorText(f, "Unknown error occurred")))
      case Parsed(fields) =>
        var obj := FormObject(fields, user, now);
        var (rows', out) := UpsertRows(rows, user, obj, obj, checkFailure, writeFailure);
        (rows', SaveReply(out))
  }

  /** The route over a table store. */
  method Get(table: Table, header: Option<string>, getUser: string -> Option<string>,
             fetchFailure: Option<Failure>) returns (reply: FormReply)
    ensures reply == GetFormData(table.rows, header, getUser, fetchFailure)
  {
    var user := VerifyAuth(header, getUser);
    if user.None? {
      return Unauthorized;
    }
    var found := table.Lookup(user.value, fetchFailure);
    match found {
      case LookupFailed(f) => reply := ServerError("Failed to fetch KYC data", f.message);
      case Found(row) => reply := FormData(row);
      case NotFound => reply := FormData(map[]);
    }
  }

  method Post(table: Table, header: Option<string>, getUser: string -> Option<string>, body: Body,
              now: string, checkFailure: Option<Failure>, writeFailure: Option<Failure>) returns (reply: FormReply)
    modifies table
    ensures (table.rows, reply) == PostFormData(old(table.rows), header, getUser, body, now, checkFailure, writeFailure)
  {
    var user := VerifyAuth(header, getUser);
    if user.None? {
      return Unauthorized;
    }
    if body.Unparsable? {
      return ServerError("Internal server error while saving KYC form data", ErrorText(body.failure, "Unknown error occurred"));
    }
    var filtered := FilterFields(body.fields);
    var obj := filtered["user_id" := Str(user.value)]["created_at" := Str(now)]["updated_at" := Str(now)];
    var out := table.Upsert(user.value, obj, obj, checkFailure, writeFailure);
    reply := SaveReply(out);
  }
}
