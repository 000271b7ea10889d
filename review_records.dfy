/**
 * The review-record calls (src/api/check.ts). Each awaits one request and
 * turns whatever the success interceptor handed back into a uniform record,
 * by testing the response's shape; a failed request becomes a record with
 * `success` false. The awaited outcome and `Date.now()` are inputs.
 */
module Review {
  import opened Wrappers
  import opened Js
  import Api

  /** The HTTP response carried by a failed request, when one arrived */
  datatype ErrorResponse = ErrorResponse(status: int, data: Value)

  /** A rejected request: `error.response` and `error.message` */
  datatype RequestError = RequestError(response: Option<ErrorResponse>, message: string)

  /** What the awaited request produced: the unwrapped body, or an error */
  datatype Outcome = Ok(body: Value) | Failed(error: RequestError)

  /** The record the functions build: `code`, `message`, `data`, `success`, `timestamp` */
  datatype Record = Record(code: int, message: Value, data: Value, success: bool, timestamp: int)

  /** The response itself, when it already looks like such a record, or a record built for it */
  datatype Reply = PassedThrough(response: Value) | Built(record: Record)

  const SaveOk := "保存成功"
  const SaveFailed := "保存失败"
  const FetchOk := "获取成功"
  const DetailFailed := "获取记录详情失败"
  const ListFailed := "获取记录列表失败"
  const DeleteOk := "删除成功"
  const DeleteFailed := "删除记录失败"
  const IdRequired := "记录ID不能为空"
  const BadFormat := "数据格式异常"

  /** `response && typeof response === 'object'`: an array or a plain object */
  predicate IsRecordLike(v: Value) {
    Truthy(v) && IsObject(v)
  }

  /** `error.response?.status || 500` */
  function ErrorCode(e: RequestError): (code: int)
    ensures code != 0
    ensures e.response.Some? && e.response.value.status != 0 ==> code == e.response.value.status
    ensures !(e.response.Some? && e.response.value.status != 0) ==> code == 500
  {
    if e.response.Some? && e.response.value.status != 0 then e.response.value.status else 500
  }

  /** `error.response?.data?.message`, or `undefined` */
  function ServerMessage(e: RequestError): Value {
    if e.response.Some? then Get(e.response.value.data, "message") else Undefined
  }

  /** `error.response?.data?.message || error.message || fallback` */
  function ErrorMessage(e: RequestError, fallback: string): (m: Value)
    requires fallback != ""
    ensures Truthy(m)
    ensures Truthy(ServerMessage(e)) ==> m == ServerMessage(e)
    ensures !Truthy(ServerMessage(e)) && e.message != "" ==> m == Str(e.message)
    ensures !Truthy(ServerMessage(e)) && e.message == "" ==> m == Str(fallback)
  {
    if Truthy(ServerMessage(e)) then ServerMessage(e)
    else if e.message != "" then Str(e.message)
    else Str(fallback)
  }

  /** The record every `catch` builds */
  function ErrorRecord(e: RequestError, fallback: string, data: Value, now: int): Record
    requires fallback != ""
  {
    Record(ErrorCode(e), ErrorMessage(e, fallback), data, false, now)
  }

  /** `saveReviewRecord` (check.ts:109-152) */
  function SaveReviewRecord(response: Outcome, now: int): (r: Reply)
    ensures response.Failed? ==> r == Built(ErrorRecord(response.error, SaveFailed, Str(""), now))
    ensures response.Ok? && IsRecordLike(response.body) && HasKey(response.body, "success") ==>
              r == PassedThrough(response.body)
    // Anything else that arrived counts as saved; the data is the response's string form.
    ensures response.Ok? && !(IsRecordLike(response.body) && HasKey(response.body, "success")) ==>
              r == Built(Record(200, Str(SaveOk), Str(if IsNullish(response.body) then "" else ToStr(response.body)),
                                true, now))
    ensures r.Built? ==> (r.record.success <==> response.Ok?)
  {
    match response
    case Failed(e) => Built(ErrorRecord(e, SaveFailed, Str(""), now))
    case Ok(body) =>
      if IsRecordLike(body) then
        if HasKey(body, "success") then PassedThrough(body)
        else Built(Record(200, Str(SaveOk), Str(ToStr(body)), true, now))
      else
        // `response?.toString() || ''`
        Built(Record(200, Str(SaveOk), Str(if IsNullish(body) then "" else ToStr(body)), true, now))
  }

  /** `getReviewRecordDetail` (check.ts:159-217) */
  function GetReviewRecordDetail(recordId: string, response: Outcome, now: int): (r: Reply)
    // An empty id is refused before any request, whatever the server would have said.
    ensures recordId == "" ==> r == Built(Record(400, Str(IdRequired), Obj([]), false, now))
    ensures recordId != "" && response.Failed? ==>
              r == Built(ErrorRecord(response.error, DetailFailed, Obj([]), now))
    ensures recordId != "" && response.Ok? ==>
              var b := response.body;
              && (r.PassedThrough? <==> IsRecordLike(b) && HasKey(b, "success") && HasKey(b, "data"))
              && (r.PassedThrough? ==> r.response == b)
              && (r.Built? && r.record.success ==>
                    r.record == Record(200, Str(FetchOk), b, true, now)
                    && IsRecordLike(b) && (HasKey(b, "recordId") || HasKey(b, "fileName")))
              && (r.Built? && !r.record.success ==> r.record == Record(500, Str(BadFormat), Obj([]), false, now))
              && ((IsRecordLike(b) && !(HasKey(b, "success") && HasKey(b, "data"))
                   && (HasKey(b, "recordId") || HasKey(b, "fileName")))
                  ==> r.Built? && r.record.success)
  {
    if recordId == "" then
      Built(Record(400, Str(IdRequired), Obj([]), false, now))
    else
      match response
      case Failed(e) => Built(ErrorRecord(e, DetailFailed, Obj([]), now))
      case Ok(body) =>
        if IsRecordLike(body) && HasKey(body, "success") && HasKey(body, "data") then
          PassedThrough(body)
        else if IsRecordLike(body) && (HasKey(body, "recordId") || HasKey(body, "fileName")) then
          Built(Record(200, Str(FetchOk), body, true, now))
        else
          Built(Record(500, Str(BadFormat), Obj([]), false, now))
  }

  /** The `data` of a list record */
  function RecordsOf(records: Value): Value {
    Obj([("records", records)])
  }

  /** `getReviewRecordList` (check.ts:223-269) */
  function GetReviewRecordList(response: Outcome, now: int): (r: Reply)
    ensures response.Failed? ==> r == Built(ErrorRecord(response.error, ListFailed, RecordsOf(Arr([])), now))
    // A successful request never yields a failure record.
    ensures response.Ok? ==> r.PassedThrough? || (r.record.success && r.record.code == 200)
    ensures response.Ok? ==>
              (r.PassedThrough? <==> IsRecordLike(response.body)
                                     && HasKey(response.body, "success") && HasKey(response.body, "data"))
    // A built record always carries a usable `records` value.
    ensures r.Built? ==> exists records :: r.record.data == RecordsOf(records) && Truthy(records)
    ensures response.Ok? && r.Built? && response.body.Arr? ==> r.record.data == RecordsOf(response.body)
    // An object with a `records` key that is not passed through uses that value if truthy, else `[]`.
    ensures response.Ok? && r.Built? && IsRecordLike(response.body) && !response.body.Arr?
            && HasKey(response.body, "records") ==>
              var records := Get(response.body, "records");
              r == Built(Record(200, Str(FetchOk), RecordsOf(if Truthy(records) then records else Arr([])), true, now))
    // Any other shape is a success with an empty list.
    ensures response.Ok? && !(IsRecordLike(response.body) && HasKey(response.body, "success") && HasKey(response.body, "data"))
            && !(IsRecordLike(response.body) && (response.body.Arr? || HasKey(response.body, "records"))) ==>
              r == Built(Record(200, Str(FetchOk), RecordsOf(Arr([])), true, now))
    // Every record built for a successful request carries the fetch message.
    ensures response.Ok? && r.Built? ==> r.record.message == Str(FetchOk)
  {
    match response
    case Failed(e) => Built(ErrorRecord(e, ListFailed, RecordsOf(Arr([])), now))
    case Ok(body) =>
      if IsRecordLike(body) && HasKey(body, "success") && HasKey(body, "data") then
        PassedThrough(body)
      else if IsRecordLike(body) && (HasKey(body, "records") || body.Arr?) then
        var records := if body.Arr? then body
                       else if Truthy(Get(body, "records")) then Get(body, "records") else Arr([]);
        Built(Record(200, Str(FetchOk), RecordsOf(records), true, now))
      else
        Built(Record(200, Str(FetchOk), RecordsOf(Arr([])), true, now))
  }

  /** `deleteReviewRecord` (check.ts:276-332) */
  function DeleteReviewRecord(recordId: string, response: Outcome, now: int): (r: Reply)
    ensures recordId == "" ==> r == Built(Record(400, Str(IdRequired), Null, false, now))
    ensures recordId != "" && response.Failed? ==>
              r == Built(ErrorRecord(response.error, DeleteFailed, Null, now))
    ensures recordId != "" && response.Ok? && IsRecordLike(response.body) && HasKey(response.body, "success") ==>
              r == PassedThrough(response.body)
    // Any other successful response counts as deleted.
    ensures recordId != "" && response.Ok? && !(IsRecordLike(response.body) && HasKey(response.body, "success")) ==>
              r == Built(Record(200, Str(DeleteOk), Null, true, now))
  {
    if recordId == "" then
      Built(Record(400, Str(IdRequired), Null, false, now))
    else
      match response
      case Failed(e) => Built(ErrorRecord(e, DeleteFailed, Null, now))
      case Ok(body) =>
        if IsRecordLike(body) then
          if HasKey(body, "success") then PassedThrough(body)
          else Built(Record(200, Str(DeleteOk), Null, true, now))
        else
          Built(Record(200, Str(DeleteOk), Null, true, now))
  }

  /** `getConversationId` (check.ts:37-43): a falsy response becomes the empty string */
  function GetConversationId(response: Value): (r: Value)
    ensures Truthy(response) ==> r == response
    ensures !Truthy(response) ==> r == Str("")
  {
    Or(response, Str(""))
  }

  // ---------------------------------------------------------------------------
  // Properties across the functions
  // ---------------------------------------------------------------------------

  /**
   * All four `catch` blocks agree: the HTTP status or 500, the server's
   * message or the error's own or a fixed one, and `success` false.
   */
  lemma ErrorPathsAgree(recordId: string, e: RequestError, now: int)
    requires recordId != ""
    ensures var replies := [SaveReviewRecord(Failed(e), now), GetReviewRecordDetail(recordId, Failed(e), now),
                            GetReviewRecordList(Failed(e), now), DeleteReviewRecord(recordId, Failed(e), now)];
            forall i :: 0 <= i < 4 ==>
              && replies[i].Built?
              && replies[i].record.code == ErrorCode(e)
              && !replies[i].record.success
              && (Truthy(ServerMessage(e)) ==> replies[i].record.message == ServerMessage(e))
              && (!Truthy(ServerMessage(e)) && e.message != "" ==> replies[i].record.message == Str(e.message))
  {
  }

  /** Arrays have none of the keys the functions probe, so they are classified as the source intends. */
  lemma ArrayResponses(id: string, xs: seq<Value>, now: int)
    requires id != ""
    ensures SaveReviewRecord(Ok(Arr(xs)), now) == Built(Record(200, Str(SaveOk), Str(Join(xs, ",")), true, now))
    ensures GetReviewRecordDetail(id, Ok(Arr(xs)), now) == Built(Record(500, Str(BadFormat), Obj([]), false, now))
    ensures GetReviewRecordList(Ok(Arr(xs)), now) == Built(Record(200, Str(FetchOk), RecordsOf(Arr(xs)), true, now))
    ensures DeleteReviewRecord(id, Ok(Arr(xs)), now) == Built(Record(200, Str(DeleteOk), Null, true, now))
  {
    NotAnArrayKey(Arr(xs), "success");
    NotAnArrayKey(Arr(xs), "data");
    NotAnArrayKey(Arr(xs), "recordId");
    NotAnArrayKey(Arr(xs), "fileName");
  }

  /** The body the server sends: `{code, message, data, success}` */
  function StandardBody(code: int, message: string, payload: Value): Value {
    Obj([("code", Num(code)), ("message", Str(message)), ("data", payload), ("success", Bool(true))])
  }

  lemma UnwrapStandardBody(code: int, message: string, payload: Value)
    ensures Api.Unwrap(StandardBody(code, message, payload)) == payload
  {
    var fields := StandardBody(code, message, payload).fields;
    assert fields[2].0 == "data";
    assert fields[0].0 != "data" && fields[1].0 != "data";
    assert fields[1..][1..] == fields[2..];
    assert FieldValue(fields, "data") == FieldValue(fields[2..], "data");
  }

  /**
   * Behind the success interceptor, a detail record in the server's standard
   * envelope reaches `getReviewRecordDetail` without its envelope, so it is
   * rebuilt as a 200 record around the payload rather than passed through.
   */
  lemma DetailBehindInterceptor(id: string, code: int, message: string, payload: Value, now: int)
    requires id != ""
    requires payload.Obj? && HasField(payload.fields, "recordId") && !HasField(payload.fields, "success")
    ensures GetReviewRecordDetail(id, Ok(Api.Unwrap(StandardBody(code, message, payload))), now)
            == Built(Record(200, Str(FetchOk), payload, true, now))
  {
    UnwrapStandardBody(code, message, payload);
  }
}
