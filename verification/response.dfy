/** The generic service reply `Response<T>` and its `void` specialisation
    (common/include/models/Response.h). */
module Responses {
  import opened Wrappers
  import opened Json

  /** HTTP status codes the factories use by default. The constants they name
      are not defined in any header of the repository; the standard values are
      assumed. */
  const StatusOk: int := 200
  const StatusBadRequest: int := 400
  const StatusNotFound: int := 404
  const StatusInternalServerError: int := 500

  datatype Response<T> = Response(success: bool, message: string, statusCode: int, data: Option<T>)

  /** Response<void>: the same header without a payload. */
  datatype VoidResponse = VoidResponse(success: bool, message: string, statusCode: int)

  function Success<T>(data: T, message: string := "Success", statusCode: int := StatusOk): (r: Response<T>)
    ensures r.success && r.data == Some(data)
    ensures r.message == message && r.statusCode == statusCode
  {
    Response(true, message, statusCode, Some(data))
  }

  function Error<T>(message: string, statusCode: int := StatusInternalServerError): (r: Response<T>)
    ensures !r.success && r.data.None?
    ensures r.message == message && r.statusCode == statusCode
  {
    Response(false, message, statusCode, None)
  }

  function NotFound<T>(message: string := "Resource not found"): (r: Response<T>)
    ensures !r.success && r.data.None?
    ensures r.message == message && r.statusCode == 404
  {
    Response(false, message, StatusNotFound, None)
  }

  function BadRequest<T>(message: string := "Bad request"): (r: Response<T>)
    ensures !r.success && r.data.None?
    ensures r.message == message && r.statusCode == 400
  {
    Response(false, message, StatusBadRequest, None)
  }

  function VoidSuccess(message: string := "Success", statusCode: int := StatusOk): (r: VoidResponse)
    ensures r.success && r.message == message && r.statusCode == statusCode
  {
    VoidResponse(true, message, statusCode)
  }

  function VoidError(message: string, statusCode: int := StatusInternalServerError): (r: VoidResponse)
    ensures !r.success && r.message == message && r.statusCode == statusCode
  {
    VoidResponse(false, message, statusCode)
  }

  function VoidNotFound(message: string := "Resource not found"): (r: VoidResponse)
    ensures !r.success && r.message == message && r.statusCode == 404
  {
    VoidResponse(false, message, StatusNotFound)
  }

  function VoidBadRequest(message: string := "Bad request"): (r: VoidResponse)
    ensures !r.success && r.message == message && r.statusCode == 400
  {
    VoidResponse(false, message, StatusBadRequest)
  }

  const ResponseKeys: set<string> := {"success", "message", "status_code", "data"}

  /** toJson: four members; `data` is the payload's own JSON, or null when absent.
      `encode` stands for the payload's toJson()/to_json conversion. */
  function ToJson<T>(r: Response<T>, encode: T -> Json): (j: Json)
    ensures j.Obj? && j.fields.Keys == ResponseKeys
    ensures j.fields["data"] == (if r.data.Some? then encode(r.data.value) else Null)
  {
    Obj(map["success" := Bool(r.success), "message" := Str(r.message),
            "status_code" := Int(r.statusCode),
            "data" := if r.data.Some? then encode(r.data.value) else Null])
  }

  /** toJson of the void specialisation: `data` is always null. */
  function VoidToJson(r: VoidResponse): (j: Json)
    ensures j.Obj? && j.fields.Keys == ResponseKeys
    ensures j.fields["data"] == Null
  {
    Obj(map["success" := Bool(r.success), "message" := Str(r.message),
            "status_code" := Int(r.statusCode), "data" := Null])
  }

  /** Reads the header back out of a serialised response. */
  function DecodeHeader(j: Json): (h: Option<(bool, string, int)>)
    ensures h.Some? ==> Has(j, "success") && Has(j, "message") && Has(j, "status_code")
  {
    match (Member(j, "success"), Member(j, "message"), Member(j, "status_code"))
    case (Some(Bool(s)), Some(Str(m)), Some(Int(c))) => Some((s, m, c))
    case _ => None
  }

  /** The header survives serialisation, whatever the payload encoder does. */
  lemma HeaderRoundTrip<T>(r: Response<T>, encode: T -> Json)
    ensures DecodeHeader(ToJson(r, encode)) == Some((r.success, r.message, r.statusCode))
  {
  }

  /** Every factory produces a payload exactly when it reports success. */
  lemma FactoriesSuccessIffData<T>(data: T, message: string, statusCode: int)
    ensures var r := Success(data, message, statusCode); r.success && r.data.Some?
    ensures var r: Response<T> := Error(message, statusCode); !r.success && r.data.None?
    ensures var r: Response<T> := NotFound(message); !r.success && r.data.None?
    ensures var r: Response<T> := BadRequest(message); !r.success && r.data.None?
  {
  }

  /** The void specialisation serialises like a payload-less `Response<T>`
      with the same header, for any payload encoder. */
  lemma VoidMatchesEmptyResponse<T>(r: VoidResponse, encode: T -> Json)
    ensures VoidToJson(r) == ToJson(Response(r.success, r.message, r.statusCode, None), encode)
  {
  }
}
