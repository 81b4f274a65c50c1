/**
 * The user service's JSON response envelope. A success carries
 * `success: true` and the data. An error carries `success: false` and an
 * error object holding a message and details, and it aborts the rest of
 * the handler chain. Writing to the request context is I/O, so each helper
 * returns the response it would write.
 */
module ApiResponse {
  import opened ApiErrors

  /** The `details` of an error object: nil, a string, or a field-error list. */
  datatype Details = NoDetails | TextDetails(text: string) | FieldDetails(errors: seq<APIError>)

  /** The two envelope shapes, each with its `success` flag. */
  datatype Envelope<D> =
    | SuccessResponse(success: bool, data: D)
    | ErrorResponse(success: bool, message: string, details: Details)

  /** A response as written: HTTP status, JSON body, and whether the chain was aborted. */
  datatype Response<D> = Response(status: int, body: Envelope<D>, aborted: bool)

  /**
   * The envelope is self-consistent: `success` is true exactly for the
   * success shape, and exactly the error shape aborts the chain.
   */
  predicate Consistent<D>(r: Response<D>) {
    && (r.body.success <==> r.body.SuccessResponse?)
    && (r.aborted <==> r.body.ErrorResponse?)
  }

  /** Whether a status is in the 2xx range. */
  predicate Is2xx(status: int) {
    200 <= status < 300
  }

  /** `RespondSuccess`: 200 with the data. */
  function RespondSuccess<D>(data: D): (r: Response<D>)
    ensures Consistent(r) && r.body.success && Is2xx(r.status) && !r.aborted
    ensures r.status == 200 && r.body.data == data
  {
    Response(200, SuccessResponse(true, data), false)
  }

  /** `RespondCreated`: 201 with the data. */
  function RespondCreated<D>(data: D): (r: Response<D>)
    ensures Consistent(r) && r.body.success && Is2xx(r.status) && !r.aborted
    ensures r.status == 201 && r.body.data == data
  {
    Response(201, SuccessResponse(true, data), false)
  }

  /** `RespondError`: the given status, message and details, and the chain aborted. */
  function RespondError<D>(status: int, message: string, details: Details): (r: Response<D>)
    ensures Consistent(r) && !r.body.success && r.aborted
    ensures r.status == status && r.body.message == message && r.body.details == details
  {
    Response(status, ErrorResponse(false, message, details), true)
  }

  /** `RespondBadRequest`: 400 "Invalid request" with the details. */
  function RespondBadRequest<D>(details: Details): (r: Response<D>)
    ensures Consistent(r) && !r.body.success && r.aborted
    ensures r.status == 400 && r.body.message == "Invalid request" && r.body.details == details
  {
    RespondError(400, "Invalid request", details)
  }

  /** `RespondUnauthorized`: 401 "Unauthorized" without details. */
  function RespondUnauthorized<D>(): (r: Response<D>)
    ensures Consistent(r) && !r.body.success && r.aborted
    ensures r.status == 401 && r.body.message == "Unauthorized" && r.body.details == NoDetails
  {
    RespondError(401, "Unauthorized", NoDetails)
  }

  /** `RespondNotFound`: 404 "Resource not found" without details. */
  function RespondNotFound<D>(): (r: Response<D>)
    ensures Consistent(r) && !r.body.success && r.aborted
    ensures r.status == 404 && r.body.message == "Resource not found" && r.body.details == NoDetails
  {
    RespondError(404, "Resource not found", NoDetails)
  }

  /** `RespondInternalServerError`: 500 with the fixed message and without details. */
  function RespondInternalServerError<D>(): (r: Response<D>)
    ensures Consistent(r) && !r.body.success && r.aborted
    ensures r.status == 500 && r.body.message == "An internal server error occurred"
    ensures r.body.details == NoDetails
  {
    RespondError(500, "An internal server error occurred", NoDetails)
  }
}
