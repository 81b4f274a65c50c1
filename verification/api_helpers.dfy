/**
 * `BindJSONAndValidate`: bind the request body and validate it, and on
 * failure write one bad-request response saying why. The binding itself
 * (JSON decoding and struct validation) is outside the model; its outcome,
 * `None` for success or the error it returns, is the parameter.
 */
module ApiHelpers {
  import opened Wrappers
  import opened GoErrors
  import opened ApiErrors
  import opened ApiResponse

  /**
   * Returns whether binding succeeded and the responses written: none on
   * success; on failure exactly one 400 "Invalid request" whose details
   * are "Request body is empty" for a bare `io.EOF` (compared with `==`,
   * so a wrapped EOF does not count), the translated field errors when the
   * chain holds validation errors, and the error's text otherwise.
   */
  method BindJSONAndValidate(bindErr: Option<Error>) returns (ok: bool, written: seq<Response<()>>)
    ensures ok <==> bindErr.None?
    ensures ok ==> written == []
    ensures !ok ==> |written| == 1 && Consistent(written[0]) && written[0].status == 400 && written[0].aborted
    ensures !ok ==> written[0].body.ErrorResponse? && written[0].body.message == "Invalid request"
    ensures bindErr == Some(SentinelError(EOF)) ==>
              written == [RespondBadRequest(TextDetails("Request body is empty"))]
    ensures bindErr.Some? && bindErr.value != SentinelError(EOF) && AsValidation(bindErr.value).Some? ==>
              var ve := AsValidation(bindErr.value).value;
              && written[0].body.details.FieldDetails?
              && |written[0].body.details.errors| == |ve|
              && forall i :: 0 <= i < |ve| ==> written[0].body.details.errors[i] == ToAPIError(ve[i])
    ensures bindErr.Some? && bindErr.value != SentinelError(EOF) && AsValidation(bindErr.value).None? ==>
              written == [RespondBadRequest(TextDetails(ErrorText(bindErr.value)))]
  {
    if bindErr.None? {
      return true, [];
    }
    var err := bindErr.value;
    if err == SentinelError(EOF) {
      return false, [RespondBadRequest(TextDetails("Request body is empty"))];
    }
    var apiErrors := ValidationErrorToAPIErrors(err);
    if apiErrors.Some? {
      return false, [RespondBadRequest(FieldDetails(apiErrors.value))];
    }
    return false, [RespondBadRequest(TextDetails(ErrorText(err)))];
  }

  /**
   * A failed validation with no field errors still reports an empty
   * field list, never the error text: Go's `make` returns a non-nil empty
   * slice.
   */
  method EmptyValidationReportsEmptyList() returns (written: seq<Response<()>>)
    ensures written == [RespondBadRequest(FieldDetails([]))]
  {
    var ok;
    ok, written := BindJSONAndValidate(Some(Validation([])));
    assert AsValidation(Validation([])) == Some([]);
    assert written[0].body.details.errors == [];
  }
}
