/**
 * The two response envelopes every controller produces: ApiError (thrown and
 * rendered by the error middleware) and ApiResponse (sent on success).
 */
module Envelopes {

  /**
   * An error envelope. The source's class always sets data to null and
   * success to false; both are derived members here, so no value of the type
   * can carry anything else.
   */
  datatype ApiError = ApiError(statusCode: int, message: string, errors: seq<string>) {
    const success: bool := false
    const hasData: bool := false
  }

  const DefaultErrorMessage: string := "Something went wrong"
  const DefaultSuccessMessage: string := "Success"

  /** new ApiError(statusCode, message = "Something went wrong", errors = []). */
  function NewApiError(statusCode: int, message: string := DefaultErrorMessage,
                       errors: seq<string> := []): (e: ApiError)
    ensures e.statusCode == statusCode && e.message == message && e.errors == errors
    ensures !e.success && !e.hasData
  {
    ApiError(statusCode, message, errors)
  }

  /**
   * A success envelope: success is derived from the status code, exactly as
   * the class computes it in its constructor.
   */
  datatype ApiResponse<T> = ApiResponse(statusCode: int, data: T, message: string) {
    const success: bool := statusCode < 400
  }

  /** new ApiResponse(statusCode, data, message = "Success"). */
  function NewApiResponse<T>(statusCode: int, data: T, message: string := DefaultSuccessMessage): (r: ApiResponse<T>)
    ensures r.statusCode == statusCode && r.data == data && r.message == message
    ensures r.success <==> statusCode < 400
  {
    ApiResponse(statusCode, data, message)
  }

  /** What a controller ends with: a response it sends, or an ApiError it throws. */
  datatype Reply<T> = Ok(response: ApiResponse<T>) | Err(error: ApiError) {
    function StatusCode(): int {
      if Ok? then response.statusCode else error.statusCode
    }
  }

  function Fail<T>(statusCode: int, message: string): (r: Reply<T>)
    ensures r.Err? && r.StatusCode() == statusCode && r.error.message == message
    ensures r.error.errors == []
  {
    Err(NewApiError(statusCode, message))
  }

  function Succeed<T>(statusCode: int, data: T, message: string): (r: Reply<T>)
    ensures r.Ok? && r.StatusCode() == statusCode && r.response.data == data
    ensures r.response.message == message
  {
    Ok(NewApiResponse(statusCode, data, message))
  }

  /**
   * What a controller decides before it saves: refuse with an ApiError, or
   * save the new version of the document.
   */
  datatype Step<T> = Refuse(error: ApiError) | Save(document: T)

  /**
   * A Mongoose validation error on save is not an ApiError; the error
   * middleware wraps it as status error.statusCode || 500, which is 500.
   * Its message is abstracted to this constant.
   */
  const ValidationFailedMessage: string := "Validation failed"

  lemma ErrorNeverSucceeds(code: int, message: string)
    ensures !NewApiError(code, message).success
  {
  }

  lemma ResponseSuccessIffBelow400<T>(code: int, data: T)
    ensures NewApiResponse(code, data).success <==> code < 400
    ensures NewApiResponse(code, data).message == "Success"
  {
  }
}
