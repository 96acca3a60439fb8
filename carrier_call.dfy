/**
 * The outcome of one HTTP call to the courier aggregator, as the cloud
 * functions see it (the response body, or the error the HTTP client threw),
 * and the outcome of a callable function (a returned value, or an
 * `HttpsError` with a code, a message and details).
 */
module CarrierCall {
  import opened JsValue
  import opened Wrappers

  /**
   * A thrown error: its `message` and, for an HTTP error, `error.response.data`
   * and `error.response.status` (both undefined for any other error).
   */
  datatype Failure = Failure(message: Value, responseData: Value, status: Value)

  /** A plain `new Error(text)`. */
  function PlainError(text: string): Failure {
    Failure(Str(text), Undefined, Undefined)
  }

  /** The `TypeError` reading property `key` of null or undefined throws. */
  function ReadError(base: Value, key: string): Failure
    requires Nullish(base)
  {
    PlainError("Cannot read properties of " + (if base.Null? then "null" else "undefined") + " (reading '" + key + "')")
  }

  /** `error.response?.data?.message || error.message || fallback`: the text a handler reports. */
  function ReportedMessage(f: Failure, fallback: string): (r: Value)
    ensures fallback != "" ==> Truthy(r)
    ensures Truthy(Get(f.responseData, "message")) ==> r == Get(f.responseData, "message")
    ensures !Truthy(Get(f.responseData, "message")) && Truthy(f.message) ==> r == f.message
  {
    Or(Or(Get(f.responseData, "message"), f.message), Str(fallback))
  }

  /** What a callable function does: return a value, or throw an `HttpsError`. */
  datatype Outcome =
    | Returned(value: Value)
    | Thrown(code: string, message: Value, details: Value)

  /** The details a failed call reports: the reply's body and status, when there was a reply. */
  function ErrorDetails(f: Failure): Value {
    Obj(map["details" := f.responseData, "status" := f.status])
  }

  /** What the client sees when a handler throws something other than an `HttpsError`: an `internal` error. */
  const Uncaught: Outcome := Thrown("internal", Str("INTERNAL"), Undefined)

  /** `{ success: false, message }`, the refusal some handlers return instead of throwing. */
  function Refusal(message: string): Value {
    Obj(map["success" := Bool(false), "message" := Str(message)])
  }

  /** The handlers' catch-all: any error becomes an `internal` error carrying the reported message. */
  function Internal(f: Failure, fallback: string): (o: Outcome)
    ensures o.Thrown? && o.code == "internal"
    ensures fallback != "" ==> Truthy(o.message)
    ensures !Truthy(Get(f.responseData, "message")) && Truthy(f.message) ==> o.message == f.message
  {
    Thrown("internal", ReportedMessage(f, fallback), ErrorDetails(f))
  }
}
