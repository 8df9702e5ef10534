/** The error payload the prayer-time service returns: `{status, message}`. */
module ApiErrors {
  import opened Wrappers
  import opened Json
  import opened Decoding

  datatype ApiError = ApiError(status: string, message: string)

  /** Both members are required strings; other members are ignored. */
  function DecodeApiError(v: Value): (r: Result<ApiError, DecodeError>)
    ensures r.Success? <==> v.JObj? && "status" in v.fields && v.fields["status"].JStr?
                                    && "message" in v.fields && v.fields["message"].JStr?
    ensures r.Success? ==> r.value == ApiError(v.fields["status"].s, v.fields["message"].s)
  {
    var obj :- Container(v);
    var status :- DecodeString(obj, "status");
    var message :- DecodeString(obj, "message");
    Success(ApiError(status, message))
  }

  /** A body carrying only a message is not an error payload: the status member is required. */
  lemma MessageOnlyIsNotApiError(message: string)
    ensures DecodeApiError(JObj(map["message" := JStr(message)])).Failure?
    ensures DecodeApiError(JObj(map["message" := JStr(message)])).error == DecodeError(KeyNotFound, [Key("status")])
  {
  }

  /** The embedded-error payload decodes to its status and its message, unchanged. */
  lemma EmbeddedErrorPayload(message: string)
    ensures DecodeApiError(JObj(map["status" := JStr("error"), "message" := JStr(message)]))
            == Success(ApiError("error", message))
  {
  }
}
