/** The single error type the client throws: a message, and the HTTP status and error payload when known. */
module Exceptions {
  import opened Wrappers
  import opened SwiftInt
  import opened ApiErrors

  datatype ApiException = ApiException(message: string, statusCode: Option<int>, apiError: Option<ApiError>)

  /** The initializer: it keeps its arguments, and status code and error payload are absent unless given. */
  function NewApiException(message: string, statusCode: Option<int> := None, apiError: Option<ApiError> := None): (e: ApiException)
    ensures e.message == message && e.statusCode == statusCode && e.apiError == apiError
  {
    ApiException(message, statusCode, apiError)
  }

  lemma DefaultsAreAbsent(message: string)
    ensures NewApiException(message).statusCode.None?
    ensures NewApiException(message).apiError.None?
    ensures NewApiException(message).message == message
  {
  }

  /** `errorDescription` is always the message. */
  function ErrorDescription(e: ApiException): (d: Option<string>)
    ensures d.Some? && d.value == e.message
  {
    Some(e.message)
  }

  const DESCRIPTION_PREFIX: string := "WaktuSolatApiException: "
  const STATUS_OPEN: string := " (Status Code: "

  /**
   * `description`: the type name and the message, then the status code in
   * parentheses when there is one. The message can be read back right
   * after the type name; without a status code nothing follows it, and with
   * one the text between " (Status Code: " and the closing parenthesis
   * is the code's decimal text, which parses back to the status code.
   */
  function Description(e: ApiException): (d: string)
    ensures var n := |DESCRIPTION_PREFIX| + |e.message|;
            && n <= |d|
            && d[..|DESCRIPTION_PREFIX|] == DESCRIPTION_PREFIX
            && d[|DESCRIPTION_PREFIX|..n] == e.message
            && (e.statusCode.None? ==> |d| == n)
            && (e.statusCode.Some? ==> n + |STATUS_OPEN| < |d| && d[n..n + |STATUS_OPEN|] == STATUS_OPEN && d[|d| - 1] == ')')
            // the status code is written as `String(code)`: sign, digits, no leading zero
            && (e.statusCode.Some? ==> d[n + |STATUS_OPEN|..|d| - 1] == DecimalString(e.statusCode.value))
            && (e.statusCode.Some? && IsInt64(e.statusCode.value) ==>
                  ParseInt(d[n + |STATUS_OPEN|..|d| - 1]) == Some(e.statusCode.value))
  {
    var head := DESCRIPTION_PREFIX + e.message;
    PrefixParts(e.message);
    if e.statusCode.Some? then
      var digits := DecimalString(e.statusCode.value);
      StatusSuffixParts(head, digits);
      assert (head + STATUS_OPEN + digits + ")")[..|head|] == head;
      head + STATUS_OPEN + digits + ")"
    else head
  }

  lemma PrefixParts(message: string)
    ensures var head := DESCRIPTION_PREFIX + message;
            && head[..|DESCRIPTION_PREFIX|] == DESCRIPTION_PREFIX
            && head[|DESCRIPTION_PREFIX|..] == message
  {
    var head := DESCRIPTION_PREFIX + message;
    assert head[..|DESCRIPTION_PREFIX|] == DESCRIPTION_PREFIX;
    assert head[|DESCRIPTION_PREFIX|..] == message;
  }

  lemma StatusSuffixParts(head: string, digits: string)
    ensures var d := head + STATUS_OPEN + digits + ")";
            && d[..|head|] == head
            && d[|head|..|head| + |STATUS_OPEN|] == STATUS_OPEN
            && d[|head| + |STATUS_OPEN|..|d| - 1] == digits
            && d[|d| - 1] == ')'
  {
    var d := head + STATUS_OPEN + digits + ")";
    assert d[..|head|] == head;
    assert d[|head|..|head| + |STATUS_OPEN|] == STATUS_OPEN;
    assert d[|head| + |STATUS_OPEN|..|d| - 1] == digits;
  }

  /**
   * The description does not tell a status code from a message that merely
   * ends with the same text: two different exceptions share a description.
   */
  lemma DescriptionNotInjective(message: string)
    ensures var a := ApiException(message + STATUS_OPEN + "5)", None, None);
            var b := ApiException(message, Some(5), None);
            a != b && Description(a) == Description(b)
  {
    assert DecimalString(5) == "5";
    assert DESCRIPTION_PREFIX + (message + STATUS_OPEN + "5)") == DESCRIPTION_PREFIX + message + STATUS_OPEN + "5" + ")";
  }
}
