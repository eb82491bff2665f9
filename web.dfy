/**
 * What the controllers share with the web layer: the error collector
 * (`BindingResult` and its `ObjectError`s), the response envelope, the
 * collaborators they call out to (date format, password hasher), and Java's
 * rendering of a `Long` in string concatenation.
 */
module Web {
  import opened Wrappers
  import opened Entities

  /** Spring's `ObjectError`: the name of the object at fault and the message shown to the client. */
  datatype ObjectError = ObjectError(objectName: string, defaultMessage: string)

  /**
   * Spring's `BindingResult`. It reaches a controller holding whatever the
   * bean validation of `@Valid` found; the controller's checks append to it.
   */
  class BindingResult {
    var errors: seq<ObjectError>

    constructor (errors: seq<ObjectError>)
      ensures this.errors == errors
    {
      this.errors := errors;
    }

    predicate HasErrors()
      reads this
    {
      |errors| > 0
    }

    method AddError(e: ObjectError)
      modifies this
      ensures errors == old(errors) + [e]
    {
      errors := errors + [e];
    }
  }

  /** The default message of each error, in the order the errors were added. */
  function Messages(errors: seq<ObjectError>): (ms: seq<string>)
  {
    seq(|errors|, i requires 0 <= i < |errors| => errors[i].defaultMessage)
  }

  /**
   * `result.getAllErrors().forEach(error -> response.getErrors().add(error.getDefaultMessage()))`:
   * the response's error list receives every message, one per error, in order.
   */
  method CopyMessages(errors: seq<ObjectError>) returns (messages: seq<string>)
    ensures |messages| == |errors|
    ensures forall i :: 0 <= i < |errors| ==> messages[i] == errors[i].defaultMessage
    ensures messages == Messages(errors)
  {
    messages := [];
    var i := 0;
    while i < |errors|
      invariant 0 <= i <= |errors|
      invariant |messages| == i
      invariant forall k :: 0 <= k < i ==> messages[k] == errors[k].defaultMessage
    {
      messages := messages + [errors[i].defaultMessage];
      i := i + 1;
    }
  }

  /** The response envelope: data on success, the error messages on a bad request. */
  datatype Response<T> = Accepted(data: T) | Rejected(errors: seq<string>)

  /** A controller call either responds or ends in a `ParseException` on the given date text. */
  datatype Outcome<T> = Responded(response: Response<T>) | ParseException(text: string)

  /**
   * `SimpleDateFormat("yyyy-MM-dd HH:mm:ss")`: `parse` may fail (it then
   * throws `ParseException`), `format` always gives a text.
   */
  datatype DateFormat = DateFormat(parse: string -> Option<Date>, format: Date -> string)

  /** `PasswordUtils.gerarBCrypt`, on a possibly absent password. */
  type PasswordHasher = Option<string> -> Option<string>

  /** The digit character of `d`. */
  function DigitChar(d: nat): (c: char)
    requires d < 10
    ensures '0' <= c <= '9' && c as int - '0' as int == d
  {
    "0123456789"[d]
  }

  /** A text made only of decimal digits. */
  predicate IsDigits(s: string) {
    forall i :: 0 <= i < |s| ==> '0' <= s[i] <= '9'
  }

  /** The number a digit text denotes, most significant digit first (the reading `Long.parseLong` gives). */
  function DigitsValue(s: string): nat
    requires IsDigits(s)
  {
    if |s| == 0 then 0 else DigitsValue(s[..|s| - 1]) * 10 + (s[|s| - 1] as int - '0' as int)
  }

  /** The decimal digits of `n`, most significant first, without leading zeros: `n` read back. */
  function NatToString(n: nat): (s: string)
    ensures |s| > 0 && IsDigits(s)
    ensures |s| > 1 ==> s[0] != '0'
    ensures DigitsValue(s) == n
  {
    if n < 10 then [DigitChar(n)]
    else
      var prefixo := NatToString(n / 10);
      var s := prefixo + [DigitChar(n % 10)];
      assert s[..|s| - 1] == prefixo;
      s
  }

  /**
   * `Long.toString`, as string concatenation uses it: a minus sign before
   * negative values, then the digits of the magnitude.
   */
  function IntToString(i: int): (s: string)
    ensures |s| > 0
    ensures s[0] == '-' <==> i < 0
    ensures i >= 0 ==> IsDigits(s) && DigitsValue(s) == i
    ensures i < 0 ==> IsDigits(s[1..]) && DigitsValue(s[1..]) == -i
    ensures i >= 0 && |s| > 1 ==> s[0] != '0'
    ensures i < 0 ==> |s| > 1 && (|s| > 2 ==> s[1] != '0')
  {
    if i < 0 then
      var s := "-" + NatToString(-i);
      assert s[1..] == NatToString(-i);
      s
    else NatToString(i)
  }

  /** Different ids give different texts, so each message names exactly one id. */
  lemma IntToStringInjective(i: int, j: int)
    requires IntToString(i) == IntToString(j)
    ensures i == j
  {
    var s := IntToString(i);
    if i < 0 {
      assert DigitsValue(s[1..]) == -i == -j;
    } else {
      assert DigitsValue(s) == i == j;
    }
  }
}
