/**
 * The user service's translation of validator failures into the API's
 * field-error list: each failed field becomes its name and a readable
 * message chosen by the validation tag.
 */
module ApiErrors {
  import opened Wrappers
  import opened GoErrors
  import Text

  /** One entry of the API's error list: the field and what is wrong with it. */
  datatype APIError = APIError(field: string, error: string)

  const RequiredMessage: string := "This field is required"
  const EmailMessage: string := "Invalid email format"
  const MinPrefix: string := "This field must be at least "
  const MaxPrefix: string := "This field must not exceed "
  const LengthSuffix: string := " characters long"
  const InvalidValue: string := "Invalid value"

  /** The tags that have a message of their own. */
  predicate KnownTag(tag: string) {
    tag in {"required", "email", "min", "max"}
  }

  /**
   * `msgForTag(tag, param)`: a fixed message for "required" and "email",
   * the param embedded verbatim for "min" and "max", "Invalid value" for
   * every other tag.
   */
  function MsgForTag(tag: string, param: string): (msg: string)
    ensures !KnownTag(tag) <==> msg == InvalidValue
    ensures tag == "min" ==> Text.IsPrefix(MinPrefix, msg) && ParamOf(MinPrefix, msg) == Some(param)
    ensures tag == "max" ==> Text.IsPrefix(MaxPrefix, msg) && ParamOf(MaxPrefix, msg) == Some(param)
  {
    match tag
    case "required" => RequiredMessage
    case "email" => EmailMessage
    case "min" =>
      var m := MinPrefix + param + LengthSuffix;
      assert m[|MinPrefix|..|m| - |LengthSuffix|] == param;
      assert m[|m| - |LengthSuffix|..] == LengthSuffix;
      m
    case "max" =>
      var m := MaxPrefix + param + LengthSuffix;
      assert m[|MaxPrefix|..|m| - |LengthSuffix|] == param;
      assert m[|m| - |LengthSuffix|..] == LengthSuffix;
      m
    case _ => InvalidValue
  }

  /**
   * The param a length message carries: what lies between the given
   * prefix and " characters long", or `None` when the message does not
   * have that shape.
   */
  function ParamOf(prefix: string, msg: string): (p: Option<string>)
    ensures p.Some? ==> msg == prefix + p.value + LengthSuffix
  {
    if |msg| >= |prefix| + |LengthSuffix| && msg[..|prefix|] == prefix && msg[|msg| - |LengthSuffix|..] == LengthSuffix
    then
      var p := msg[|prefix|..|msg| - |LengthSuffix|];
      assert msg == msg[..|prefix|] + p + msg[|msg| - |LengthSuffix|..];
      Some(p)
    else None
  }

  /**
   * The tag a message was made for, read back from the message: the
   * inverse of `MsgForTag` on the tags that have a message of their own.
   */
  function TagOfMessage(msg: string): string {
    if msg == RequiredMessage then "required"
    else if msg == EmailMessage then "email"
    else if ParamOf(MinPrefix, msg).Some? then "min"
    else if ParamOf(MaxPrefix, msg).Some? then "max"
    else ""
  }

  lemma TagOfMessageRoundTrip(tag: string, param: string)
    requires KnownTag(tag)
    ensures TagOfMessage(MsgForTag(tag, param)) == tag
  {
    var m := MsgForTag(tag, param);
    if tag == "min" || tag == "max" {
      // Longer than the two fixed messages, and the seventeenth character
      // tells the two prefixes apart.
      assert |m| > |RequiredMessage| && |m| > |EmailMessage|;
      assert m[16] == (if tag == "min" then 'b' else 'n');
      assert MaxPrefix[16] == 'n';
    }
  }

  /** Messages tell the tags apart: two tags with a message of their own never share one. */
  lemma MessagesDistinct(t1: string, p1: string, t2: string, p2: string)
    requires KnownTag(t1) && KnownTag(t2) && t1 != t2
    ensures MsgForTag(t1, p1) != MsgForTag(t2, p2)
  {
    TagOfMessageRoundTrip(t1, p1);
    TagOfMessageRoundTrip(t2, p2);
  }

  /** A length message determines its param: "min" (and "max") messages are equal only for equal params. */
  lemma LengthMessageInjective(tag: string, p1: string, p2: string)
    requires tag == "min" || tag == "max"
    requires MsgForTag(tag, p1) == MsgForTag(tag, p2)
    ensures p1 == p2
  {
  }

  /** One validator field error in the API's form. */
  function ToAPIError(fe: FieldError): APIError {
    APIError(fe.field, MsgForTag(fe.tag, fe.param))
  }

  /**
   * `ValidationErrorToAPIErrors(err)`: `None` (Go's nil slice) when no
   * validation error is found in the chain; otherwise a slice allocated to
   * the number of field errors and filled in order, each entry copying the
   * field name and translating the tag.
   */
  method ValidationErrorToAPIErrors(err: Error) returns (out: Option<seq<APIError>>)
    ensures AsValidation(err).None? <==> out.None?
    ensures out.Some? ==>
      var ve := AsValidation(err).value;
      && |out.value| == |ve|
      && forall i :: 0 <= i < |ve| ==> out.value[i] == ToAPIError(ve[i])
  {
    var found := AsValidation(err);
    if found.None? {
      return None;
    }
    var ve := found.value;
    var a := new APIError[|ve|](_ => APIError("", ""));
    for i := 0 to |ve|
      invariant forall k :: 0 <= k < i ==> a[k] == ToAPIError(ve[k])
    {
      a[i] := APIError(ve[i].field, MsgForTag(ve[i].tag, ve[i].param));
    }
    return Some(a[..]);
  }
}
