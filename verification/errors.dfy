/** The exceptions that end a request inside `fetch`'s try block, and the text each shows. */
module Errors {

  /** The error message raised when no URL is configured for the model. */
  const MissingUrlMessage: string := "config.json中没有配置模型对应的URL"

  datatype Error =
    | Raised(text: string)          // an exception raised by a library (JSON decoding, transport)
    | NoGetMethod(typeName: string) // the request body is not a JSON object: `body.get` fails
    | Unhashable(typeName: string)  // the `model` field is a list or object: not a dict key
    | MissingUrl                    // the resolved `url` is None or empty

  /** `str(e)` for each error: the text the 500 response carries. */
  function Message(e: Error): string {
    match e
    case Raised(text) => text
    case NoGetMethod(t) => "'" + t + "' object has no attribute 'get'"
    case Unhashable(t) => "unhashable type: '" + t + "'"
    case MissingUrl => MissingUrlMessage
  }

  /**
   * The three errors the handler's own code raises cannot be confused: their
   * 500 bodies differ whatever type names they carry.
   */
  lemma FixedMessagesDiffer(a: string, b: string)
    ensures Message(NoGetMethod(a)) != Message(Unhashable(b))
    ensures Message(NoGetMethod(a)) != Message(MissingUrl)
    ensures Message(Unhashable(b)) != Message(MissingUrl)
  {
    assert Message(NoGetMethod(a))[0] == '\'';
    assert Message(Unhashable(b))[0] == 'u';
    assert Message(MissingUrl)[0] == 'c';
  }

  /**
   * The 500 body names the offending type: two attribute errors, or two
   * unhashable-type errors, with the same text have the same type name.
   */
  lemma MessageNamesTheType(a: string, b: string)
    ensures Message(NoGetMethod(a)) == Message(NoGetMethod(b)) ==> a == b
    ensures Message(Unhashable(a)) == Message(Unhashable(b)) ==> a == b
  {
    var ma, mb := Message(NoGetMethod(a)), Message(NoGetMethod(b));
    if ma == mb {
      assert |a| == |b|;
      assert a == ma[1..1 + |a|] && b == mb[1..1 + |b|];
    }
    var ua, ub := Message(Unhashable(a)), Message(Unhashable(b));
    var n := |"unhashable type: '"|;
    if ua == ub {
      assert |a| == |b|;
      assert a == ua[n..n + |a|] && b == ub[n..n + |b|];
    }
  }
}
