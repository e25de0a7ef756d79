/**
  The error record of the client and `unmarshal`, which decodes every
  response body into the caller's target and, independently, classifies it
  as a server error by the pattern of module ErrorShape (main.go:152-160,
  main.go:359-369).
*/
module ApiError {
  import opened Wrappers
  import opened ErrorShape

  /**
    The server-reported error. Its only field, `msg`, is unexported in the
    source, so encoding/json can never write it: the second json.Unmarshal
    into the error (main.go:364) leaves the value exactly as built.
  */
  datatype APIError = APIError(msg: string)

  /** What `unmarshal` leaves behind: the decoded target and the error it returns. */
  datatype Decoded<T> = Decoded(target: T, err: Option<APIError>)

  /**
    `unmarshal(jsonStr, target)`. `decode` stands for json.Unmarshal into
    the target (its own error is discarded in the source); it runs on every
    body, error-shaped or not.
  */
  function Unmarshal<T>(jsonStr: string, target: T, decode: (string, T) -> T): (r: Decoded<T>)
    ensures r.target == decode(jsonStr, target)
    ensures forall msg :: IsErrorShaped(jsonStr, msg) ==> r.err == Some(APIError(msg))
    ensures r.err.None? <==> forall msg :: !IsErrorShaped(jsonStr, msg)
  {
    ErrorMessageCharacterised(jsonStr);
    var decoded := decode(jsonStr, target);
    match ErrorMessage(jsonStr)
    case Some(msg) => Decoded(decoded, Some(APIError(msg)))
    case None => Decoded(decoded, None)
  }

  /**
    Whatever the expected result type and whatever decoding makes of it, an
    error-shaped body yields the message between the quotes, verbatim.
  */
  lemma UnmarshalServerError<T>(w1: string, w2: string, msg: string, target: T, decode: (string, T) -> T)
    requires AllSpace(w1) && AllSpace(w2) && NoNewline(msg)
    ensures Unmarshal(ErrorBody(w1, w2, msg), target, decode).err == Some(APIError(msg))
  {
    ErrorMessageOfErrorBody(w1, w2, msg);
  }

  /** An empty body (what post returns when no response arrives) carries no error. */
  lemma UnmarshalEmptyBody<T>(target: T, decode: (string, T) -> T)
    ensures Unmarshal("", target, decode) == Decoded(decode("", target), None)
  {
  }

  /**
    `APIError.Error()` as the source writes it: `fmt.Sprintf(e.msg)`, the
    message used as a format string with no operands.
  */
  function ErrorTextAsWritten(e: APIError): (r: string)
    requires SimpleVerbs(e.msg)
    ensures '%' !in e.msg ==> r == e.msg
  {
    // Both branches give the same value; the first only calls the lemma under its precondition.
    if '%' !in e.msg then SprintfWithoutPercent(e.msg); SprintfNoOperands(e.msg)
    else SprintfNoOperands(e.msg)
  }

  /**
    `Error()` as evidently intended: the message itself. It agrees with the
    code as written on every message without `%`.
  */
  function ErrorText(e: APIError): (r: string)
    ensures '%' !in e.msg ==> SimpleVerbs(e.msg) && r == ErrorTextAsWritten(e)
  {
    // Both branches give the same value; the first only calls the lemma under its precondition.
    if '%' !in e.msg then SprintfWithoutPercent(e.msg); e.msg
    else e.msg
  }

  /**
    Formats whose every `%` is followed by nothing, by `%`, or by a verb
    with no flag (`#0+- `), width (digits, `*`), precision (`.`) or argument
    index (`[`). SprintfNoOperands is modelled on these formats only.
  */
  predicate SimpleVerbs(f: string) {
    if f == [] then true
    else if f[0] != '%' then SimpleVerbs(f[1..])
    else if |f| == 1 then true
    else f[1] !in "#0+- [*.123456789" && SimpleVerbs(f[2..])
  }

  /**
    fmt.Sprintf(format) with no operands: `%%` prints `%`, a trailing `%`
    prints `%!(NOVERB)` and any other verb `c` prints `%!c(MISSING)`.
  */
  function SprintfNoOperands(format: string): (r: string)
    requires SimpleVerbs(format)
  {
    if format == [] then []
    else if format[0] != '%' then [format[0]] + SprintfNoOperands(format[1..])
    else if |format| == 1 then "%!(NOVERB)"
    else if format[1] == '%' then "%" + SprintfNoOperands(format[2..])
    else "%!" + [format[1]] + "(MISSING)" + SprintfNoOperands(format[2..])
  }

  /** The two agree exactly on messages without `%`. */
  lemma {:induction false} SprintfWithoutPercent(f: string)
    requires '%' !in f
    ensures SimpleVerbs(f) && SprintfNoOperands(f) == f
  {
    if f != [] {
      assert f[0] in f;
      assert forall c :: c in f[1..] ==> c in f;
      SprintfWithoutPercent(f[1..]);
      assert f == [f[0]] + f[1..];
    }
  }

  lemma SprintfHundredPercent()
    ensures SimpleVerbs("100%") && SprintfNoOperands("100%") == "100%!(NOVERB)"
  {
    assert SprintfNoOperands("%") == "%!(NOVERB)";
    assert "0%"[1..] == "%";
    assert SprintfNoOperands("0%") == "0%!(NOVERB)";
    assert "00%"[1..] == "0%";
    assert SprintfNoOperands("00%") == "00%!(NOVERB)";
    assert "100%"[1..] == "00%";
  }

  /**
    As written, a server message containing `%` reaches the caller altered:
    the body `{"error":"100%"}` is classified with message `100%`, and its
    Error() text is `100%!(NOVERB)`.
  */
  lemma ErrorTextAsWrittenAltersPercent()
    ensures ErrorMessage("{\"error\":\"100%\"}") == Some("100%")
    ensures ErrorTextAsWritten(APIError("100%")) == "100%!(NOVERB)"
  {
    SprintfHundredPercent();
    assert ErrorBody("", "", "100%") == "{\"error\":\"100%\"}" by {}
    ErrorMessageOfErrorBody("", "", "100%");
  }

  /** With the corrected Error(), the caller reads exactly the message the server sent. */
  lemma ErrorTextOfServerError<T>(w1: string, w2: string, msg: string, target: T, decode: (string, T) -> T)
    requires AllSpace(w1) && AllSpace(w2) && NoNewline(msg)
    ensures
      var r := Unmarshal(ErrorBody(w1, w2, msg), target, decode);
      r.err.Some? && ErrorText(r.err.value) == msg
  {
    UnmarshalServerError(w1, w2, msg, target, decode);
  }
}
