/**
  The server-error pattern of the client, `^{"error"\s*:\s*"(?P<msg>.*)"}$`
  (main.go:160), written out as a matcher under RE2 semantics:
  `\s` is tab, newline, form feed, carriage return or space; `.` is any
  character except newline; `^` and `$` (no `m` flag) are the start and the
  end of the whole text.
*/
module ErrorShape {
  import opened Wrappers

  /** The literal text the pattern starts with: `{"error"`. */
  const OpenKey: string := "{\"error\""

  /** The literal text the pattern ends with: `"}`. */
  const Close: string := "\"}"

  /** RE2's `\s` (Perl class): `[\t\n\f\r ]`, without vertical tab. */
  predicate IsSpace(c: char) {
    c == '\t' || c == '\n' || c == '\U{C}' || c == '\r' || c == ' '
  }

  predicate AllSpace(s: string) {
    forall i :: 0 <= i < |s| ==> IsSpace(s[i])
  }

  /** Every character is one that RE2's `.` matches (it never matches newline). */
  predicate NoNewline(s: string) {
    forall i :: 0 <= i < |s| ==> s[i] != '\n'
  }

  /** How much of `s` a greedy `\s*` consumes. */
  function SpaceRun(s: string): (n: nat)
    ensures n <= |s|
    ensures AllSpace(s[..n])
    ensures n == |s| || !IsSpace(s[n])
  {
    if s != [] && IsSpace(s[0]) then
      var k := SpaceRun(s[1..]);
      assert s[..k + 1] == [s[0]] + s[1..][..k];
      k + 1
    else 0
  }

  /**
    The `msg` group of the pattern, when the whole text matches it, and None
    otherwise. Each stage below consumes one piece of the pattern. Since
    neither `:` nor `"` is whitespace, each `\s*` must stop right before the
    next literal, and since `$` pins `"}` to the end of the text, the greedy
    `.*` takes everything in between.
  */
  function ErrorMessage(body: string): (r: Option<string>)
    ensures r.Some? ==> IsErrorShaped(body, r.value)
  {
    if OpenKey <= body then
      var s := body[|OpenKey|..];
      assert body == OpenKey + s;
      if AfterKey(s).Some? then AfterKeyShaped(s); AfterKey(s) else None
    else None
  }

  /** `\s*:` then the rest, on what follows `{"error"`. */
  function AfterKey(s: string): (r: Option<string>) {
    var t := s[SpaceRun(s)..];
    if t != [] && t[0] == ':' then AfterColon(t[1..]) else None
  }

  /** `\s*"` then the rest, on what follows the colon. */
  function AfterColon(s: string): (r: Option<string>) {
    var t := s[SpaceRun(s)..];
    if t != [] && t[0] == '"' then Capture(t[1..]) else None
  }

  /** `(?P<msg>.*)"}$`, on what follows the opening quote. */
  function Capture(rest: string): (r: Option<string>) {
    if |rest| >= |Close| && rest[|rest| - |Close|..] == Close && NoNewline(rest[..|rest| - |Close|])
    then Some(rest[..|rest| - |Close|])
    else None
  }

  /** The text of an error-shaped body with the given whitespace and message. */
  function ErrorBody(w1: string, w2: string, msg: string): (r: string) {
    OpenKey + (w1 + (":" + (w2 + ("\"" + (msg + Close)))))
  }

  /**
    Reference definition of the pattern: `body` is `{"error"`, whitespace,
    `:`, whitespace, `"`, a message free of newlines, `"}`, and nothing else.
  */
  ghost predicate IsErrorShaped(body: string, msg: string) {
    NoNewline(msg) &&
    exists w1, w2 :: AllSpace(w1) && AllSpace(w2) && body == ErrorBody(w1, w2, msg)
  }

  /** A greedy `\s*` in front of a non-space character takes exactly the whitespace. */
  lemma {:induction false} SpaceRunStopsAt(w: string, t: string)
    requires AllSpace(w)
    requires t != [] && !IsSpace(t[0])
    ensures SpaceRun(w + t) == |w|
  {
    if w == [] {
      assert w + t == t;
    } else {
      assert (w + t)[0] == w[0];
      assert (w + t)[1..] == w[1..] + t;
      SpaceRunStopsAt(w[1..], t);
    }
  }

  lemma CaptureOf(msg: string)
    requires NoNewline(msg)
    ensures Capture(msg + Close) == Some(msg)
  {
    var rest := msg + Close;
    assert rest[..|rest| - |Close|] == msg;
    assert rest[|rest| - |Close|..] == Close;
  }

  lemma AfterColonOf(w2: string, msg: string)
    requires AllSpace(w2) && NoNewline(msg)
    ensures AfterColon(w2 + ("\"" + (msg + Close))) == Some(msg)
  {
    var tail := "\"" + (msg + Close);
    SpaceRunStopsAt(w2, tail);
    assert (w2 + tail)[|w2|..] == tail;
    assert tail[1..] == msg + Close;
    CaptureOf(msg);
  }

  lemma AfterKeyOf(w1: string, w2: string, msg: string)
    requires AllSpace(w1) && AllSpace(w2) && NoNewline(msg)
    ensures AfterKey(w1 + (":" + (w2 + ("\"" + (msg + Close))))) == Some(msg)
  {
    var inner := w2 + ("\"" + (msg + Close));
    var tail := ":" + inner;
    SpaceRunStopsAt(w1, tail);
    assert (w1 + tail)[|w1|..] == tail;
    assert tail[1..] == inner;
    AfterColonOf(w2, msg);
  }

  /** Round trip: building an error body and matching it gives back the message. */
  lemma ErrorMessageOfErrorBody(w1: string, w2: string, msg: string)
    requires AllSpace(w1) && AllSpace(w2) && NoNewline(msg)
    ensures ErrorMessage(ErrorBody(w1, w2, msg)) == Some(msg)
  {
    var inner := w1 + (":" + (w2 + ("\"" + (msg + Close))));
    assert (OpenKey + inner)[|OpenKey|..] == inner;
    AfterKeyOf(w1, w2, msg);
  }

  lemma CaptureSound(rest: string)
    requires Capture(rest).Some?
    ensures NoNewline(Capture(rest).value) && rest == Capture(rest).value + Close
  {
  }

  lemma AfterColonSound(s: string)
    requires AfterColon(s).Some?
    ensures NoNewline(AfterColon(s).value)
    ensures s == s[..SpaceRun(s)] + ("\"" + (AfterColon(s).value + Close))
  {
    var n := SpaceRun(s);
    var t := s[n..];
    CaptureSound(t[1..]);
    assert t == "\"" + t[1..];
    assert s == s[..n] + t;
  }

  lemma AfterKeySound(s: string) returns (w1: string, w2: string)
    requires AfterKey(s).Some?
    ensures NoNewline(AfterKey(s).value) && AllSpace(w1) && AllSpace(w2)
    ensures s == w1 + (":" + (w2 + ("\"" + (AfterKey(s).value + Close))))
  {
    var n := SpaceRun(s);
    var t := s[n..];
    var u := t[1..];
    AfterColonSound(u);
    var msg := AfterKey(s).value;
    w1, w2 := s[..n], u[..SpaceRun(u)];
    assert t == ":" + u;
    assert s == w1 + t;
  }

  lemma AfterKeyShaped(s: string)
    requires AfterKey(s).Some?
    ensures IsErrorShaped(OpenKey + s, AfterKey(s).value)
  {
    var w1, w2 := AfterKeySound(s);
    assert OpenKey + s == ErrorBody(w1, w2, AfterKey(s).value);
  }

  /** Whatever the matcher accepts is error-shaped around the message it returns. */
  lemma ErrorMessageSound(body: string) returns (w1: string, w2: string)
    requires ErrorMessage(body).Some?
    ensures AllSpace(w1) && AllSpace(w2) && NoNewline(ErrorMessage(body).value)
    ensures body == ErrorBody(w1, w2, ErrorMessage(body).value)
  {
    var s := body[|OpenKey|..];
    w1, w2 := AfterKeySound(s);
    var msg := ErrorMessage(body).value;
    assert body == OpenKey + s;
  }

  /** The matcher is exactly the reference definition: both directions. */
  lemma ErrorMessageCharacterised(body: string)
    ensures forall msg :: ErrorMessage(body) == Some(msg) <==> IsErrorShaped(body, msg)
  {
    forall msg
      ensures ErrorMessage(body) == Some(msg) <==> IsErrorShaped(body, msg)
    {
      if ErrorMessage(body) == Some(msg) {
        var w1, w2 := ErrorMessageSound(body);
      }
      if IsErrorShaped(body, msg) {
        var w1, w2 :| AllSpace(w1) && AllSpace(w2) && body == ErrorBody(w1, w2, msg);
        ErrorMessageOfErrorBody(w1, w2, msg);
      }
    }
  }

  /** No body is error-shaped around two different messages. */
  lemma ErrorShapeUnique(body: string, m1: string, m2: string)
    requires IsErrorShaped(body, m1) && IsErrorShaped(body, m2)
    ensures m1 == m2
  {
    ErrorMessageCharacterised(body);
  }

  /** A typical server reply: one space after the colon. */
  lemma ExampleServerMessage()
    ensures ErrorMessage("{\"error\": \"Invalid API key\"}") == Some("Invalid API key")
  {
    assert ErrorBody("", " ", "Invalid API key") == "{\"error\": \"Invalid API key\"}" by {}
    ErrorMessageOfErrorBody("", " ", "Invalid API key");
  }

  /** `\s` includes newline, so line breaks around the colon are tolerated. */
  lemma ExampleNewlinesAroundColon()
    ensures ErrorMessage("{\"error\"\n:\r\n\"x\"}") == Some("x")
  {
    assert ErrorBody("\n", "\r\n", "x") == "{\"error\"\n:\r\n\"x\"}" by {}
    ErrorMessageOfErrorBody("\n", "\r\n", "x");
  }

  /** JSON escapes are not decoded: the backslashes stay in the message. */
  lemma ExampleEscapesKeptRaw()
    ensures ErrorMessage("{\"error\":\"say \\\"hi\\\"\"}") == Some("say \\\"hi\\\"")
  {
    assert ErrorBody("", "", "say \\\"hi\\\"") == "{\"error\":\"say \\\"hi\\\"\"}" by {}
    ErrorMessageOfErrorBody("", "", "say \\\"hi\\\"");
  }

  /** The greedy group runs to the final `"}`, across any later fields. */
  lemma ExampleCaptureSpansFields()
    ensures ErrorMessage("{\"error\":\"a\",\"code\":\"b\"}") == Some("a\",\"code\":\"b")
  {
    assert ErrorBody("", "", "a\",\"code\":\"b") == "{\"error\":\"a\",\"code\":\"b\"}" by {}
    ErrorMessageOfErrorBody("", "", "a\",\"code\":\"b");
  }

  /** `$` is the end of the text: a trailing newline defeats the match. */
  lemma ExampleTrailingNewline()
    ensures ErrorMessage("{\"error\":\"x\"}\n") == None
  {
    var body := "{\"error\":\"x\"}\n";
    assert body[|body| - |Close|..] != Close;
  }

  /** `.` never matches newline, so a message spanning lines is not an error. */
  lemma ExampleMultilineMessage()
    ensures ErrorMessage("{\"error\":\"a\nb\"}") == None
  {
    var body := "{\"error\":\"a\nb\"}";
    assert OpenKey <= body;
    var s := body[|OpenKey|..];
    assert s == ":\"a\nb\"}";
    assert SpaceRun(s) == 0;
    var u := s[1..];
    assert u == "\"a\nb\"}";
    assert SpaceRun(u) == 0;
    var rest := u[1..];
    assert rest[..|rest| - |Close|] == "a\nb";
    assert !NoNewline("a\nb") by { assert "a\nb"[1] == '\n'; }
  }
}
