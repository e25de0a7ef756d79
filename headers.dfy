/**
  The part of Go's http.Header the client relies on (main.go:166-170 and
  main.go:299-300): a map from header names to lists of values whose Set
  replaces the values under the canonical form of the name.
*/
module Headers {

  /** The characters of an HTTP token (section 3.2.6 of RFC 7230). */
  predicate IsTokenChar(c: char) {
    ('a' <= c <= 'z') || ('A' <= c <= 'Z') || ('0' <= c <= '9') || c in "!#$%&'*+-.^_`|~"
  }

  predicate AllToken(s: string) {
    forall i :: 0 <= i < |s| ==> IsTokenChar(s[i])
  }

  /**
    textproto.CanonicalMIMEHeaderKey, which Header.Set applies to its key:
    a key made only of token characters gets its first letter and every
    letter after `-` in upper case and all other letters in lower case; any
    other key is kept as it is.
  */
  function CanonicalKey(key: string): (r: string)
    ensures |r| == |key| && forall i :: 0 <= i < |r| ==> Lower(r[i]) == Lower(key[i])
    ensures AllToken(key) ==> AllToken(r)
    ensures !AllToken(key) ==> r == key
    ensures AllToken(key) ==>
      forall i :: 0 <= i < |key| ==> r[i] == (if UpperAt(key, i, true) then Upper(key[i]) else Lower(key[i]))
  {
    if AllToken(key) then
      CanonicalizeIdempotent(key, true);
      CanonicalizeCase(key, true);
      Canonicalize(key, true)
    else key
  }

  /** The ASCII lower-case form of a character. */
  function Lower(c: char): (r: char) {
    if 'A' <= c <= 'Z' then (c as int + 32) as char else c
  }

  /** The ASCII upper-case form of a character. */
  function Upper(c: char): (r: char) {
    if 'a' <= c <= 'z' then (c as int - 32) as char else c
  }

  /**
    Whether the rewrite puts position `i` of `s` in upper case: at the start
    when `upper` holds, and elsewhere right after a `-`.
  */
  predicate UpperAt(s: string, i: int, upper: bool)
    requires 0 <= i < |s|
  {
    if i == 0 then upper else s[i - 1] == '-'
  }

  /** The case rewrite; `upper` says the previous character was `-`, or there was none. */
  function Canonicalize(s: string, upper: bool): (r: string)
    ensures |r| == |s| && forall i :: 0 <= i < |r| ==> Lower(r[i]) == Lower(s[i])
  {
    if s == [] then []
    else
      var t := Canonicalize(s[1..], s[0] == '-');
      assert forall i :: 1 <= i < |s| ==> Lower(t[i - 1]) == Lower(s[i]);
      [CaseFor(s[0], upper)] + t
  }

  function CaseFor(c: char, upper: bool): (r: char)
    ensures IsTokenChar(c) ==> IsTokenChar(r)
    ensures r == '-' <==> c == '-'
    ensures Lower(r) == Lower(c)
    ensures r == (if upper then Upper(c) else Lower(c))
  {
    if upper && 'a' <= c <= 'z' then (c as int - 32) as char
    else if !upper && 'A' <= c <= 'Z' then (c as int + 32) as char
    else c
  }

  /** Position `i > 0` of the rewrite is position `i - 1` of the rewrite of the tail. */
  lemma CanonicalizeTailAt(s: string, upper: bool, i: int)
    requires 1 <= i < |s|
    ensures Canonicalize(s, upper)[i] == Canonicalize(s[1..], s[0] == '-')[i - 1]
    ensures s[1..][i - 1] == s[i] && UpperAt(s[1..], i - 1, s[0] == '-') == UpperAt(s, i, upper)
  {
  }

  /** The rewrite puts each letter in the case its position calls for. */
  lemma {:induction false} CanonicalizeCase(s: string, upper: bool)
    ensures forall i :: 0 <= i < |s| ==> Canonicalize(s, upper)[i] == CaseFor(s[i], UpperAt(s, i, upper))
  {
    if s != [] {
      CanonicalizeCase(s[1..], s[0] == '-');
      forall i | 0 <= i < |s|
        ensures Canonicalize(s, upper)[i] == CaseFor(s[i], UpperAt(s, i, upper))
      {
        if i > 0 {
          CanonicalizeTailAt(s, upper, i);
        }
      }
    }
  }

  lemma {:induction false} CanonicalizeIdempotent(s: string, upper: bool)
    requires AllToken(s)
    ensures AllToken(Canonicalize(s, upper))
    ensures Canonicalize(Canonicalize(s, upper), upper) == Canonicalize(s, upper)
  {
    if s != [] {
      var c := CaseFor(s[0], upper);
      assert AllToken(s[1..]) by {
        forall i | 0 <= i < |s| - 1 ensures IsTokenChar(s[1..][i]) { assert s[1..][i] == s[i + 1]; }
      }
      CanonicalizeIdempotent(s[1..], s[0] == '-');
      var t := Canonicalize(s, upper);
      assert t == [c] + Canonicalize(s[1..], s[0] == '-');
      assert t[1..] == Canonicalize(s[1..], s[0] == '-');
      assert CaseFor(c, upper) == c;
      assert forall i | 1 <= i < |t| :: t[i] == t[1..][i - 1];
    }
  }

  /** A canonical key is its own canonical form, so repeated Sets hit one entry. */
  lemma CanonicalKeyIdempotent(key: string)
    ensures CanonicalKey(CanonicalKey(key)) == CanonicalKey(key)
  {
    if AllToken(key) {
      CanonicalizeIdempotent(key, true);
    }
  }

  /** The client's `apikey` header is stored under `Apikey`. */
  lemma ApiKeyCanonical()
    ensures CanonicalKey("apikey") == "Apikey"
  {
    assert AllToken("apikey");
    assert Canonicalize("y", false) == "y";
    assert Canonicalize("ey", false) == "ey";
    assert Canonicalize("key", false) == "key";
    assert Canonicalize("ikey", false) == "ikey";
    assert Canonicalize("pikey", false) == "pikey";
    assert CaseFor('a', true) == 'A';
  }

  /** One step of the case rewrite over a character it leaves as it is. */
  lemma CanonicalizeKeeps(c: char, t: string, upper: bool)
    requires CaseFor(c, upper) == c && Canonicalize(t, c == '-') == t
    ensures Canonicalize([c] + t, upper) == [c] + t
  {
    assert ([c] + t)[1..] == t;
  }

  /** The case rewrite works piece by piece: the second piece starts in the state the first ends in. */
  lemma {:induction false} CanonicalizeAppend(a: string, b: string, upper: bool)
    requires a != []
    ensures Canonicalize(a + b, upper) == Canonicalize(a, upper) + Canonicalize(b, a[|a| - 1] == '-')
  {
    assert (a + b)[1..] == a[1..] + b;
    if |a| > 1 {
      CanonicalizeAppend(a[1..], b, a[0] == '-');
    } else {
      assert a[1..] == [];
    }
  }

  lemma ConCanonical()
    ensures Canonicalize("Con", true) == "Con"
  {
    CanonicalizeKeeps('n', "", false);
    CanonicalizeKeeps('o', "n", false);
    CanonicalizeKeeps('C', "on", true);
  }

  lemma TentCanonical()
    ensures Canonicalize("tent", false) == "tent"
  {
    CanonicalizeKeeps('t', "", false);
    CanonicalizeKeeps('n', "t", false);
    CanonicalizeKeeps('e', "nt", false);
    CanonicalizeKeeps('t', "ent", false);
  }

  lemma ContentCanonical()
    ensures Canonicalize("Content", true) == "Content"
  {
    ConCanonical();
    TentCanonical();
    assert "Content" == "Con" + "tent";
    CanonicalizeAppend("Con", "tent", true);
  }

  lemma TypeCanonical()
    ensures Canonicalize("-Type", false) == "-Type"
  {
    CanonicalizeKeeps('e', "", false);
    CanonicalizeKeeps('p', "e", false);
    CanonicalizeKeeps('y', "pe", false);
    CanonicalizeKeeps('T', "ype", true);
    CanonicalizeKeeps('-', "Type", false);
  }

  /** `Content-Type` is already canonical, so both Sets of it address one entry. */
  lemma ContentTypeCanonical()
    ensures CanonicalKey("Content-Type") == "Content-Type"
  {
    assert AllToken("Content-Type");
    assert "Content-Type" == "Content" + "-Type";
    CanonicalizeAppend("Content", "-Type", true);
    ContentCanonical();
    TypeCanonical();
  }

  /** http.Header, a map that several holders share and update in place. */
  class Header {
    var entries: map<string, seq<string>>

    /** `http.Header{}`. */
    constructor ()
      ensures entries == map[]
    {
      entries := map[];
    }

    /** `Header.Set`: the canonical key now has exactly the one given value; no other entry changes. */
    method Set(key: string, value: string)
      modifies this
      ensures entries == old(entries)[CanonicalKey(key) := [value]]
    {
      entries := entries[CanonicalKey(key) := [value]];
    }
  }
}
