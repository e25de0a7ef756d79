/**
  The timestamp type of the records, `date` (main.go:162-164), and its JSON
  decoding `date.UnmarshalJSON` (main.go:347-357): strip the quotes, parse
  with the fixed layout, and update the receiver only on success.
*/
module Timestamp {
  import opened Wrappers

  /** Go's reference-time layout for `YYYY-MM-DD HH:MM:SS`. */
  const Layout: string := "2006-01-02 15:04:05"

  /** A time.Time value, by its calendar fields in UTC (the layout carries no zone). */
  datatype Time = Time(year: int, month: int, day: int, hour: int, minute: int, second: int, nanosecond: int)

  /** The error time.Parse reports. */
  datatype ParseError = ParseError(layout: string, value: string, message: string)

  /** `n` copies of `c`. */
  function Repeat(c: char, n: nat): (r: string)
    ensures |r| == n
  {
    if n == 0 then [] else [c] + Repeat(c, n - 1)
  }

  /**
    The leading run of `c` removed (strings.TrimLeft with a one-byte
    cutset): a suffix of `s` that does not start with `c`, and everything
    cut off is `c`.
  */
  function TrimLeft(s: string, c: char): (r: string)
    ensures |r| <= |s| && r == s[|s| - |r|..]
    ensures forall i :: 0 <= i < |s| - |r| ==> s[i] == c
    ensures r == [] || r[0] != c
  {
    if s != [] && s[0] == c then TrimLeft(s[1..], c) else s
  }

  /**
    The trailing run of `c` removed (strings.TrimRight with a one-byte
    cutset): a prefix of `s` that does not end with `c`, and everything
    cut off is `c`.
  */
  function TrimRight(s: string, c: char): (r: string)
    ensures |r| <= |s| && r == s[..|r|]
    ensures forall i :: |r| <= i < |s| ==> s[i] == c
    ensures r == [] || r[|r| - 1] != c
  {
    if s != [] && s[|s| - 1] == c then TrimRight(s[..|s| - 1], c) else s
  }

  /**
    `strings.Trim(s, cutset)` for a one-character ASCII cutset, as the
    decoder calls it with `"`. The model takes off the leading run first
    and then the trailing run; the order does not change the result.
  */
  function Trim(s: string, c: char): (r: string)
    ensures r == [] || (r[0] != c && r[|r| - 1] != c)
  {
    var l := TrimLeft(s, c);
    var r := TrimRight(l, c);
    assert r != [] ==> r[0] == l[0];
    r
  }

  /** Every string is its trimmed core at some offset, with only `c` before and after it. */
  lemma TrimSplits(s: string, c: char) returns (a: nat)
    ensures a + |Trim(s, c)| <= |s| && s[a..a + |Trim(s, c)|] == Trim(s, c)
    ensures forall i :: 0 <= i < a ==> s[i] == c
    ensures forall i :: a + |Trim(s, c)| <= i < |s| ==> s[i] == c
  {
    var l := TrimLeft(s, c);
    var r := Trim(s, c);
    a := |s| - |l|;
    assert r == l[..|r|];
    assert forall i :: |r| <= i < |l| ==> l[i] == c;
    forall i | a + |r| <= i < |s| ensures s[i] == c {
      assert s[i] == l[i - a];
    }
  }

  lemma {:induction false} RepeatAt(c: char, n: nat)
    ensures forall i :: 0 <= i < n ==> Repeat(c, n)[i] == c
  {
    if n > 0 {
      RepeatAt(c, n - 1);
      assert forall i :: 1 <= i < n ==> Repeat(c, n)[i] == Repeat(c, n - 1)[i - 1];
    }
  }

  lemma TrimLeftOf(c: char, a: nat, core: string)
    requires core == [] || core[0] != c
    ensures TrimLeft(Repeat(c, a) + core, c) == core
  {
    var s := Repeat(c, a) + core;
    var r := TrimLeft(s, c);
    RepeatAt(c, a);
    assert forall i :: 0 <= i < a ==> s[i] == Repeat(c, a)[i];
    assert core != [] ==> s[a] == core[0];
    assert |r| == |core|;
    assert s[a..] == core;
  }

  lemma TrimRightOf(c: char, core: string, b: nat)
    requires core == [] || core[|core| - 1] != c
    ensures TrimRight(core + Repeat(c, b), c) == core
  {
    var s := core + Repeat(c, b);
    var r := TrimRight(s, c);
    RepeatAt(c, b);
    assert forall i :: |core| <= i < |s| ==> s[i] == Repeat(c, b)[i - |core|];
    assert core != [] ==> s[|core| - 1] == core[|core| - 1];
    assert |r| == |core|;
    assert s[..|core|] == core;
  }

  lemma TrimAround(c: char, a: nat, core: string, b: nat)
    requires core != [] && core[0] != c && core[|core| - 1] != c
    ensures Trim(Repeat(c, a) + (core + Repeat(c, b)), c) == core
  {
    TrimLeftOf(c, a, core + Repeat(c, b));
    TrimRightOf(c, core, b);
  }

  /**
    Trimming takes off exactly the runs of the character at both ends: for
    any text that neither starts nor ends with it, surrounding the text with
    runs of it and trimming gives the text back.
  */
  lemma TrimOf(c: char, a: nat, core: string, b: nat)
    requires core == [] || (core[0] != c && core[|core| - 1] != c)
    ensures Trim(Repeat(c, a) + (core + Repeat(c, b)), c) == core
  {
    if core == [] {
      var s := Repeat(c, a) + (core + Repeat(c, b));
      RepeatAt(c, a);
      RepeatAt(c, b);
      assert forall i :: 0 <= i < |s| ==> s[i] == c;
      assert TrimLeft(s, c) == [];
    } else {
      TrimAround(c, a, core, b);
    }
  }

  /** Trimming twice is trimming once. */
  lemma TrimIdempotent(s: string, c: char)
    ensures Trim(Trim(s, c), c) == Trim(s, c)
  {
    var r := Trim(s, c);
    TrimOf(c, 0, r, 0);
    assert Repeat(c, 0) + (r + Repeat(c, 0)) == r;
  }

  /** A timestamp quoted as JSON has its quotes taken off. */
  lemma ExampleQuotedTimestamp()
    ensures Trim("\"2021-03-04 05:06:07\"", '"') == "2021-03-04 05:06:07"
  {
    var core := "2021-03-04 05:06:07";
    assert Repeat('"', 1) + (core + Repeat('"', 1)) == "\"2021-03-04 05:06:07\"" by {
      assert Repeat('"', 1) == "\"";
    }
    TrimOf('"', 1, core, 1);
  }

  /**
    The `date` record: a time.Time updated in place by the JSON decoder.
    `parse` below stands for time.Parse, whose calendar checks the model
    does not define.
  */
  class Date {
    var time: Time

    constructor (t: Time)
      ensures time == t
    {
      time := t;
    }

    /**
      `UnmarshalJSON`: parse the input with every leading and trailing `"`
      removed. On failure the error is returned and the time is left as it
      was; on success the time is the parsed value.
    */
    method UnmarshalJSON(input: string, parse: (string, string) -> Result<Time, ParseError>)
      returns (err: Option<ParseError>)
      modifies this
      ensures parse(Layout, Trim(input, '"')).Failure? ==>
        err == Some(parse(Layout, Trim(input, '"')).error) && time == old(time)
      ensures parse(Layout, Trim(input, '"')).Success? ==>
        err == None && time == parse(Layout, Trim(input, '"')).value
    {
      var strInput := Trim(input, '"');
      var parsed := parse(Layout, strInput);
      if parsed.Failure? {
        return Some(parsed.error);
      }
      time := parsed.value;
      return None;
    }
  }
}
