/** The few Python str methods the bot relies on: strip(), startswith() and split(). */
module Strings {

  /** The characters Python's str.strip() removes that this model knows of (ASCII only). */
  predicate IsSpace(c: char)
  {
    c == ' ' || '\t' <= c <= '\r' || '\U{1C}' <= c <= '\U{1F}'
  }

  /** s without its leading whitespace. */
  function TrimStart(s: string): (r: string)
    ensures |r| <= |s| && r == s[|s| - |r|..]
    ensures forall i :: 0 <= i < |s| - |r| ==> IsSpace(s[i])
    ensures r == [] || !IsSpace(r[0])
    decreases |s|
  {
    if s != [] && IsSpace(s[0]) then TrimStart(s[1..]) else s
  }

  /** s without its trailing whitespace. */
  function TrimEnd(s: string): (r: string)
    ensures |r| <= |s| && r == s[..|r|]
    ensures forall i :: |r| <= i < |s| ==> IsSpace(s[i])
    ensures r == [] || !IsSpace(r[|r| - 1])
    decreases |s|
  {
    if s != [] && IsSpace(s[|s| - 1]) then TrimEnd(s[..|s| - 1]) else s
  }

  /** str.strip(): s without its leading and its trailing whitespace. */
  function Strip(s: string): (r: string)
    ensures |r| <= |s|
    ensures r == [] || (!IsSpace(r[0]) && !IsSpace(r[|r| - 1]))
  {
    TrimEnd(TrimStart(s))
  }

  /** What strip() cuts off: Strip(s) is the slice of s starting at offset `lead`, and
      everything before and after it is whitespace. */
  lemma StripIsSlice(s: string) returns (lead: nat)
    ensures lead + |Strip(s)| <= |s|
    ensures Strip(s) == s[lead..lead + |Strip(s)|]
    ensures forall k :: 0 <= k < lead ==> IsSpace(s[k])
    ensures forall k :: lead + |Strip(s)| <= k < |s| ==> IsSpace(s[k])
  {
    var t := TrimStart(s);
    lead := |s| - |t|;
    PrefixOfSuffix(s, lead, TrimEnd(t));
  }

  /** A prefix r of the suffix of s from lead on, whose own tail is whitespace, is a slice of s followed by whitespace. */
  lemma PrefixOfSuffix(s: string, lead: nat, r: string)
    requires lead <= |s| && |r| <= |s| - lead && r == s[lead..][..|r|]
    requires forall i :: |r| <= i < |s[lead..]| ==> IsSpace(s[lead..][i])
    ensures r == s[lead..lead + |r|]
    ensures forall k :: lead + |r| <= k < |s| ==> IsSpace(s[k])
  {
    forall k | lead + |r| <= k < |s| ensures IsSpace(s[k]) {
      assert s[k] == s[lead..][k - lead];
    }
  }

  predicate StartsWith(s: string, prefix: string)
  {
    |prefix| <= |s| && s[..|prefix|] == prefix
  }

  /** Stripping whitespace padding from a string that has none of its own gives the string back. */
  lemma StripPadded(before: string, s: string, after: string)
    requires |s| >= 1 && !IsSpace(s[0]) && !IsSpace(s[|s| - 1])
    requires forall i :: 0 <= i < |before| ==> IsSpace(before[i])
    requires forall i :: 0 <= i < |after| ==> IsSpace(after[i])
    ensures Strip(before + s + after) == s
  {
    TrimStartPadded(before, s + after);
    assert before + s + after == before + (s + after);
    TrimEndPadded(s, after);
  }

  lemma {:induction false} TrimStartPadded(pad: string, s: string)
    requires s == [] || !IsSpace(s[0])
    requires forall i :: 0 <= i < |pad| ==> IsSpace(pad[i])
    ensures TrimStart(pad + s) == s
    decreases |pad|
  {
    if pad != [] {
      assert (pad + s)[1..] == pad[1..] + s;
      TrimStartPadded(pad[1..], s);
    }
  }

  lemma {:induction false} TrimEndPadded(s: string, pad: string)
    requires s == [] || !IsSpace(s[|s| - 1])
    requires forall i :: 0 <= i < |pad| ==> IsSpace(pad[i])
    ensures TrimEnd(s + pad) == s
    decreases |pad|
  {
    if pad != [] {
      assert (s + pad)[..|s + pad| - 1] == s + pad[..|pad| - 1];
      TrimEndPadded(s, pad[..|pad| - 1]);
    }
  }

  /** The part of s before the first c, which is what s.split(c)[0] gives. */
  function TakeUntil(s: string, c: char): (r: string)
    ensures |r| <= |s| && r == s[..|r|]
    ensures c !in r
    ensures |r| == |s| || s[|r|] == c
    decreases |s|
  {
    if s == [] || s[0] == c then [] else [s[0]] + TakeUntil(s[1..], c)
  }
}
