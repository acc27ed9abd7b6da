/** The string operations the components rely on, as Rust's standard library defines them. */
module Text {

  /** The Unicode `White_Space` property. */
  predicate IsWhitespace(c: char) {
    var n := c as int;
    || 0x9 <= n <= 0xD || n == 0x20 || n == 0x85 || n == 0xA0 || n == 0x1680
    || 0x2000 <= n <= 0x200A || n == 0x2028 || n == 0x2029 || n == 0x202F || n == 0x205F || n == 0x3000
  }

  function TrimStart(s: string): (t: string)
    ensures t == [] || !IsWhitespace(t[0])
  {
    if s != [] && IsWhitespace(s[0]) then TrimStart(s[1..]) else s
  }

  /** What `TrimStart` drops is a prefix of white space. */
  lemma {:induction false} TrimStartDrops(s: string) returns (n: nat)
    ensures n <= |s| && TrimStart(s) == s[n..] && forall i :: 0 <= i < n ==> IsWhitespace(s[i])
  {
    hide IsWhitespace;
    n := 0;
    if s != [] && IsWhitespace(s[0]) {
      var m := TrimStartDrops(s[1..]);
      n := m + 1;
      assert s[1..][m..] == s[n..];
      assert forall i :: 1 <= i < n ==> s[i] == s[1..][i - 1];
    }
  }

  function TrimEnd(s: string): (t: string)
    ensures t == [] || !IsWhitespace(t[|t| - 1])
    ensures t <= s && forall i :: |t| <= i < |s| ==> IsWhitespace(s[i])
  {
    if s != [] && IsWhitespace(s[|s| - 1]) then TrimEnd(s[..|s| - 1]) else s
  }

  function Trim(s: string): string {
    TrimEnd(TrimStart(s))
  }

  predicate Blank(s: string) {
    forall i :: 0 <= i < |s| ==> IsWhitespace(s[i])
  }

  /** A string that neither begins nor ends with white space. */
  predicate IsTrimmed(s: string) {
    s != [] && !IsWhitespace(s[0]) && !IsWhitespace(s[|s| - 1])
  }

  /** Trimming removes exactly the white space around a trimmed string. */
  lemma TrimAround(lead: string, s: string, tail: string)
    requires Blank(lead) && IsTrimmed(s) && Blank(tail)
    ensures Trim(lead + s + tail) == s
  {
    hide IsWhitespace, TrimStart, TrimEnd;
    assert lead + s + tail == lead + (s + tail);
    TrimStartOf(lead, s + tail);
    TrimEndOf(s, tail);
  }

  lemma {:induction false} TrimStartOf(lead: string, s: string)
    requires Blank(lead) && s != [] && !IsWhitespace(s[0])
    ensures TrimStart(lead + s) == s
    decreases |lead|
  {
    hide IsWhitespace;
    if lead == [] {
      assert lead + s == s;
    } else {
      assert (lead + s)[1..] == lead[1..] + s;
      assert Blank(lead[1..]);
      TrimStartOf(lead[1..], s);
    }
  }

  lemma {:induction false} TrimEndOf(s: string, tail: string)
    requires Blank(tail) && s != [] && !IsWhitespace(s[|s| - 1])
    ensures TrimEnd(s + tail) == s
    decreases |tail|
  {
    hide IsWhitespace;
    if tail == [] {
      assert s + tail == s;
    } else {
      var shorter := tail[..|tail| - 1];
      assert (s + tail)[..|s + tail| - 1] == s + shorter;
      assert Blank(shorter);
      TrimEndOf(s, shorter);
    }
  }

  predicate IsBlank(s: string) {
    Trim(s) == []
  }

  /** A string is blank exactly when every character is white space. */
  lemma BlankIff(s: string)
    ensures IsBlank(s) <==> forall i :: 0 <= i < |s| ==> IsWhitespace(s[i])
  {
    var t := TrimStart(s);
    var n := TrimStartDrops(s);
    if t != [] {
      assert t[0] == s[n];
      assert Trim(s) != [] by { assert !IsWhitespace(t[0]); }
    } else {
      assert n == |s|;
    }
  }

  predicate StartsWith(s: string, prefix: string) {
    prefix <= s
  }

  /** `trim_start_matches`: drops the prefix as often as it occurs. */
  function TrimStartMatches(s: string, prefix: string): (t: string)
    requires prefix != []
    ensures !StartsWith(t, prefix)
    ensures StartsWith(s, prefix) || t == s
    decreases |s|
  {
    if StartsWith(s, prefix) then TrimStartMatches(s[|prefix|..], prefix) else s
  }

  function Copies(prefix: string, n: nat): string {
    if n == 0 then "" else prefix + Copies(prefix, n - 1)
  }

  /** It drops every copy of the prefix at the start and keeps the rest. */
  lemma {:induction false} TrimStartMatchesOf(prefix: string, n: nat, rest: string)
    requires prefix != [] && !StartsWith(rest, prefix)
    ensures TrimStartMatches(Copies(prefix, n) + rest, prefix) == rest
  {
    if n == 0 {
      assert Copies(prefix, 0) + rest == rest;
    } else {
      var s := Copies(prefix, n) + rest;
      assert s == prefix + (Copies(prefix, n - 1) + rest);
      assert s[|prefix|..] == Copies(prefix, n - 1) + rest;
      TrimStartMatchesOf(prefix, n - 1, rest);
    }
  }

  function AsciiLower(s: string): (t: string)
    ensures |t| == |s|
    ensures forall i :: 0 <= i < |s| ==> t[i] == if 'A' <= s[i] <= 'Z' then ((s[i] as int) + 32) as char else s[i]
  {
    seq(|s|, i requires 0 <= i < |s| => if 'A' <= s[i] <= 'Z' then ((s[i] as int) + 32) as char else s[i])
  }
}
