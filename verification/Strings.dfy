/** The string library functions that annotation parsing rests on, and what they promise. */
module Strings {

  /** unicode.IsSpace */
  predicate IsSpace(c: char) {
    || c == ' ' || '\t' <= c <= '\r' || c == '\U{85}' || c == '\U{A0}' || c == '\U{1680}'
    || '\U{2000}' <= c <= '\U{200A}' || c == '\U{2028}' || c == '\U{2029}' || c == '\U{202F}' || c == '\U{205F}'
    || c == '\U{3000}'
  }

  predicate Blank(s: string) {
    forall i :: 0 <= i < |s| ==> IsSpace(s[i])
  }

  function TrimLeft(s: string): string {
    if s != "" && IsSpace(s[0]) then TrimLeft(s[1..]) else s
  }

  function TrimRight(s: string): string {
    if s != "" && IsSpace(s[|s| - 1]) then TrimRight(s[..|s| - 1]) else s
  }

  /** strings.TrimSpace */
  function TrimSpace(s: string): string {
    TrimRight(TrimLeft(s))
  }

  /** Neither end is white space. */
  predicate Trimmed(s: string) {
    s == "" || (!IsSpace(s[0]) && !IsSpace(s[|s| - 1]))
  }

  /** Everything before `i` is white space, and `i` is not. */
  ghost predicate StartsAt(s: string, i: int) {
    0 <= i <= |s| && Blank(s[..i]) && (i == |s| || !IsSpace(s[i]))
  }

  /** Everything from `j` on is white space, and what stands before it is not. */
  ghost predicate EndsAt(s: string, j: int) {
    0 <= j <= |s| && Blank(s[j..]) && (j == 0 || !IsSpace(s[j - 1]))
  }

  lemma {:induction false} TrimLeftExact(s: string) returns (i: nat)
    ensures StartsAt(s, i) && TrimLeft(s) == s[i..]
  {
    i := 0;
    if s != "" && IsSpace(s[0]) {
      var k := TrimLeftExact(s[1..]);
      i := k + 1;
      assert s[..i] == [s[0]] + s[1..][..k];
      assert s[i..] == s[1..][k..];
    }
  }

  lemma {:induction false} TrimRightExact(s: string) returns (j: nat)
    ensures EndsAt(s, j) && TrimRight(s) == s[..j]
  {
    j := |s|;
    if s != "" && IsSpace(s[|s| - 1]) {
      var t := s[..|s| - 1];
      j := TrimRightExact(t);
      assert s[j..] == t[j..] + [s[|s| - 1]];
      assert s[..j] == t[..j];
      assert j > 0 ==> s[j - 1] == t[j - 1];
    }
  }

  /** Trimming takes white space off the ends, all of it, and nothing else. */
  lemma TrimExact(s: string) returns (i: nat, j: nat)
    ensures i <= j <= |s| && Blank(s[..i]) && Blank(s[j..]) && TrimSpace(s) == s[i..j]
    ensures Trimmed(TrimSpace(s))
  {
    i := TrimLeftExact(s);
    var t := s[i..];
    var k := TrimRightExact(t);
    j := i + k;
    assert s[j..] == t[k..] && s[i..j] == t[..k];
    if k > 0 {
      assert t[0] == s[i];
      assert t[..k][0] == t[0] && t[..k][k - 1] == t[k - 1];
    }
  }

  /** strings.Split by one character */
  function Split(s: string, sep: char): (parts: seq<string>)
    ensures |parts| > 0
  {
    if s == "" then [""] else
      var rest := Split(s[1..], sep);
      if s[0] == sep then [""] + rest else [[s[0]] + rest[0]] + rest[1..]
  }

  /** strings.Join */
  function Join(parts: seq<string>, sep: char): string {
    if parts == [] then "" else if |parts| == 1 then parts[0] else parts[0] + [sep] + Join(parts[1..], sep)
  }

  predicate Free(parts: seq<string>, sep: char) {
    forall i :: 0 <= i < |parts| ==> sep !in parts[i]
  }

  lemma {:induction false} SplitFree(s: string, sep: char)
    ensures Free(Split(s, sep), sep)
  {
    if s != "" { SplitFree(s[1..], sep); }
  }

  /** Joining undoes splitting. */
  lemma {:induction false} JoinSplit(s: string, sep: char)
    ensures Join(Split(s, sep), sep) == s
  {
    if s != "" {
      var rest := Split(s[1..], sep);
      JoinSplit(s[1..], sep);
      assert s == [s[0]] + s[1..];
      if s[0] == sep {
        assert ([""] + rest)[1..] == rest;
      } else if |rest| > 1 {
        var parts := [[s[0]] + rest[0]] + rest[1..];
        assert parts[1..] == rest[1..];
        assert [s[0]] + (rest[0] + [sep] + Join(rest[1..], sep)) == ([s[0]] + rest[0]) + [sep] + Join(rest[1..], sep);
      }
    }
  }

  lemma {:induction false} SplitPart(part: string, sep: char)
    requires sep !in part
    ensures Split(part, sep) == [part]
  {
    if part != "" {
      SplitPart(part[1..], sep);
      assert part == [part[0]] + part[1..];
    }
  }

  lemma {:induction false} SplitFirst(part: string, s: string, sep: char)
    requires sep !in part
    ensures Split(part + [sep] + s, sep) == [part] + Split(s, sep)
  {
    var all := part + [sep] + s;
    if part == "" {
      assert all == [sep] + s && all[1..] == s;
    } else {
      SplitFirst(part[1..], s, sep);
      assert all[1..] == part[1..] + [sep] + s;
      assert part == [part[0]] + part[1..];
    }
  }

  /** And splitting undoes joining, for parts without the separator. */
  lemma {:induction false} SplitJoin(parts: seq<string>, sep: char)
    requires parts != [] && Free(parts, sep)
    ensures Split(Join(parts, sep), sep) == parts
  {
    if |parts| == 1 {
      SplitPart(parts[0], sep);
    } else {
      SplitJoin(parts[1..], sep);
      SplitFirst(parts[0], Join(parts[1..], sep), sep);
    }
  }
}
