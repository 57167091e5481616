// Strings as the service handles them: ECMAScript trimming, code-unit order, decimal numerals.

module Text {

  datatype Option<+T> = None | Some(value: T)

  datatype Result<+T, +E> = Ok(value: T) | Err(error: E)

  // ECMAScript white space and line terminators, the characters that String.prototype.trim removes.
  predicate IsSpace(c: char) {
    || '\U{0009}' <= c <= '\U{000D}'
    || c == ' '
    || c == '\U{00A0}'
    || c == '\U{1680}'
    || '\U{2000}' <= c <= '\U{200A}'
    || c == '\U{2028}'
    || c == '\U{2029}'
    || c == '\U{202F}'
    || c == '\U{205F}'
    || c == '\U{3000}'
    || c == '\U{FEFF}'
  }

  function TrimStart(s: string): (r: string)
    ensures |r| <= |s|
    ensures r != "" ==> !IsSpace(r[0])
    ensures r == s || (s != "" && IsSpace(s[0]))
  {
    if s != "" && IsSpace(s[0]) then TrimStart(s[1..]) else s
  }

  function TrimEnd(s: string): (r: string)
    ensures r <= s
    ensures r != "" ==> !IsSpace(r[|r| - 1])
    ensures r == s || (s != "" && IsSpace(s[|s| - 1]))
  {
    if s != "" && IsSpace(s[|s| - 1]) then TrimEnd(s[..|s| - 1]) else s
  }

  function Trim(s: string): string {
    TrimEnd(TrimStart(s))
  }

  // A string that trimming leaves alone.
  predicate Trimmed(s: string) {
    s != "" ==> !IsSpace(s[0]) && !IsSpace(s[|s| - 1])
  }

  // An id that trimming leaves alone and that is not empty, such as a UUID.
  predicate CleanId(id: string) {
    id != "" && Trimmed(id)
  }

  lemma TrimIsTrimmed(s: string)
    ensures Trimmed(Trim(s))
    ensures Trim(Trim(s)) == Trim(s)
    ensures Trim(s) == s <==> Trimmed(s)
  {
  }

  predicate Blank(s: string) {
    forall i :: 0 <= i < |s| ==> IsSpace(s[i])
  }

  lemma {:induction false} TrimStartCuts(s: string) returns (n: nat)
    ensures n <= |s| && Blank(s[..n]) && TrimStart(s) == s[n..]
  {
    n := 0;
    if s != "" && IsSpace(s[0]) {
      n := TrimStartCuts(s[1..]);
      n := n + 1;
      assert s[..n] == [s[0]] + s[1..][..n - 1] && s[1..][n - 1..] == s[n..];
    }
  }

  lemma {:induction false} TrimEndCuts(s: string)
    ensures Blank(s[|TrimEnd(s)|..])
  {
    if s != "" && IsSpace(s[|s| - 1]) {
      TrimEndCuts(s[..|s| - 1]);
      var m := |TrimEnd(s)|;
      assert s[m..] == s[..|s| - 1][m..] + [s[|s| - 1]];
    }
  }

  // Trimming cuts off white space at both ends and nothing else.
  lemma TrimCutsSpaces(s: string) returns (n: nat, m: nat)
    ensures n <= m <= |s| && Trim(s) == s[n..m] && Blank(s[..n]) && Blank(s[m..])
  {
    hide TrimStart, TrimEnd, IsSpace, Blank;
    n := TrimStartCuts(s);
    TrimEndCuts(s[n..]);
    m := n + |Trim(s)|;
    assert s[n..][|Trim(s)|..] == s[m..];
  }

  // Order of strings by code unit, as Array.prototype.sort and the database compare ids.
  predicate Less(a: string, b: string) {
    if b == "" then false
    else if a == "" then true
    else if a[0] != b[0] then a[0] < b[0]
    else Less(a[1..], b[1..])
  }

  lemma {:induction false} LessTotal(a: string, b: string)
    ensures Less(a, b) || Less(b, a) || a == b
    ensures !(Less(a, b) && Less(b, a))
    ensures !Less(a, a)
  {
    if a != "" && a != b { LessTotal(a[1..], a[1..]); }
    if a != "" && b != "" && a[0] == b[0] {
      LessTotal(a[1..], b[1..]);
      assert a == [a[0]] + a[1..] && b == [b[0]] + b[1..];
    }
  }

  // One is a proper beginning of the other, or has the smaller character where they first differ.
  lemma {:induction false} LessByFirstDifference(a: string, b: string, n: nat)
    requires n <= |a| && n <= |b| && a[..n] == b[..n]
    requires (n < |a| && n < |b|) ==> a[n] != b[n]
    ensures Less(a, b) <==> if n < |a| && n < |b| then a[n] < b[n] else n == |a| < |b|
  {
    if n > 0 {
      assert a[0] == a[..n][0] == b[..n][0] == b[0];
      assert a[1..][..n - 1] == a[..n][1..] && b[1..][..n - 1] == b[..n][1..];
      LessByFirstDifference(a[1..], b[1..], n - 1);
    }
  }

  lemma {:induction false} LessTransitive(a: string, b: string, c: string)
    requires Less(a, b) && Less(b, c)
    ensures Less(a, c)
  {
    if a != "" && a[0] == b[0] == c[0] { LessTransitive(a[1..], b[1..], c[1..]); }
  }
}
