/** Options, and the small amount of text handling the programs share. */
module Text {

  datatype Option<+T> = None | Some(value: T)

  /** The position of the first `c` in `s`, or `|s|` when there is none. */
  function IndexOf(s: string, c: char): (i: nat)
    ensures i <= |s|
    ensures forall k :: 0 <= k < i ==> s[k] != c
    ensures i < |s| ==> s[i] == c
  {
    if s == [] then 0 else if s[0] == c then 0 else 1 + IndexOf(s[1..], c)
  }

  lemma IndexOfPrefix(a: string, c: char, b: string)
    requires c !in a
    ensures IndexOf(a + [c] + b, c) == |a|
  {
    var s := a + [c] + b;
    assert s[|a|] == c;
    assert forall k :: 0 <= k < |a| ==> s[k] == a[k] != c;
  }

  /** The number of leading characters of `s` that satisfy `p`. */
  function Span(s: string, p: char -> bool): (n: nat)
    ensures n <= |s|
    ensures forall k :: 0 <= k < n ==> p(s[k])
    ensures n < |s| ==> !p(s[n])
  {
    if s == [] then 0 else if p(s[0]) then 1 + Span(s[1..], p) else 0
  }

  lemma SpanIs(a: string, b: string, p: char -> bool)
    requires forall k :: 0 <= k < |a| ==> p(a[k])
    requires b == "" || !p(b[0])
    ensures Span(a + b, p) == |a|
    ensures (a + b)[..|a|] == a && (a + b)[|a|..] == b
  {
    var s := a + b;
    assert forall k :: 0 <= k < |a| ==> s[k] == a[k];
    assert b != "" ==> s[|a|] == b[0];
  }

  predicate IsDigit(c: char) { '0' <= c <= '9' }

  predicate IsLetter(c: char) { 'a' <= c <= 'z' || 'A' <= c <= 'Z' }

  predicate IsSpace(c: char) { c == ' ' || '\t' <= c <= '\r' }

  predicate IsControl(c: char) { c < ' ' || c == 127 as char }

  function Lower(c: char): (d: char)
    ensures 'A' <= c <= 'Z' ==> 'a' <= d <= 'z' && d as int - 'a' as int == c as int - 'A' as int
    ensures !('A' <= c <= 'Z') ==> d == c
  {
    if 'A' <= c <= 'Z' then (c as int + 32) as char else c
  }

  function LowerAll(s: string): (t: string)
    ensures |t| == |s|
    ensures forall k :: 0 <= k < |s| ==> t[k] == Lower(s[k])
  {
    seq(|s|, i requires 0 <= i < |s| => Lower(s[i]))
  }

  /** What is left of `s` without the characters that satisfy `drop`. */
  function Without(s: string, drop: char -> bool): (t: string)
    ensures |t| <= |s|
    ensures forall k :: 0 <= k < |t| ==> t[k] in s && !drop(t[k])
  {
    if s == "" then "" else (if drop(s[0]) then "" else [s[0]]) + Without(s[1..], drop)
  }

  function Take(s: string, n: nat): string { if |s| <= n then s else s[..n] }

  function ForwardSlashes(s: string): (t: string)
    ensures |t| == |s| && forall k :: 0 <= k < |s| ==> t[k] == if s[k] == '\\' then '/' else s[k]
  {
    seq(|s|, i requires 0 <= i < |s| => if s[i] == '\\' then '/' else s[i])
  }

  function TrimLeft(s: string): string { if s != "" && IsSpace(s[0]) then TrimLeft(s[1..]) else s }

  function TrimRight(s: string): string {
    if s != "" && IsSpace(s[|s| - 1]) then TrimRight(s[..|s| - 1]) else s
  }

  function Trim(s: string): (t: string)
    ensures forall c <- t :: c in s
  {
    TrimLeftEnds(s);
    TrimRightEnds(TrimLeft(s));
    TrimRight(TrimLeft(s))
  }

  lemma {:induction false} TrimLeftEnds(s: string)
    ensures TrimLeft(s) == "" || !IsSpace(TrimLeft(s)[0])
    ensures forall c <- TrimLeft(s) :: c in s
  {
    if s != "" && IsSpace(s[0]) { TrimLeftEnds(s[1..]); }
  }

  lemma {:induction false} TrimRightEnds(s: string)
    ensures TrimRight(s) <= s
    ensures TrimRight(s) == "" || !IsSpace(TrimRight(s)[|TrimRight(s)| - 1])
  {
    if s != "" && IsSpace(s[|s| - 1]) { TrimRightEnds(s[..|s| - 1]); }
  }

  /** Trimming takes white space from both ends, and all of it. */
  lemma TrimIs(s: string) returns (a: string, b: string)
    ensures s == a + Trim(s) + b && forall c :: c in a || c in b ==> IsSpace(c)
    ensures Trim(s) != "" ==> !IsSpace(Trim(s)[0]) && !IsSpace(Trim(s)[|Trim(s)| - 1])
  {
    var t := TrimLeft(s);
    a := TrimLeftIs(s);
    b := TrimRightIs(t);
    TrimRightEnds(t);
    TrimLeftEnds(s);
    assert s == a + (Trim(s) + b);
  }

  predicate Spaces(s: string) { forall c <- s :: IsSpace(c) }

  /** `c` is the first `n` characters of `s` once its white space is taken off at both ends. */
  ghost predicate IsTrimmedTo(s: string, n: nat, c: string) {
    if Spaces(s) then c == "" else exists a, d, b :: CutsTrimmed(s, n, a, c, d, b)
  }

  predicate CutsTrimmed(s: string, n: nat, a: string, c: string, d: string, b: string) {
    && s == a + (c + d) + b && Spaces(a) && Spaces(b)
    && c + d != "" && !IsSpace((c + d)[0]) && !IsSpace((c + d)[|c + d| - 1])
    && (if d == "" then |c| <= n else |c| == n)
  }

  lemma TrimmedTo(s: string, n: nat)
    ensures IsTrimmedTo(s, n, Take(Trim(s), n))
  {
    hide Trim;
    var t := Trim(s);
    var a, b := TrimIs(s);
    if t == "" {
      assert s == a + b && Spaces(s);
    } else {
      var c, d := Take(t, n), if |t| <= n then "" else t[n..];
      assert t == c + d;
      assert CutsTrimmed(s, n, a, c, d, b);
      assert t[0] == s[|a|];
    }
  }

  lemma {:induction false} TrimLeftIs(s: string) returns (a: string)
    ensures s == a + TrimLeft(s) && forall c <- a :: IsSpace(c)
  {
    a := "";
    if s != "" && IsSpace(s[0]) {
      a := TrimLeftIs(s[1..]);
      a := [s[0]] + a;
    }
  }

  lemma {:induction false} TrimRightIs(s: string) returns (b: string)
    ensures s == TrimRight(s) + b && forall c <- b :: IsSpace(c)
  {
    b := "";
    if s != "" && IsSpace(s[|s| - 1]) {
      b := TrimRightIs(s[..|s| - 1]);
      b := b + [s[|s| - 1]];
    }
  }

  function OrElse(s: string, other: string): string { if s == "" then other else s }

  predicate StartsWith(s: string, p: string) { |p| <= |s| && s[..|p|] == p }

  predicate EndsWith(s: string, e: string) { |e| <= |s| && s[|s| - |e|..] == e }

  predicate Contains(s: string, p: string) { exists k :: 0 <= k <= |s| && StartsWith(s[k..], p) }

  /** Decimal notation, and the number it denotes. */
  function Digit(d: nat): char
    requires d < 10
  {
    (d + '0' as int) as char
  }

  function Dec(n: nat): (s: string)
    ensures s != []
    ensures forall k :: 0 <= k < |s| ==> IsDigit(s[k])
  {
    if n < 10 then [Digit(n)] else Dec(n / 10) + [Digit(n % 10)]
  }

  function DecVal(s: string): nat
    requires forall k :: 0 <= k < |s| ==> IsDigit(s[k])
  {
    if s == [] then 0
    else assert IsDigit(s[|s| - 1]);
         10 * DecVal(s[..|s| - 1]) + (s[|s| - 1] as int - '0' as int)
  }

  lemma {:induction false} DecRoundTrip(n: nat)
    ensures DecVal(Dec(n)) == n
  {
    if n >= 10 {
      DecRoundTrip(n / 10);
      assert Dec(n)[..|Dec(n)| - 1] == Dec(n / 10);
    }
  }

  lemma DecInjective(m: nat, n: nat)
    requires Dec(m) == Dec(n)
    ensures m == n
  {
    DecRoundTrip(m);
    DecRoundTrip(n);
  }

  /** The pieces between separators, and the pieces put together again. */
  function Split(s: string, c: char): (r: seq<string>)
    ensures r != []
    decreases |s|
  {
    var i := IndexOf(s, c);
    if i == |s| then [s] else [s[..i]] + Split(s[i + 1..], c)
  }

  function Join(parts: seq<string>, c: char): string {
    if parts == [] then "" else if |parts| == 1 then parts[0] else parts[0] + [c] + Join(parts[1..], c)
  }

  lemma {:induction false} SplitJoin(parts: seq<string>, c: char)
    requires parts != [] && forall k :: 0 <= k < |parts| ==> c !in parts[k]
    ensures Split(Join(parts, c), c) == parts
  {
    var s := Join(parts, c);
    assert c !in parts[0];
    if |parts| == 1 {
      assert IndexOf(s, c) == |s|;
    } else {
      SplitJoin(parts[1..], c);
      assert s == parts[0] + [c] + Join(parts[1..], c);
      IndexOfPrefix(parts[0], c, Join(parts[1..], c));
      assert s[..|parts[0]|] == parts[0] && s[|parts[0]| + 1..] == Join(parts[1..], c);
    }
  }

  lemma {:induction false} SplitClean(s: string, c: char)
    ensures forall k :: 0 <= k < |Split(s, c)| ==> c !in Split(s, c)[k]
    decreases |s|
  {
    var i := IndexOf(s, c);
    if i < |s| { SplitClean(s[i + 1..], c); }
  }
}
