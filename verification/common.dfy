/** Shared vocabulary: optional values, the exception outcome of a switch
    exchange, and the few Python string operations the services rely on
    (`in` on strings, `lower()`, `split('\n')`, `split()`, `isdigit()`),
    restricted to ASCII. */
module Common {

  datatype Option<T> = None | Some(value: T)

  /** Python truthiness of an optional string: present and non-empty. */
  predicate Truthy(o: Option<string>) {
    o.Some? && o.value != ""
  }

  /** `o or fallback` for an optional string. */
  function OrElse(o: Option<string>, fallback: string): (r: string)
    ensures Truthy(o) ==> r == o.value
    ensures !Truthy(o) ==> r == fallback
  {
    if Truthy(o) then o.value else fallback
  }

  /** What can be raised by a conversation with the switch. */
  datatype Fault = NotConnected | LinkError

  /** The outcome of a call that may raise: a value or a propagating exception. */
  datatype Reply<T> = Ok(value: T) | Raised(fault: Fault)

  // ---------------------------------------------------------------------
  // Substrings

  /** `t` occurs in `s` starting at index `i`. */
  predicate OccursAt(s: string, t: string, i: nat) {
    i + |t| <= |s| && s[i..i + |t|] == t
  }

  /** Python's `t in s`, as a left-to-right scan. */
  predicate Contains(s: string, t: string)
    decreases |s|
  {
    |t| <= |s| && (s[..|t|] == t || (|s| > 0 && Contains(s[1..], t)))
  }

  /** The scan finds `t` exactly when `t` occurs at some index of `s`. */
  lemma {:induction false} ContainsIff(s: string, t: string)
    ensures Contains(s, t) <==> exists i: nat :: OccursAt(s, t, i)
    decreases |s|
  {
    if |t| > |s| {
      forall i: nat ensures !OccursAt(s, t, i) { }
    } else if s[..|t|] == t {
      assert OccursAt(s, t, 0);
    } else {
      assert |s| > 0;
      ContainsIff(s[1..], t);
      if Contains(s[1..], t) {
        var i: nat :| OccursAt(s[1..], t, i);
        assert s[i + 1..i + 1 + |t|] == s[1..][i..i + |t|];
        assert OccursAt(s, t, i + 1);
      }
      if exists i: nat :: OccursAt(s, t, i) {
        var i: nat :| OccursAt(s, t, i);
        assert i != 0;
        assert s[1..][i - 1..i - 1 + |t|] == s[i..i + |t|];
        assert OccursAt(s[1..], t, i - 1);
      }
    }
  }

  /** Whatever surrounds it, a string contains `t` once `t` is written into it. */
  lemma ContainsInfix(a: string, t: string, b: string)
    ensures Contains(a + t + b, t)
  {
    var s := a + t + b;
    assert s[|a|..|a| + |t|] == t;
    assert OccursAt(s, t, |a|);
    ContainsIff(s, t);
  }

  // ---------------------------------------------------------------------
  // Case

  function LowerChar(c: char): char {
    if 'A' <= c <= 'Z' then (c as int - 'A' as int + 'a' as int) as char else c
  }

  /** `str.lower()` over ASCII letters. */
  function Lower(s: string): (r: string)
    ensures |r| == |s|
    ensures forall i :: 0 <= i < |s| ==> r[i] == LowerChar(s[i])
  {
    seq(|s|, i requires 0 <= i < |s| => LowerChar(s[i]))
  }

  /** Lower-casing twice is lower-casing once. */
  lemma LowerIdempotent(s: string)
    ensures Lower(Lower(s)) == Lower(s)
  {
  }

  // ---------------------------------------------------------------------
  // Character classes

  predicate IsSpace(c: char) {
    c == ' ' || c == '\t' || c == '\n' || c == '\r' || c == '\U{B}' || c == '\U{C}'
    || ('\U{1C}' <= c <= '\U{1F}')
  }

  predicate IsDigit(c: char) {
    '0' <= c <= '9'
  }

  /** `str.isdigit()`: non-empty and made of decimal digits only. */
  predicate IsDigits(s: string) {
    |s| > 0 && forall i :: 0 <= i < |s| ==> IsDigit(s[i])
  }

  // ---------------------------------------------------------------------
  // Line splitting: `s.split('\n')`

  /** The pieces between newlines; `n` newlines give `n + 1` pieces. */
  function SplitLines(s: string): (r: seq<string>)
    ensures |r| >= 1
    ensures forall i :: 0 <= i < |r| ==> '\n' !in r[i]
    decreases |s|
  {
    if '\n' !in s then [s]
    else
      var k := FirstNewline(s);
      [s[..k]] + SplitLines(s[k + 1..])
  }

  function FirstNewline(s: string): (k: nat)
    requires '\n' in s
    ensures k < |s| && s[k] == '\n' && '\n' !in s[..k]
  {
    if s[0] == '\n' then 0
    else
      assert '\n' in s[1..];
      var k := FirstNewline(s[1..]);
      assert s[..k + 1] == [s[0]] + s[1..][..k];
      k + 1
  }

  /** `'\n'.join(lines)` */
  function JoinLines(lines: seq<string>): string
    requires |lines| >= 1
  {
    if |lines| == 1 then lines[0] else lines[0] + "\n" + JoinLines(lines[1..])
  }

  /** Splitting at newlines loses nothing: joining the pieces gives the input back. */
  lemma {:induction false} SplitLinesJoin(s: string)
    ensures JoinLines(SplitLines(s)) == s
    decreases |s|
  {
    if '\n' in s {
      var k := FirstNewline(s);
      SplitLinesJoin(s[k + 1..]);
      assert s == s[..k] + "\n" + s[k + 1..];
    }
  }

  // ---------------------------------------------------------------------
  // Whitespace splitting: `s.split()`

  /** Index of the first non-space character at or after `i`. */
  function SkipSpace(s: string, i: nat): (j: nat)
    requires i <= |s|
    ensures i <= j <= |s|
    ensures forall k :: i <= k < j ==> IsSpace(s[k])
    ensures j < |s| ==> !IsSpace(s[j])
    decreases |s| - i
  {
    if i < |s| && IsSpace(s[i]) then SkipSpace(s, i + 1) else i
  }

  /** Index of the first space character at or after `i`. */
  function SkipWord(s: string, i: nat): (j: nat)
    requires i <= |s|
    ensures i <= j <= |s|
    ensures forall k :: i <= k < j ==> !IsSpace(s[k])
    ensures j < |s| ==> IsSpace(s[j])
    decreases |s| - i
  {
    if i < |s| && !IsSpace(s[i]) then SkipWord(s, i + 1) else i
  }

  predicate IsWord(w: string) {
    |w| > 0 && forall k :: 0 <= k < |w| ==> !IsSpace(w[k])
  }

  /** The maximal runs of non-space characters of `s[i..]`, in order. */
  function WordsFrom(s: string, i: nat): (r: seq<string>)
    requires i <= |s|
    ensures forall k :: 0 <= k < |r| ==> IsWord(r[k])
    decreases |s| - i
  {
    var j := SkipSpace(s, i);
    if j == |s| then []
    else
      var e := SkipWord(s, j);
      [s[j..e]] + WordsFrom(s, e)
  }

  function Words(s: string): (r: seq<string>)
    ensures forall k :: 0 <= k < |r| ==> IsWord(r[k])
  {
    WordsFrom(s, 0)
  }
}
