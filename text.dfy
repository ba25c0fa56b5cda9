/**
 * The java.lang.String operations the connector relies on: trim, blank tests,
 * case mapping and the decimal rendering of a counter.
 *
 * String.trim removes every leading and trailing character whose code is at
 * most U+0020. Case mapping is modelled on ASCII letters only.
 */
module Text {

  import opened Wrappers

  /** The message of the exception raised by a method call on null. */
  const NullPointerException := "java.lang.NullPointerException"

  /** A possibly null string as string concatenation writes it: null becomes "null". */
  function JavaString(s: Option<string>): (r: string)
    ensures s.Some? ==> r == s.value
  {
    if s.Some? then s.value else "null"
  }

  /** A character String.trim removes from either end. */
  predicate IsTrimmable(c: char) {
    c <= ' '
  }

  function TrimLeft(s: string): (r: string)
    ensures |r| <= |s| && r == s[|s| - |r|..]
    ensures r == [] || !IsTrimmable(r[0])
    ensures forall i :: 0 <= i < |s| - |r| ==> IsTrimmable(s[i])
  {
    if s != [] && IsTrimmable(s[0]) then TrimLeft(s[1..]) else s
  }

  function TrimRight(s: string): (r: string)
    ensures |r| <= |s| && r == s[..|r|]
    ensures r == [] || !IsTrimmable(r[|r| - 1])
    ensures forall i :: |r| <= i < |s| ==> IsTrimmable(s[i])
  {
    if s != [] && IsTrimmable(s[|s| - 1]) then TrimRight(s[..|s| - 1]) else s
  }

  /** No trimmable character at either end. */
  predicate IsTrimmed(s: string) {
    s == [] || (!IsTrimmable(s[0]) && !IsTrimmable(s[|s| - 1]))
  }

  /** String.trim: the longest infix that starts and ends with a non-trimmable character. */
  function Trim(s: string): (r: string)
    ensures |r| <= |s| && IsTrimmed(r)
    ensures IsTrimmed(s) ==> r == s
  {
    TrimRight(TrimLeft(s))
  }

  /** `r` is `s` with `a` trimmable characters cut from the front and the rest of the cut from the back. */
  predicate CutAt(s: string, r: string, a: nat) {
    && a + |r| <= |s| && r == s[a..][..|r|]
    && (forall i :: 0 <= i < a ==> IsTrimmable(s[i]))
    && (forall i :: a + |r| <= i < |s| ==> IsTrimmable(s[i]))
  }

  /** Trim removes exactly the trimmable characters before the first and after the last non-trimmable one. */
  lemma TrimIsInfix(s: string)
    ensures exists a: nat :: CutAt(s, Trim(s), a)
  {
    var l := TrimLeft(s);
    var a := |s| - |l|;
    var r := TrimRight(l);
    assert l == s[a..];
    forall i | a + |r| <= i < |s|
      ensures IsTrimmable(s[i])
    {
      assert s[i] == l[i - a];
    }
    assert Trim(s) == r;
    assert CutAt(s, Trim(s), a);
  }

  /** A trimmed cut is empty exactly when every character of `s` is trimmable. */
  lemma EmptyCut(s: string, r: string, a: nat)
    requires IsTrimmed(r) && CutAt(s, r, a)
    ensures r == [] <==> forall i :: 0 <= i < |s| ==> IsTrimmable(s[i])
  {
    if r != [] {
      assert r[0] == s[a];
    }
  }

  /** Conversely, a trimmed string cut that way out of `s` is Trim(s): the cut is unique. */
  lemma TrimUnique(s: string, r: string, a: nat)
    requires IsTrimmed(r) && CutAt(s, r, a)
    ensures r == Trim(s)
  {
    TrimIsInfix(s);
    var b: nat :| CutAt(s, Trim(s), b);
    var t := Trim(s);
    EmptyCut(s, r, a);
    EmptyCut(s, t, b);
    if r != [] {
      CutsAgree(s, r, a, t, b);
    }
  }

  /** Two non-empty trimmed cuts both start at the first non-trimmable character and end at the last one. */
  lemma CutsAgree(s: string, r: string, a: nat, t: string, b: nat)
    requires IsTrimmed(r) && CutAt(s, r, a) && r != []
    requires IsTrimmed(t) && CutAt(s, t, b) && t != []
    ensures r == t
  {
    assert !IsTrimmable(s[a]) by { assert r[0] == s[a]; }
    assert !IsTrimmable(s[b]) by { assert t[0] == s[b]; }
    assert a == b;
    assert !IsTrimmable(s[a + |r| - 1]) by { assert r[|r| - 1] == s[a + |r| - 1]; }
    assert !IsTrimmable(s[b + |t| - 1]) by { assert t[|t| - 1] == s[b + |t| - 1]; }
    assert |r| == |t|;
  }

  /** `s.trim().length() == 0`. */
  predicate IsBlank(s: string) {
    Trim(s) == []
  }

  lemma {:induction false} BlankIffAllTrimmable(s: string)
    ensures IsBlank(s) <==> forall i :: 0 <= i < |s| ==> IsTrimmable(s[i])
  {
    var l := TrimLeft(s);
    if l != [] {
      assert !IsTrimmable(l[0]);
      assert !IsTrimmable(s[|s| - |l|]);
    }
  }

  /** `value == null || value.trim().length() == 0`. */
  predicate IsBlankOrNull(value: Option<string>) {
    value.None? || IsBlank(value.value)
  }

  /** Character.toLowerCase restricted to ASCII letters. */
  function LowerChar(c: char): char {
    if 'A' <= c <= 'Z' then (c as int + 32) as char else c
  }

  /** Character.toUpperCase restricted to ASCII letters. */
  function UpperChar(c: char): char {
    if 'a' <= c <= 'z' then (c as int - 32) as char else c
  }

  /** String.toLowerCase: every character mapped on its own. */
  function ToLower(s: string): (r: string)
    ensures |r| == |s|
    ensures forall i :: 0 <= i < |s| ==> r[i] == LowerChar(s[i])
  {
    seq(|s|, i requires 0 <= i < |s| => LowerChar(s[i]))
  }

  /** String.toUpperCase: every character mapped on its own. */
  function ToUpper(s: string): (r: string)
    ensures |r| == |s|
    ensures forall i :: 0 <= i < |s| ==> r[i] == UpperChar(s[i])
  {
    seq(|s|, i requires 0 <= i < |s| => UpperChar(s[i]))
  }

  /** No upper-case ASCII letter. */
  predicate IsLower(s: string) {
    forall i :: 0 <= i < |s| ==> !('A' <= s[i] <= 'Z')
  }

  lemma ToLowerIsLower(s: string)
    ensures IsLower(ToLower(s))
    ensures IsLower(s) <==> ToLower(s) == s
  {
    if IsLower(s) {
      assert forall i :: 0 <= i < |s| ==> ToLower(s)[i] == s[i];
    }
    if ToLower(s) == s {
      forall i | 0 <= i < |s| ensures !('A' <= s[i] <= 'Z') {
        assert LowerChar(s[i]) == s[i];
      }
    }
  }

  lemma ToLowerConcat(a: string, b: string)
    ensures ToLower(a + b) == ToLower(a) + ToLower(b)
  {
    assert forall i :: 0 <= i < |a + b| ==> ToLower(a + b)[i] == (ToLower(a) + ToLower(b))[i];
  }

  lemma IsLowerConcat(a: string, b: string)
    ensures IsLower(a + b) <==> IsLower(a) && IsLower(b)
  {
    assert forall i :: 0 <= i < |a| ==> (a + b)[i] == a[i];
    assert forall i :: 0 <= i < |b| ==> (a + b)[|a| + i] == b[i];
    if IsLower(a) && IsLower(b) {
      forall i | 0 <= i < |a + b| ensures !('A' <= (a + b)[i] <= 'Z') {
        if i >= |a| {
          assert (a + b)[i] == b[i - |a|];
        }
      }
    }
  }

  /** Upper-casing forgets the case of the input: the basis of case-insensitive status names. */
  lemma {:induction false} UpperOfLower(s: string)
    ensures ToUpper(ToLower(s)) == ToUpper(s)
  {
    forall i | 0 <= i < |s| ensures ToUpper(ToLower(s))[i] == ToUpper(s)[i] {
      var c := s[i];
      if 'A' <= c <= 'Z' {
        assert LowerChar(c) as int == c as int + 32;
      }
    }
  }

  /** The decimal digit d. */
  function DigitChar(d: nat): (c: char)
    requires d < 10
    ensures '0' <= c <= '9' && c as int - '0' as int == d
  {
    (d + '0' as int) as char
  }

  predicate IsDigits(s: string) {
    forall i :: 0 <= i < |s| ==> '0' <= s[i] <= '9'
  }

  /** Long.toString for a non-negative value (also what `"…" + n` appends). */
  function NatToString(n: nat): (r: string)
    ensures r != [] && IsDigits(r)
    decreases n
  {
    if n < 10 then [DigitChar(n)] else NatToString(n / 10) + [DigitChar(n % 10)]
  }

  /** The value of a string of decimal digits: the reference reading of NatToString. */
  function DigitsValue(s: string): nat
    requires IsDigits(s)
  {
    if s == [] then 0 else 10 * DigitsValue(s[..|s| - 1]) + (s[|s| - 1] as int - '0' as int)
  }

  lemma {:induction false} NatToStringRoundTrip(n: nat)
    ensures DigitsValue(NatToString(n)) == n
    decreases n
  {
    if n >= 10 {
      var s := NatToString(n);
      assert s[..|s| - 1] == NatToString(n / 10);
      NatToStringRoundTrip(n / 10);
    }
  }

  /** Distinct numbers render as distinct strings. */
  lemma NatToStringInjective(a: nat, b: nat)
    ensures NatToString(a) == NatToString(b) ==> a == b
  {
    NatToStringRoundTrip(a);
    NatToStringRoundTrip(b);
  }
}
