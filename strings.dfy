/** ASCII character classes and case mapping. Java's `toLowerCase`, `toUpperCase` and
    Apache's `equalsIgnoreCase` are modelled on ASCII letters only; every
    other character is left as it is by the case mapping. */
module Strings {

  predicate IsUpper(c: char) { 'A' <= c <= 'Z' }

  predicate IsLower(c: char) { 'a' <= c <= 'z' }

  predicate IsDigit(c: char) { '0' <= c <= '9' }

  function ToLowerChar(c: char): (r: char)
    ensures IsUpper(c) ==> IsLower(r) && r as int == c as int + 32
    ensures !IsUpper(c) ==> r == c
  {
    if IsUpper(c) then (c as int + 32) as char else c
  }

  function ToLower(s: string): string {
    if s == [] then [] else [ToLowerChar(s[0])] + ToLower(s[1..])
  }

  /** ToLower maps each character on its own. */
  lemma {:induction false} ToLowerAt(s: string)
    ensures |ToLower(s)| == |s|
    ensures forall i :: 0 <= i < |s| ==> ToLower(s)[i] == ToLowerChar(s[i])
  {
    if s != [] {
      ToLowerAt(s[1..]);
      assert forall i :: 1 <= i < |s| ==> s[1..][i - 1] == s[i];
    }
  }

  function ToUpperChar(c: char): (r: char)
    ensures IsLower(c) ==> IsUpper(r) && r as int == c as int - 32
    ensures !IsLower(c) ==> r == c
  {
    if IsLower(c) then (c as int - 32) as char else c
  }

  function ToUpper(s: string): string {
    if s == [] then [] else [ToUpperChar(s[0])] + ToUpper(s[1..])
  }

  /** ToUpper maps each character on its own. */
  lemma {:induction false} ToUpperAt(s: string)
    ensures |ToUpper(s)| == |s|
    ensures forall i :: 0 <= i < |s| ==> ToUpper(s)[i] == ToUpperChar(s[i])
  {
    if s != [] {
      ToUpperAt(s[1..]);
      assert forall i :: 1 <= i < |s| ==> s[1..][i - 1] == s[i];
    }
  }

  /** StringUtils.equalsIgnoreCase on two present strings. */
  predicate EqualsIgnoreCase(a: string, b: string) {
    ToLower(a) == ToLower(b)
  }

  /** Reads `s` as already lower-case: applying ToLower changes nothing. */
  predicate IsLowerCase(s: string) {
    forall i :: 0 <= i < |s| ==> !IsUpper(s[i])
  }

  lemma ToLowerIsLowerCase(s: string)
    ensures IsLowerCase(ToLower(s))
    ensures IsLowerCase(s) ==> ToLower(s) == s
  {
    ToLowerAt(s);
  }

  /** Decimal rendering of an integer, as Java's `toString` writes it. */
  function NatToString(n: nat): (r: string)
    ensures |r| >= 1
    ensures forall i :: 0 <= i < |r| ==> IsDigit(r[i])
    decreases n
  {
    var d := ['0' + (n % 10) as char];
    if n < 10 then d else NatToString(n / 10) + d
  }

  function IntToString(i: int): (r: string)
    ensures |r| >= 1
  {
    if i < 0 then "-" + NatToString(-i) else NatToString(i)
  }
}
