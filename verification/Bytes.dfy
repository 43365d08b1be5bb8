/** Byte strings and the few searches the server does on them. A byte is a `char`; nothing below
    depends on its value being under 256. */
module Bytes {

  type bytes = seq<char>

  datatype Option<+T> = None | Some(value: T)

  const CRLF: bytes := "\r\n"

  predicate CrlfAt(s: bytes, i: int) {
    0 <= i && i + 1 < |s| && s[i] == '\r' && s[i + 1] == '\n'
  }

  ghost predicate CrlfFree(s: bytes) {
    forall i :: !CrlfAt(s, i)
  }

  /** Position of the first CRLF. The contract determines the result. */
  function FindCrlf(s: bytes): (r: Option<nat>)
    ensures r.Some? ==> CrlfAt(s, r.value) && forall i :: i < r.value ==> !CrlfAt(s, i)
    ensures r.None? ==> CrlfFree(s)
  {
    FindCrlfFrom(s, 0)
  }

  function FindCrlfFrom(s: bytes, i: nat): (r: Option<nat>)
    requires forall j :: j < i ==> !CrlfAt(s, j)
    ensures r.Some? ==> CrlfAt(s, r.value) && forall j :: j < r.value ==> !CrlfAt(s, j)
    ensures r.None? ==> CrlfFree(s)
    decreases |s| - i
  {
    if |s| <= i + 1 then None
    else if CrlfAt(s, i) then Some(i)
    else FindCrlfFrom(s, i + 1)
  }

  /** More input never moves a CRLF that is already there. */
  lemma FindCrlfExtends(a: bytes, b: bytes)
    requires FindCrlf(a).Some?
    ensures FindCrlf(a + b) == FindCrlf(a)
  {
    var i := FindCrlf(a).value;
    assert CrlfAt(a + b, i);
    assert forall j :: j < i ==> CrlfAt(a + b, j) == CrlfAt(a, j);
  }

  /** A line without CRLF ends at the CRLF that is put behind it. */
  lemma FindCrlfLine(line: bytes, rest: bytes)
    requires CrlfFree(line)
    ensures FindCrlf(line + CRLF + rest) == Some(|line|)
    ensures (line + CRLF + rest)[..|line|] == line && (line + CRLF + rest)[|line| + 2..] == rest
  {
    var s := line + CRLF + rest;
    assert CrlfAt(s, |line|);
    forall j | j < |line| ensures !CrlfAt(s, j) {
      assert !CrlfAt(line, j);
    }
  }

  lemma CrlfFreeConcat(a: bytes, b: bytes)
    requires CrlfFree(a) && CrlfFree(b) && '\n' !in b[..Min(1, |b|)]
    ensures CrlfFree(a + b)
  {
    forall j | CrlfAt(a + b, j) ensures CrlfAt(a, j) || CrlfAt(b, j - |a|) {
    }
  }

  function Min(a: nat, b: nat): nat { if a < b then a else b }

  lemma NoCrNoCrlf(s: bytes)
    requires '\r' !in s
    ensures CrlfFree(s)
  {
  }

  /** Position of the first `c`, as `std::string::find(char)`. */
  function IndexOf(s: bytes, c: char): (r: Option<nat>)
    ensures r.Some? ==> r.value < |s| && s[r.value] == c && c !in s[..r.value]
    ensures r.None? ==> c !in s
  {
    if s == [] then None
    else if s[0] == c then Some(0)
    else
      var r := IndexOf(s[1..], c);
      match r
      case None => None
      case Some(i) =>
        assert s[..i + 1] == [s[0]] + s[1..][..i];
        Some(i + 1)
  }

  /** Whether `word` occurs in `s`, as `std::string::find(...) != npos`. */
  predicate Contains(s: bytes, word: bytes) {
    exists i :: 0 <= i <= |s| - |word| && OccursAt(s, word, i)
  }

  lemma OccursByFirstChar(s: bytes, word: bytes)
    requires word != []
    ensures Contains(s, word) ==> word[0] in s
  {
    if Contains(s, word) {
      var i: nat :| i <= |s| - |word| && OccursAt(s, word, i);
      assert s[i..i + |word|][0] == s[i];
    }
  }

  predicate OccursAt(s: bytes, word: bytes, i: nat) {
    i + |word| <= |s| && s[i..i + |word|] == word
  }

  function LowerChar(c: char): char {
    if 'A' <= c <= 'Z' then (c as int + 32) as char else c
  }

  function ToLower(s: bytes): (r: bytes)
    ensures |r| == |s| && forall i :: 0 <= i < |s| ==> r[i] == LowerChar(s[i])
  {
    seq(|s|, i requires 0 <= i < |s| => LowerChar(s[i]))
  }

  function TrimLeft(s: bytes): (r: bytes)
    ensures r != [] ==> r[0] != ' '
  {
    if s != [] && s[0] == ' ' then TrimLeft(s[1..]) else s
  }

  predicate IsDigit(c: char) { '0' <= c <= '9' }

  function DigitValue(c: char): nat
    requires IsDigit(c)
  {
    c as int - '0' as int
  }

  /** The decimal value of a digit string, as `std::stoul` without its range check. */
  function ToNat(s: bytes): nat
    requires forall c :: c in s ==> IsDigit(c)
  {
    if s == [] then 0
    else
      var last := s[|s| - 1];
      assert IsDigit(last);
      10 * ToNat(s[..|s| - 1]) + DigitValue(last)
  }

  function DigitChar(d: nat): char
    requires d < 10
  {
    (d + '0' as int) as char
  }

  /** `std::to_string` of a natural number. */
  function Decimal(n: nat): (r: bytes)
    ensures r != [] && forall c :: c in r ==> IsDigit(c)
  {
    if n < 10 then [DigitChar(n)] else Decimal(n / 10) + [DigitChar(n % 10)]
  }

  lemma {:induction false} DecimalRoundTrip(n: nat)
    ensures ToNat(Decimal(n)) == n
  {
    var s := Decimal(n);
    if n < 10 {
      assert ToNat(s[..0]) == 0;
    } else {
      DecimalRoundTrip(n / 10);
      assert s[..|s| - 1] == Decimal(n / 10);
    }
  }

  function Flatten<T>(ss: seq<seq<T>>): seq<T> {
    if ss == [] then [] else ss[0] + Flatten(ss[1..])
  }
}
