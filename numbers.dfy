/**
 * Turning `du -sk` output into a byte count (`getSizeInBytes`) and the freed-space
 * credit of one action (`trackFreedSpace`).
 */
module Numbers {
  import opened Wrappers
  import opened Text

  predicate IsDecimalDigit(c: char) { '0' <= c <= '9' }

  /** A digit of the given radix; `parseInt` uses radix 16 after a `0x` prefix and 10 otherwise. */
  predicate IsDigitIn(c: char, radix: nat) {
    if radix == 16 then IsDecimalDigit(c) || 'a' <= c <= 'f' || 'A' <= c <= 'F'
    else IsDecimalDigit(c)
  }

  function DigitValue(c: char): nat {
    if IsDecimalDigit(c) then c as int - '0' as int
    else if 'a' <= c <= 'f' then c as int - 'a' as int + 10
    else if 'A' <= c <= 'F' then c as int - 'A' as int + 10
    else 0
  }

  /** Length of the longest prefix of `s` made of digits of `radix` (see `DigitRunIsLongest`). */
  function DigitRun(s: string, radix: nat): (n: nat)
    ensures n <= |s|
  {
    if s == [] || !IsDigitIn(s[0], radix) then 0 else 1 + DigitRun(s[1..], radix)
  }

  /** `DigitRun` stops at the first character that is not a digit, and not before. */
  lemma {:induction false} DigitRunIsLongest(s: string, radix: nat)
    ensures var n := DigitRun(s, radix);
      (forall i :: 0 <= i < n ==> IsDigitIn(s[i], radix)) &&
      (n < |s| ==> !IsDigitIn(s[n], radix))
  {
    if s != [] && IsDigitIn(s[0], radix) {
      DigitRunIsLongest(s[1..], radix);
    }
  }

  /** A run of digits followed by a non-digit is read in full and no further. */
  lemma {:induction false} DigitRunOfRun(ds: string, tail: string, radix: nat)
    requires forall k :: 0 <= k < |ds| ==> IsDigitIn(ds[k], radix)
    requires tail != [] ==> !IsDigitIn(tail[0], radix)
    ensures DigitRun(ds + tail, radix) == |ds|
  {
    if ds != [] {
      assert (ds + tail)[1..] == ds[1..] + tail;
      DigitRunOfRun(ds[1..], tail, radix);
    } else {
      assert ds + tail == tail;
    }
  }

  /** The number a digit string denotes, most significant digit first. */
  function ValueOf(ds: string, radix: nat): nat {
    if ds == [] then 0 else ValueOf(ds[..|ds| - 1], radix) * radix + DigitValue(ds[|ds| - 1])
  }

  /** Strips one leading sign character. */
  function Unsigned(t: string): string {
    if t != [] && (t[0] == '-' || t[0] == '+') then t[1..] else t
  }

  predicate HasHexPrefix(u: string) {
    |u| >= 2 && u[0] == '0' && (u[1] == 'x' || u[1] == 'X')
  }

  /** The magnitude `parseInt` reads from unsigned text; `None` when no digit follows. */
  function Magnitude(u: string): Option<nat> {
    var radix := if HasHexPrefix(u) then 16 else 10;
    var v := if HasHexPrefix(u) then u[2..] else u;
    var n := DigitRun(v, radix);
    if n == 0 then None else Some(ValueOf(v[..n], radix))
  }

  /**
   * `parseInt(s)` with no radix: skip leading white space, take an optional sign,
   * switch to radix 16 after `0x`/`0X`, then read the longest run of digits.
   * `None` stands for NaN (no digit at all).
   */
  function ParseInt(s: string): Option<int> {
    var t := TrimStart(s);
    match Magnitude(Unsigned(t))
    case None => None
    case Some(m) =>
      var value: int := if t != [] && t[0] == '-' then -(m as int) else m;
      Some(value)
  }

  /** `parseInt(output.trim()) || 0`: NaN and zero both give 0. */
  function Kilobytes(duOutput: string): int {
    match ParseInt(Trim(duOutput)) case Some(k) => k case None => 0
  }

  /** `getSizeInBytes`: kilobytes reported by `du -sk`, in bytes. */
  function SizeInBytes(duOutput: string): (bytes: int)
    ensures bytes % 1024 == 0
  {
    Kilobytes(duOutput) * 1024
  }

  /**
   * Output that starts (after white space) with a run of decimal digits is read as
   * that many kilobytes, whatever follows the run, so the result is a non-negative
   * multiple of 1024. The one exception `parseInt` makes, a lone `0` followed by `x`,
   * is excluded.
   */
  lemma {:induction false} LeadingIntegerSize(lead: string, ds: string, rest: string)
    requires forall k :: 0 <= k < |lead| ==> IsSpace(lead[k])
    requires ds != [] && forall k :: 0 <= k < |ds| ==> IsDecimalDigit(ds[k])
    requires rest != [] ==> !IsDecimalDigit(rest[0])
    requires !(ds == "0" && rest != [] && (rest[0] == 'x' || rest[0] == 'X'))
    ensures SizeInBytes(lead + ds + rest) == ValueOf(ds, 10) * 1024 >= 0
  {
    var s := lead + ds + rest;
    assert s == lead + (ds + rest);
    assert TrimStart(s) == ds + rest by { TrimStartSkips(lead, ds + rest); }
    var tail := TrimEnd(rest);
    assert Trim(s) == ds + tail by { TrimEndAppend(ds, rest); }
    TrimEndKeepsPrefix(rest);
    assert tail != [] ==> tail[0] == rest[0];
    ParseLeadingInteger(ds, tail);
    assert Kilobytes(s) == ValueOf(ds, 10);
  }

  /** `parseInt` of a decimal run followed by a non-digit reads exactly that run. */
  lemma {:induction false} ParseLeadingInteger(ds: string, tail: string)
    requires ds != [] && forall k :: 0 <= k < |ds| ==> IsDecimalDigit(ds[k])
    requires tail != [] ==> !IsDecimalDigit(tail[0])
    requires !(ds == "0" && tail != [] && (tail[0] == 'x' || tail[0] == 'X'))
    ensures ParseInt(ds + tail) == Some(ValueOf(ds, 10))
  {
    var s := ds + tail;
    assert s[0] == ds[0];
    assert TrimStart(s) == s;
    assert Unsigned(s) == s;
    assert !HasHexPrefix(s) by {
      if |ds| >= 2 { assert s[1] == ds[1]; }
      else if tail != [] { assert s[1] == tail[0]; }
    }
    DigitRunOfRun(ds, tail, 10);
    assert s[..|ds|] == ds;
  }

  /** Leading white space is all that `TrimStart` removes in front of a non-space. */
  lemma {:induction false} TrimStartSkips(lead: string, s: string)
    requires forall k :: 0 <= k < |lead| ==> IsSpace(lead[k])
    requires s != [] && !IsSpace(s[0])
    ensures TrimStart(lead + s) == s
  {
    if lead != [] {
      assert (lead + s)[1..] == lead[1..] + s;
      TrimStartSkips(lead[1..], s);
    }
  }

  /** The size of digit-only `du` output is its decimal value times 1024. */
  lemma {:induction false} DigitOnlySize(ds: string)
    requires ds != [] && forall k :: 0 <= k < |ds| ==> IsDecimalDigit(ds[k])
    ensures SizeInBytes(ds) == ValueOf(ds, 10) * 1024 >= 0
  {
    var empty: string := [];
    assert empty + ds + empty == ds;
    LeadingIntegerSize(empty, ds, empty);
  }

  /**
   * Output with no number in front, including the empty text that a failed `du`
   * leaves behind, is taken as zero bytes.
   */
  lemma {:induction false} NoNumberIsZero(duOutput: string)
    requires var t := Trim(duOutput);
      t == [] || (!IsDecimalDigit(t[0]) && t[0] != '-' && t[0] != '+')
    ensures SizeInBytes(duOutput) == 0
  {
    var t := Trim(duOutput);
    if t != [] {
      assert TrimStart(t) == t;
    }
  }

  /** `trackFreedSpace`: a shrink is credited in full, a growth or no change not at all. */
  function Credit(before: int, after: int): (freed: nat)
    ensures freed >= before - after
    ensures freed == 0 || freed == before - after
  {
    if before - after > 0 then before - after else 0
  }
}
