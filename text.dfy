/**
 * The JavaScript string operations the cleaner relies on:
 * `String.prototype.trim`, `split('\n')` and `toLowerCase`.
 */
module Text {

  /** JavaScript WhiteSpace and LineTerminator code points: the characters `trim` removes. */
  const SpaceChars: set<char> := {
    ' ', '\t', '\n', '\U{B}', '\U{C}', '\r', '\U{A0}', '\U{1680}',
    '\U{2000}', '\U{2001}', '\U{2002}', '\U{2003}', '\U{2004}', '\U{2005}',
    '\U{2006}', '\U{2007}', '\U{2008}', '\U{2009}', '\U{200A}',
    '\U{2028}', '\U{2029}', '\U{202F}', '\U{205F}', '\U{3000}', '\U{FEFF}'
  }

  predicate IsSpace(c: char) {
    c in SpaceChars
  }

  /** Drops leading white space (see `TrimStartKeepsSuffix`). */
  function TrimStart(s: string): string {
    if s != [] && IsSpace(s[0]) then TrimStart(s[1..]) else s
  }

  /** Drops trailing white space (see `TrimEndKeepsPrefix`). */
  function TrimEnd(s: string): string {
    if s != [] && IsSpace(s[|s| - 1]) then TrimEnd(s[..|s| - 1]) else s
  }

  /** `TrimStart` keeps the suffix of `s` that starts at its first non-space. */
  lemma {:induction false} TrimStartKeepsSuffix(s: string)
    ensures var r := TrimStart(s);
      |r| <= |s| && r == s[|s| - |r|..] &&
      (forall k :: 0 <= k < |s| - |r| ==> IsSpace(s[k])) &&
      (r != [] ==> !IsSpace(r[0]))
  {
    if s != [] && IsSpace(s[0]) {
      var tail := s[1..];
      TrimStartKeepsSuffix(tail);
      var r := TrimStart(tail);
      assert TrimStart(s) == r;
      assert tail[|tail| - |r|..] == s[|s| - |r|..];
    }
  }

  /** `TrimEnd` keeps the prefix of `s` that ends at its last non-space. */
  lemma {:induction false} TrimEndKeepsPrefix(s: string)
    ensures var r := TrimEnd(s);
      |r| <= |s| && r == s[..|r|] &&
      (forall k :: |r| <= k < |s| ==> IsSpace(s[k])) &&
      (r != [] ==> !IsSpace(r[|r| - 1]))
  {
    if s != [] && IsSpace(s[|s| - 1]) {
      var init := s[..|s| - 1];
      TrimEndKeepsPrefix(init);
      var r := TrimEnd(init);
      assert TrimEnd(s) == r;
      assert init[..|r|] == s[..|r|];
    }
  }

  /** `s.trim()` */
  function Trim(s: string): (r: string)
    ensures r != [] ==> !IsSpace(r[0]) && !IsSpace(r[|r| - 1])
  {
    TrimStartKeepsSuffix(s);
    TrimEndKeepsPrefix(TrimStart(s));
    TrimEnd(TrimStart(s))
  }

  /** Appending text after a non-space character never changes what `TrimEnd` keeps of the front part. */
  lemma {:induction false} TrimEndAppend(x: string, y: string)
    requires x != [] && !IsSpace(x[|x| - 1])
    ensures TrimEnd(x + y) == x + TrimEnd(y)
  {
    if y != [] && IsSpace(y[|y| - 1]) {
      assert (x + y)[..|x + y| - 1] == x + y[..|y| - 1];
      TrimEndAppend(x, y[..|y| - 1]);
    } else {
      assert y == [] ==> x + y == x;
    }
  }

  /** `s.split('\n')`: the pieces between line feeds, at least one piece even for the empty string. */
  function Lines(s: string): (parts: seq<string>)
    ensures |parts| >= 1
    ensures forall p <- parts :: '\n' !in p
  {
    if s == [] then [""]
    else
      var rest := Lines(s[1..]);
      if s[0] == '\n' then [""] + rest else [[s[0]] + rest[0]] + rest[1..]
  }

  /** `parts.join('\n')`: the inverse of `Lines`. */
  function Unlines(parts: seq<string>): string
    requires |parts| >= 1
  {
    if |parts| == 1 then parts[0] else parts[0] + "\n" + Unlines(parts[1..])
  }

  /** Joining the pieces of a split gives back the original text. */
  lemma {:induction false} UnlinesLines(s: string)
    ensures Unlines(Lines(s)) == s
  {
    if s != [] {
      var rest := Lines(s[1..]);
      UnlinesLines(s[1..]);
      if s[0] == '\n' {
        assert Lines(s) == [""] + rest;
        assert Lines(s)[1..] == rest;
      } else {
        var parts := Lines(s);
        assert parts == [[s[0]] + rest[0]] + rest[1..];
        if |rest| == 1 {
          assert parts == [[s[0]] + rest[0]];
        } else {
          assert parts[1..] == rest[1..];
          assert Unlines(rest) == rest[0] + "\n" + Unlines(rest[1..]);
        }
      }
    }
  }

  /** Splitting text built by joining line-free pieces gives back exactly those pieces. */
  lemma {:induction false} LinesUnlines(parts: seq<string>)
    requires |parts| >= 1
    requires forall p <- parts :: '\n' !in p
    ensures Lines(Unlines(parts)) == parts
  {
    if |parts| == 1 {
      LinesOfLineFree(parts[0], []);
      assert [parts[0]] == parts;
    } else {
      LinesUnlines(parts[1..]);
      LinesOfLineFree(parts[0], Unlines(parts[1..]));
      assert [parts[0]] + parts[1..] == parts;
    }
  }

  /** A line-free prefix followed by a line feed becomes its own first piece. */
  lemma {:induction false} LinesOfLineFree(p: string, tail: string)
    requires '\n' !in p
    ensures tail == [] ==> Lines(p) == [p]
    ensures Lines(p + "\n" + tail) == [p] + Lines(tail)
  {
    if p == [] {
      assert p + "\n" + tail == "\n" + tail;
      assert ("\n" + tail)[1..] == tail;
    } else {
      LinesOfLineFree(p[1..], tail);
      assert (p + "\n" + tail)[1..] == p[1..] + "\n" + tail;
      assert [p[0]] + p[1..] == p;
    }
  }

  /**
   * `out.trim().split('\n')` guarded by `if (out.trim())`: no lines when the trimmed
   * output is empty, otherwise one per line of it.
   */
  function NonEmptyLines(out: string): (lines: seq<string>)
    ensures lines == [] <==> Trim(out) == []
  {
    var found := Trim(out);
    if found == [] then [] else Lines(found)
  }

  /** `toLowerCase` on one character, for the ASCII letters. */
  function LowerChar(c: char): char {
    if 'A' <= c <= 'Z' then (c as int - 'A' as int + 'a' as int) as char else c
  }

  /** `s.toLowerCase()`, character by character. */
  function Lower(s: string): (r: string)
    ensures |r| == |s|
    ensures forall i :: 0 <= i < |s| ==> r[i] == LowerChar(s[i])
  {
    if s == [] then [] else [LowerChar(s[0])] + Lower(s[1..])
  }
}
