/** The PHP string functions and regular-expression character classes the
    assembler relies on, over `string`. */
module Text {
  /** The characters `trim` removes by default: space, tab, line feed,
      carriage return, NUL and vertical tab. */
  const TRIM_CHARS: set<char> := {' ', '\t', '\n', '\r', 0 as char, 11 as char}

  /** `\s`: space, tab, line feed, vertical tab, form feed, carriage return. */
  predicate IsSpace(c: char)
  {
    c == ' ' || c == '\t' || c == '\n' || c == 11 as char || c == 12 as char || c == '\r'
  }

  predicate IsDigit(c: char) { '0' <= c <= '9' }

  predicate IsHexDigit(c: char) { '0' <= c <= '9' || 'A' <= c <= 'F' || 'a' <= c <= 'f' }

  predicate IsLetter(c: char) { 'A' <= c <= 'Z' || 'a' <= c <= 'z' }

  /** `\w`: letters, digits and underscore. */
  predicate IsWordChar(c: char) { IsLetter(c) || IsDigit(c) || c == '_' }

  /** `[0-9A-Fa-f]+` over the whole string. */
  predicate AllHex(s: string) { |s| >= 1 && forall i :: 0 <= i < |s| ==> IsHexDigit(s[i]) }

  /** `[0-9]+` over the whole string. */
  predicate AllDigits(s: string) { |s| >= 1 && forall i :: 0 <= i < |s| ==> IsDigit(s[i]) }

  /** `[a-zA-Z_][a-zA-Z0-9_]*` over the whole string. */
  predicate IsIdentifier(s: string)
  {
    |s| >= 1 && (IsLetter(s[0]) || s[0] == '_') && forall i :: 1 <= i < |s| ==> IsWordChar(s[i])
  }

  /** PHP's `empty()` on a string: the empty string and `"0"`. */
  predicate IsEmpty(s: string) { s == "" || s == "0" }

  /** `ltrim($s, $chars)`: drops the longest prefix made of `chars`. */
  function TrimLeft(s: string, chars: set<char>): (r: string)
    ensures |r| <= |s|
  {
    if s != [] && s[0] in chars then TrimLeft(s[1..], chars) else s
  }

  /** `rtrim($s, $chars)`: drops the longest suffix made of `chars`. */
  function TrimRight(s: string, chars: set<char>): (r: string)
    ensures |r| <= |s|
  {
    if s != [] && s[|s| - 1] in chars then TrimRight(s[..|s| - 1], chars) else s
  }

  /** `trim($s)`. */
  function Trim(s: string): string
  {
    TrimRight(TrimLeft(s, TRIM_CHARS), TRIM_CHARS)
  }

  /** `ltrim` keeps a suffix, drops only characters of its list, and leaves
      the result starting on a character outside the list. */
  lemma {:induction false} TrimLeftKeepsSuffix(s: string, chars: set<char>)
    ensures var r := TrimLeft(s, chars);
      r == s[|s| - |r|..] && (r == [] || r[0] !in chars) &&
      forall i :: 0 <= i < |s| - |r| ==> s[i] in chars
  {
    if s != [] && s[0] in chars {
      TrimLeftKeepsSuffix(s[1..], chars);
    }
  }

  /** `rtrim` keeps a prefix, drops only characters of its list, and leaves
      the result ending on a character outside the list. */
  lemma {:induction false} TrimRightKeepsPrefix(s: string, chars: set<char>)
    ensures var r := TrimRight(s, chars);
      r == s[..|r|] && (r == [] || r[|r| - 1] !in chars) &&
      forall i :: |r| <= i < |s| ==> s[i] in chars
  {
    if s != [] && s[|s| - 1] in chars {
      TrimRightKeepsPrefix(s[..|s| - 1], chars);
    }
  }

  /** Trimming a trimmed string changes nothing. */
  lemma TrimIdempotent(s: string)
    ensures Trim(Trim(s)) == Trim(s)
  {
    var t := TrimLeft(s, TRIM_CHARS);
    var u := TrimRight(t, TRIM_CHARS);
    TrimLeftKeepsSuffix(s, TRIM_CHARS);
    TrimRightKeepsPrefix(t, TRIM_CHARS);
    if u != [] {
      assert u[0] == t[0];
      assert TrimLeft(u, TRIM_CHARS) == u;
    }
  }

  /** `strtoupper` on ASCII letters. */
  function Upper(s: string): (r: string)
    ensures |r| == |s|
    ensures forall i :: 0 <= i < |s| ==> (if 'a' <= s[i] <= 'z' then r[i] as int == s[i] as int - 32 else r[i] == s[i])
  {
    seq(|s|, i requires 0 <= i < |s| => if 'a' <= s[i] <= 'z' then (s[i] as int - 32) as char else s[i])
  }

  /** `explode($sep, $s)`: the pieces between separators, at least one. */
  function Explode(s: string, sep: char): (r: seq<string>)
    ensures |r| >= 1
  {
    if s == [] then [""]
    else
      var rest := Explode(s[1..], sep);
      if s[0] == sep then [""] + rest else [[s[0]] + rest[0]] + rest[1..]
  }

  /** `implode($sep, $parts)`. */
  function Join(parts: seq<string>, sep: char): string
    requires |parts| >= 1
  {
    if |parts| == 1 then parts[0] else parts[0] + [sep] + Join(parts[1..], sep)
  }

  /** Joining the pieces back with the separator gives the original text,
      and no piece holds a separator. */
  lemma {:induction false} ExplodeJoin(s: string, sep: char)
    ensures Join(Explode(s, sep), sep) == s
    ensures forall p :: p in Explode(s, sep) ==> sep !in p
  {
    if s != [] {
      var rest := Explode(s[1..], sep);
      ExplodeJoin(s[1..], sep);
      if s[0] == sep {
        assert Explode(s, sep)[1..] == rest;
      } else {
        var r := Explode(s, sep);
        assert r[0] == [s[0]] + rest[0] && r[1..] == rest[1..];
        if |rest| == 1 {
          assert s == [s[0]] + s[1..];
        } else {
          assert Join(rest, sep) == rest[0] + [sep] + Join(rest[1..], sep);
          assert s == [s[0]] + s[1..];
        }
        assert sep !in r[0];
        forall p | p in r ensures sep !in p {
          if p != r[0] {
            assert p in rest[1..];
          }
        }
      }
    }
  }

  /** `intval` of a decimal digit string. */
  function IntVal(s: string): nat
    requires forall i :: 0 <= i < |s| ==> IsDigit(s[i])
  {
    if s == [] then 0
    else
      assert IsDigit(s[|s| - 1]);
      IntVal(s[..|s| - 1]) * 10 + (s[|s| - 1] as int - '0' as int)
  }

  /** `%d` of a non-negative number: its decimal digits, no leading zeros. */
  function Decimal(n: nat): (s: string)
    ensures |s| >= 1 && forall i :: 0 <= i < |s| ==> IsDigit(s[i])
    ensures IntVal(s) == n
    decreases n
  {
    var last := ((n % 10) + '0' as int) as char;
    if n < 10 then
      assert [last][..0] == [];
      [last]
    else
      var init := Decimal(n / 10);
      assert (init + [last])[..|init|] == init;
      init + [last]
  }

  /** `sprintf('%+d', n)`: a sign, always, then the digits. */
  function SignedDecimal(n: int): (s: string)
    ensures |s| >= 2 && (s[0] == '+' <==> n >= 0) && (s[0] == '-' <==> n < 0)
    ensures var d := s[1..]; (forall i :: 0 <= i < |d| ==> IsDigit(d[i])) && (if n >= 0 then IntVal(d) == n else IntVal(d) == -n)
  {
    var s := (if n >= 0 then "+" else "-") + Decimal(if n >= 0 then n else -n);
    assert s[1..] == Decimal(if n >= 0 then n else -n);
    s
  }
}
