/** The few System.String operations the core uses, over `seq<char>` with ordinal comparison. */
module Text {

  /** `c` does not occur in `s`. */
  predicate Free(s: string, c: char) {
    forall i :: 0 <= i < |s| ==> s[i] != c
  }

  /** A concatenation is free of `c` exactly when both parts are. */
  lemma FreeAppend(s: string, t: string, c: char)
    ensures Free(s + t, c) <==> Free(s, c) && Free(t, c)
  {
    if Free(s, c) && Free(t, c) {
      forall i | 0 <= i < |s + t| ensures (s + t)[i] != c {
        if i >= |s| { assert (s + t)[i] == t[i - |s|]; }
      }
    }
    if Free(s + t, c) {
      forall i | 0 <= i < |s| ensures s[i] != c { assert (s + t)[i] == s[i]; }
      forall i | 0 <= i < |t| ensures t[i] != c { assert (s + t)[|s| + i] == t[i]; }
    }
  }

  /** `s.TrimStart(c)`: drops every leading `c`. */
  function TrimStart(s: string, c: char): (r: string)
    ensures |r| <= |s| && r == s[|s| - |r|..]
    ensures r == [] || r[0] != c
    ensures forall i :: 0 <= i < |s| - |r| ==> s[i] == c
  {
    if |s| > 0 && s[0] == c then TrimStart(s[1..], c) else s
  }

  /** `s.TrimEnd(c)`: drops every trailing `c`. */
  function TrimEnd(s: string, c: char): (r: string)
    ensures |r| <= |s| && r == s[..|r|]
    ensures r == [] || r[|r| - 1] != c
    ensures forall i :: |r| <= i < |s| ==> s[i] == c
  {
    if |s| > 0 && s[|s| - 1] == c then TrimEnd(s[..|s| - 1], c) else s
  }

  /** `s.Trim(c)`: drops every leading and every trailing `c`; what is left is a middle slice of `s`. */
  function Trim(s: string, c: char): (r: string)
    ensures r == [] || (r[0] != c && r[|r| - 1] != c)
    ensures |r| <= |s|
  {
    TrimEnd(TrimStart(s, c), c)
  }

  /** Trimming something already trimmed changes nothing. */
  lemma TrimOfTrimmed(s: string, c: char)
    requires s == [] || (s[0] != c && s[|s| - 1] != c)
    ensures Trim(s, c) == s
  {
  }

  /** Putting one `c` in front of a trimmed string and trimming again gives the string back. */
  lemma TrimLeading(s: string, c: char)
    requires s == [] || (s[0] != c && s[|s| - 1] != c)
    ensures Trim([c] + s, c) == s
  {
    assert ([c] + s)[1..] == s;
  }

  /** Putting one `c` after a trimmed string and trimming again gives the string back. */
  lemma TrimTrailing(s: string, c: char)
    requires s == [] || (s[0] != c && s[|s| - 1] != c)
    ensures Trim(s + [c], c) == s
  {
    assert (s + [c])[..|s|] == s;
  }

  /** `s.StartsWith(c)`. */
  predicate StartsWith(s: string, c: char) {
    |s| > 0 && s[0] == c
  }

  /** `s.StartsWith(p, StringComparison.Ordinal)`. */
  predicate HasPrefix(s: string, p: string) {
    |p| <= |s| && s[..|p|] == p
  }

  /** `s.Contains(p)` (ordinal). */
  predicate Contains(s: string, p: string)
    decreases |s|
  {
    HasPrefix(s, p) || (|s| > 0 && Contains(s[1..], p))
  }

  /** `s.Replace(from, to)` for single characters. */
  function ReplaceChar(s: string, from: char, to: char): (r: string)
    ensures |r| == |s|
    ensures forall i :: 0 <= i < |s| ==> r[i] == (if s[i] == from then to else s[i])
  {
    if s == [] then [] else [if s[0] == from then to else s[0]] + ReplaceChar(s[1..], from, to)
  }

  /** `s.Replace(c.ToString(), string.Empty)`: every `c` removed, the rest in order. */
  function RemoveChar(s: string, c: char): (r: string)
    ensures Free(r, c)
    ensures |r| <= |s|
    ensures Free(s, c) ==> r == s
  {
    if s == [] then [] else (if s[0] == c then [] else [s[0]]) + RemoveChar(s[1..], c)
  }

  /** Removing one character keeps a string free of any other. */
  lemma {:induction false} RemoveCharKeepsFree(s: string, c: char, d: char)
    requires Free(s, d)
    ensures Free(RemoveChar(s, c), d)
  {
    if s != [] {
      RemoveCharKeepsFree(s[1..], c, d);
      FreeAppend(if s[0] == c then [] else [s[0]], RemoveChar(s[1..], c), d);
    }
  }

  /** `char.ToLowerInvariant` on the ASCII range. */
  function LowerChar(c: char): char {
    if 'A' <= c <= 'Z' then (c as int - 'A' as int + 'a' as int) as char else c
  }

  /** `s.ToLowerInvariant()` (ASCII letters only). */
  function ToLower(s: string): (r: string)
    ensures |r| == |s|
    ensures forall i :: 0 <= i < |s| ==> r[i] == LowerChar(s[i])
  {
    if s == [] then [] else [LowerChar(s[0])] + ToLower(s[1..])
  }

  /** `s.Split(c).First()`: the longest prefix of `s` that does not contain `c`. */
  function Before(s: string, c: char): string {
    if s == [] || s[0] == c then [] else [s[0]] + Before(s[1..], c)
  }

  /** `Before` is the prefix up to the first `c`, or all of `s` when there is none. */
  lemma {:induction false} BeforeIsFirstSegment(s: string, c: char)
    ensures var r := Before(s, c); HasPrefix(s, r) && Free(r, c) && (|r| == |s| || s[|r|] == c)
  {
    if s != [] && s[0] != c {
      BeforeIsFirstSegment(s[1..], c);
      var r := Before(s[1..], c);
      assert Before(s, c) == [s[0]] + r;
      assert forall i :: 0 < i <= |r| ==> ([s[0]] + r)[i] == r[i - 1];
    }
  }

  /** `s.Replace("[]", "Array")`, replacing left to right without overlaps. */
  function ReplaceBrackets(s: string): string {
    if |s| >= 2 && s[0] == '[' && s[1] == ']' then "Array" + ReplaceBrackets(s[2..])
    else if s == [] then []
    else
      [s[0]] + ReplaceBrackets(s[1..])
  }

  /** No `[]` is left after the replacement, and text without `[` is left as it is. */
  lemma {:induction false} ReplaceBracketsSpec(s: string)
    ensures Free(s, '[') ==> ReplaceBrackets(s) == s
    ensures NoEmptyBrackets(ReplaceBrackets(s))
    ensures s != [] && s[0] != ']' ==> ReplaceBrackets(s) != [] && ReplaceBrackets(s)[0] != ']'
  {
    if |s| >= 2 && s[0] == '[' && s[1] == ']' {
      ReplaceBracketsSpec(s[2..]);
    } else if s != [] {
      ReplaceBracketsSpec(s[1..]);
    }
  }

  /** A trailing `[]` becomes a trailing `Array`, whatever precedes it. */
  lemma {:induction false} ReplaceBracketsSnoc(s: string)
    ensures ReplaceBrackets(s + "[]") == ReplaceBrackets(s) + "Array"
  {
    var t := s + "[]";
    if |s| >= 2 && s[0] == '[' && s[1] == ']' {
      var rest := s[2..];
      assert t[2..] == rest + "[]";
      ReplaceBracketsSnoc(rest);
      assert ReplaceBrackets(t) == "Array" + ReplaceBrackets(rest + "[]");
    } else if s != [] {
      var rest := s[1..];
      assert t[1..] == rest + "[]";
      assert t[0] == s[0] && (|s| == 1 ==> t[1] == '[') && (|s| >= 2 ==> t[1] == s[1]);
      ReplaceBracketsSnoc(rest);
      assert ReplaceBrackets(t) == [s[0]] + ReplaceBrackets(rest + "[]");
    } else {
      assert t == "[]";
    }
  }

  /** No `"[]"` occurs in `s`. */
  predicate NoEmptyBrackets(s: string) {
    forall i :: 0 <= i < |s| - 1 ==> !(s[i] == '[' && s[i + 1] == ']')
  }

  /** Decimal digit of `d`. */
  function Digit(d: nat): char
    requires d < 10
  {
    "0123456789"[d]
  }

  /** `n.ToString(CultureInfo.InvariantCulture)` for a non-negative number. */
  function NatToDecimal(n: nat): (r: string)
    ensures |r| >= 1 && (n < 10 <==> |r| == 1)
    ensures '0' <= r[|r| - 1] <= '9' && r[|r| - 1] == Digit(n % 10)
    ensures forall i :: 0 <= i < |r| ==> '0' <= r[i] <= '9'
  {
    if n < 10 then [Digit(n)] else NatToDecimal(n / 10) + [Digit(n % 10)]
  }

  /** `n.ToString(CultureInfo.InvariantCulture)`: a leading `-` for negative numbers. */
  function IntToDecimal(n: int): (r: string)
    ensures |r| >= 1
    ensures (r[0] == '-') <==> n < 0
  {
    if n < 0 then "-" + NatToDecimal(-n) else NatToDecimal(n)
  }

  lemma {:induction false} NatToDecimalInjective(m: nat, n: nat)
    requires NatToDecimal(m) == NatToDecimal(n)
    ensures m == n
  {
    var a, b := NatToDecimal(m), NatToDecimal(n);
    assert Digit(m % 10) == a[|a| - 1] == Digit(n % 10);
    assert m % 10 == n % 10;
    if m >= 10 && n >= 10 {
      assert NatToDecimal(m / 10) == a[..|a| - 1] == NatToDecimal(n / 10);
      NatToDecimalInjective(m / 10, n / 10);
    }
  }

  /** Two numbers print the same exactly when they are equal. */
  lemma IntToDecimalInjective(m: int, n: int)
    ensures IntToDecimal(m) == IntToDecimal(n) <==> m == n
  {
    if IntToDecimal(m) == IntToDecimal(n) {
      if m < 0 {
        assert NatToDecimal(-m) == IntToDecimal(m)[1..] == NatToDecimal(-n);
        NatToDecimalInjective(-m, -n);
      } else {
        NatToDecimalInjective(m, n);
      }
    }
  }

  /** The status code of a default response prints as "200". */
  lemma Decimal200()
    ensures IntToDecimal(200) == "200"
  {
    assert NatToDecimal(2) == "2";
    assert NatToDecimal(20) == "20";
  }
}
