/** The parts of Python's `str` that the file-name logic relies on:
    `split` on one character, `in` as a substring test, `str(int)` and `int(str)`. */
module Strings {
  import opened Wrappers

  /** Index of the first occurrence of `c` in `s`. */
  function FirstIndex(s: string, c: char): (i: nat)
    requires c in s
    ensures i < |s| && s[i] == c
    ensures c !in s[..i]
  {
    if s[0] == c then 0
    else
      var j := FirstIndex(s[1..], c);
      assert s[..j + 1] == [s[0]] + s[1..][..j];
      j + 1
  }

  /** Python's `s.split(sep)`: the fields between the separators, at least one. */
  function Split(s: string, sep: char): (r: seq<string>)
    ensures |r| >= 1
    ensures forall k :: 0 <= k < |r| ==> sep !in r[k]
    decreases |s|
  {
    if sep !in s then [s]
    else
      var i := FirstIndex(s, sep);
      [s[..i]] + Split(s[i + 1..], sep)
  }

  /** `sep.join(parts)`. */
  function Join(parts: seq<string>, sep: char): string
  {
    if |parts| == 0 then ""
    else if |parts| == 1 then parts[0]
    else parts[0] + [sep] + Join(parts[1..], sep)
  }

  ghost predicate NoSeparator(parts: seq<string>, sep: char)
  {
    forall k :: 0 <= k < |parts| ==> sep !in parts[k]
  }

  lemma {:induction false} FirstIndexAfterPrefix(p: string, sep: char, q: string)
    requires sep !in p
    ensures sep in p + [sep] + q
    ensures FirstIndex(p + [sep] + q, sep) == |p|
    decreases |p|
  {
    var s := p + [sep] + q;
    assert s[|p|] == sep;
    if p != [] {
      assert p[0] in p;
      assert s[1..] == p[1..] + [sep] + q;
      FirstIndexAfterPrefix(p[1..], sep, q);
    }
  }

  /** The first field of `p + sep + q` is `p` when `p` holds no separator. */
  lemma SplitHead(p: string, sep: char, q: string)
    requires sep !in p
    ensures Split(p + [sep] + q, sep) == [p] + Split(q, sep)
  {
    var s := p + [sep] + q;
    FirstIndexAfterPrefix(p, sep, q);
    assert s[..|p|] == p;
    assert s[|p| + 1..] == q;
  }

  /** Splitting a joined list gives the list back, when no part holds the separator. */
  lemma {:induction false} SplitJoin(parts: seq<string>, sep: char)
    requires |parts| >= 1
    requires NoSeparator(parts, sep)
    ensures Split(Join(parts, sep), sep) == parts
    decreases |parts|
  {
    if |parts| == 1 {
      assert Join(parts, sep) == parts[0];
    } else {
      SplitHead(parts[0], sep, Join(parts[1..], sep));
      SplitJoin(parts[1..], sep);
      assert [parts[0]] + parts[1..] == parts;
    }
  }

  /** Joining the fields of a split gives the string back. */
  lemma {:induction false} JoinSplit(s: string, sep: char)
    ensures Join(Split(s, sep), sep) == s
    decreases |s|
  {
    if sep in s {
      var i := FirstIndex(s, sep);
      var rest := Split(s[i + 1..], sep);
      JoinSplit(s[i + 1..], sep);
      assert Split(s, sep) == [s[..i]] + rest;
      assert ([s[..i]] + rest)[1..] == rest;
      assert s == s[..i] + [sep] + s[i + 1..];
    }
  }

  /** Python's `sub in s` on strings. */
  function Contains(s: string, sub: string): bool
    decreases |s|
  {
    sub <= s || (|s| > 0 && Contains(s[1..], sub))
  }

  ghost predicate OccursAt(s: string, sub: string, i: nat)
  {
    i + |sub| <= |s| && s[i..i + |sub|] == sub
  }

  /** `Contains` holds exactly when `sub` occurs at some position of `s`. */
  lemma {:induction false} ContainsIff(s: string, sub: string)
    ensures Contains(s, sub) <==> exists i: nat :: OccursAt(s, sub, i)
    decreases |s|
  {
    if sub <= s {
      assert OccursAt(s, sub, 0);
    } else if |s| == 0 {
      assert |sub| > 0;
      assert forall i: nat :: !OccursAt(s, sub, i);
    } else {
      ContainsIff(s[1..], sub);
      if Contains(s[1..], sub) {
        var i: nat :| OccursAt(s[1..], sub, i);
        assert s[i + 1..i + 1 + |sub|] == s[1..][i..i + |sub|];
        assert OccursAt(s, sub, i + 1);
      } else {
        forall i: nat ensures !OccursAt(s, sub, i) {
          if i == 0 {
            assert OccursAt(s, sub, 0) ==> sub <= s;
          } else if i + |sub| <= |s| {
            assert s[1..][i - 1..i - 1 + |sub|] == s[i..i + |sub|];
            assert !OccursAt(s[1..], sub, i - 1);
          }
        }
      }
    }
  }

  lemma ContainsSelf(s: string, sub: string, p: string, q: string)
    requires s == p + sub + q
    ensures Contains(s, sub)
  {
    assert s[|p|..|p| + |sub|] == sub;
    assert OccursAt(s, sub, |p|);
    ContainsIff(s, sub);
  }

  predicate IsDigit(c: char) { '0' <= c <= '9' }

  predicate AllDigits(s: string) { forall k :: 0 <= k < |s| ==> IsDigit(s[k]) }

  function DigitChar(d: nat): (c: char)
    requires d < 10
    ensures IsDigit(c)
  {
    (48 + d) as char
  }

  function DigitValue(c: char): (d: nat)
    requires IsDigit(c)
    ensures d < 10
  {
    (c as int) - 48
  }

  /** Decimal digits of `n`, most significant first, without leading zeros. */
  function NatToString(n: nat): (r: string)
    ensures |r| >= 1 && AllDigits(r)
  {
    if n < 10 then [DigitChar(n)] else NatToString(n / 10) + [DigitChar(n % 10)]
  }

  /** Python's `str(n)` (and `'%i' % n`) for an integer. */
  function IntToString(n: int): (r: string)
    ensures |r| >= 1
    ensures n >= 0 ==> AllDigits(r)
    ensures n < 0 ==> r[0] == '-' && AllDigits(r[1..])
  {
    if n < 0 then "-" + NatToString(-n) else NatToString(n)
  }

  function DigitsValue(s: string): nat
    requires AllDigits(s)
  {
    if |s| == 0 then 0 else DigitsValue(s[..|s| - 1]) * 10 + DigitValue(s[|s| - 1])
  }

  /** The ASCII whitespace `str.strip()` and `int()` skip: space, tab, line feed,
      carriage return, vertical tab and form feed. */
  predicate IsSpace(c: char)
  {
    c == ' ' || c == '\t' || c == '\n' || c == '\r' || c == 11 as char || c == 12 as char
  }

  /** `s.lstrip()`: the suffix of `s` after its leading whitespace. */
  function TrimStart(s: string): (r: string)
    ensures |r| <= |s| && r == s[|s| - |r|..]
    ensures |r| > 0 ==> !IsSpace(r[0])
    ensures forall k :: 0 <= k < |s| - |r| ==> IsSpace(s[k])
  {
    if |s| > 0 && IsSpace(s[0]) then TrimStart(s[1..]) else s
  }

  /** `s.rstrip()`: the prefix of `s` before its trailing whitespace. */
  function TrimEnd(s: string): (r: string)
    ensures |r| <= |s| && r == s[..|r|]
    ensures |r| > 0 ==> !IsSpace(r[|r| - 1])
    ensures forall k :: |r| <= k < |s| ==> IsSpace(s[k])
  {
    if |s| > 0 && IsSpace(s[|s| - 1]) then TrimEnd(s[..|s| - 1]) else s
  }

  /** `s.strip()`. */
  function Strip(s: string): string
  {
    TrimEnd(TrimStart(s))
  }

  /** Python's `int(s)`: a decimal literal with an optional sign, surrounded by
      any whitespace; anything else raises ValueError. */
  function ParseInt(s: string): (r: Outcome<int>)
    ensures r.Success? ==> |Strip(s)| >= 1 && !IsSpace(Strip(s)[0])
    ensures r.Failure? ==> r.error.ValueError?
  {
    var t := Strip(s);
    if |t| >= 2 && (t[0] == '-' || t[0] == '+') && AllDigits(t[1..]) then
      Success(if t[0] == '-' then -(DigitsValue(t[1..]) as int) else DigitsValue(t[1..]))
    else if |t| >= 1 && AllDigits(t) then
      Success(DigitsValue(t))
    else
      Failure(ValueError("invalid literal for int(): " + s))
  }

  lemma {:induction false} DigitsOfNat(n: nat)
    ensures DigitsValue(NatToString(n)) == n
  {
    if n >= 10 {
      var r := NatToString(n);
      assert r[..|r| - 1] == NatToString(n / 10);
      DigitsOfNat(n / 10);
    }
  }

  /** A string that neither starts nor ends with whitespace is its own `strip()`. */
  lemma StripPlain(s: string)
    requires |s| > 0 && !IsSpace(s[0]) && !IsSpace(s[|s| - 1])
    ensures Strip(s) == s
  {
  }

  /** `int(str(n)) == n`. */
  lemma ParseIntToString(n: int)
    ensures ParseInt(IntToString(n)) == Success(n)
  {
    var s := IntToString(n);
    StripPlain(s);
    if n < 0 {
      assert s[1..] == NatToString(-n);
      DigitsOfNat(-n);
      assert ParseInt(s) == Success(-(DigitsValue(s[1..]) as int));
    } else {
      assert IsDigit(s[0]);
      DigitsOfNat(n);
      assert ParseInt(s) == Success(DigitsValue(s));
    }
  }

  /** Whitespace around the digits is skipped: `int(' ' + str(n) + '\n') == n`. */
  lemma ParseIntSpaced(n: int)
    ensures ParseInt(" " + IntToString(n) + "\n") == Success(n)
  {
    var s := IntToString(n);
    PrintedUnspaced(n);
    StripSpaced(s);
    StripPlain(s);
    ParseIntToString(n);
  }

  lemma PrintedUnspaced(n: int)
    ensures var s := IntToString(n); |s| > 0 && !IsSpace(s[0]) && !IsSpace(s[|s| - 1])
  {
    var s := IntToString(n);
    if n < 0 {
      assert IsDigit(s[1..][|s| - 2]);
    } else {
      assert IsDigit(s[0]) && IsDigit(s[|s| - 1]);
    }
  }

  lemma StripSpaced(s: string)
    requires |s| > 0 && !IsSpace(s[0]) && !IsSpace(s[|s| - 1])
    ensures Strip(" " + s + "\n") == Strip(s)
  {
    var p := " " + s + "\n";
    assert p[1..] == s + "\n";
    assert TrimStart(p) == s + "\n";
    assert (s + "\n")[..|s|] == s;
  }

  lemma AllDigitsExcludes(s: string, c: char)
    requires AllDigits(s) && !IsDigit(c)
    ensures c !in s
  {
  }

  /** The decimal text of an integer holds no '_' and no '.'. */
  lemma IntToStringPlain(n: int)
    ensures '_' !in IntToString(n) && '.' !in IntToString(n)
    ensures n >= 0 ==> '-' !in IntToString(n)
  {
    var r := IntToString(n);
    if n < 0 {
      assert r == [r[0]] + r[1..];
      AllDigitsExcludes(r[1..], '_');
      AllDigitsExcludes(r[1..], '.');
    } else {
      AllDigitsExcludes(r, '_');
      AllDigitsExcludes(r, '.');
      AllDigitsExcludes(r, '-');
    }
  }
}
