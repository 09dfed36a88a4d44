/** Text helpers shared by the worker: Python's `str(int)` and `int(str)` on
    plain decimal numerals, `sep.join(parts)`, infix search, and the
    directory / last-segment split that `key.rsplit("/", 1)` performs. */
module Text {
  import opened Wrappers

  predicate IsDigit(c: char) {
    '0' <= c <= '9'
  }

  predicate AllDigits(s: string) {
    forall i :: 0 <= i < |s| ==> IsDigit(s[i])
  }

  function DigitChar(d: nat): (c: char)
    requires d < 10
    ensures IsDigit(c)
  {
    ('0' as int + d) as char
  }

  function DigitValue(c: char): nat
    requires IsDigit(c)
  {
    c as int - '0' as int
  }

  /** Decimal digits of `n`, most significant first, without leading zeros. */
  function NatToDigits(n: nat): (s: string)
    ensures |s| > 0 && AllDigits(s)
    decreases n
  {
    if n < 10 then [DigitChar(n)] else NatToDigits(n / 10) + [DigitChar(n % 10)]
  }

  /** The number a string of decimal digits denotes. */
  function DigitsToNat(s: string): nat
    requires AllDigits(s)
  {
    if |s| == 0 then 0 else DigitsToNat(s[..|s| - 1]) * 10 + DigitValue(s[|s| - 1])
  }

  lemma {:induction false} DigitsRoundTrip(n: nat)
    ensures DigitsToNat(NatToDigits(n)) == n
    decreases n
  {
    if n >= 10 {
      var s := NatToDigits(n);
      assert s[..|s| - 1] == NatToDigits(n / 10);
      DigitsRoundTrip(n / 10);
    }
  }

  /** Python's `str(n)` for an `int`: a minus sign for negatives, then the digits. */
  function IntToString(n: int): (s: string)
    ensures |s| > 0
    ensures '/' !in s && ':' !in s
  {
    if n < 0 then "-" + NatToDigits(-n) else NatToDigits(n)
  }

  /** Python's `int(s)` on an optional sign followed by at least one decimal digit;
      `None` where Python raises `ValueError`. */
  function ParseInt(s: string): Option<int> {
    if |s| > 0 && (s[0] == '-' || s[0] == '+') then
      if |s| > 1 && AllDigits(s[1..]) then
        Some(if s[0] == '-' then -(DigitsToNat(s[1..]) as int) else DigitsToNat(s[1..]))
      else None
    else if |s| > 0 && AllDigits(s) then Some(DigitsToNat(s))
    else None
  }

  /** `int(str(n)) == n`. */
  lemma IntToStringRoundTrip(n: int)
    ensures ParseInt(IntToString(n)) == Some(n)
  {
    if n < 0 {
      var s := IntToString(n);
      assert s[1..] == NatToDigits(-n);
      DigitsRoundTrip(-n);
    } else {
      DigitsRoundTrip(n);
    }
  }

  /** Distinct integers print differently. */
  lemma IntToStringInjective(a: int, b: int)
    ensures IntToString(a) == IntToString(b) ==> a == b
  {
    IntToStringRoundTrip(a);
    IntToStringRoundTrip(b);
  }

  /** `sep.join(parts)`. */
  function Join(parts: seq<string>, sep: string): string
  {
    if |parts| == 0 then ""
    else if |parts| == 1 then parts[0]
    else parts[0] + sep + Join(parts[1..], sep)
  }

  predicate IsPrefix(t: string, s: string) {
    |t| <= |s| && s[..|t|] == t
  }

  /** A joined text begins with its first part. */
  lemma JoinStartsWithFirst(parts: seq<string>, sep: string)
    requires |parts| > 0
    ensures IsPrefix(parts[0], Join(parts, sep))
  {
    if |parts| > 1 {
      assert Join(parts, sep) == parts[0] + (sep + Join(parts[1..], sep));
    }
  }

  /** Python's `t in s` on strings. */
  predicate IsInfix(t: string, s: string) {
    exists k | 0 <= k <= |s| :: IsPrefix(t, s[k..])
  }

  lemma InfixAt(t: string, s: string, k: nat)
    requires k + |t| <= |s| && s[k..k + |t|] == t
    ensures IsInfix(t, s)
  {
    assert IsPrefix(t, s[k..]);
  }

  lemma InfixSelf(t: string)
    ensures IsInfix(t, t)
  {
    InfixAt(t, t, 0);
  }

  /** An infix of either operand is an infix of the concatenation. */
  lemma InfixOfConcat(t: string, a: string, b: string)
    ensures IsInfix(t, a) ==> IsInfix(t, a + b)
    ensures IsInfix(t, b) ==> IsInfix(t, a + b)
  {
    if IsInfix(t, a) {
      var k :| 0 <= k <= |a| && IsPrefix(t, a[k..]);
      assert (a + b)[k..k + |t|] == a[k..k + |t|];
      InfixAt(t, a + b, k);
    }
    if IsInfix(t, b) {
      var k :| 0 <= k <= |b| && IsPrefix(t, b[k..]);
      assert (a + b)[|a| + k..|a| + k + |t|] == b[k..k + |t|];
      InfixAt(t, a + b, |a| + k);
    }
  }

  lemma InfixTransitive(t: string, u: string, s: string)
    requires IsInfix(t, u) && IsInfix(u, s)
    ensures IsInfix(t, s)
  {
    var i :| 0 <= i <= |u| && IsPrefix(t, u[i..]);
    var j :| 0 <= j <= |s| && IsPrefix(u, s[j..]);
    forall m | 0 <= m < |t|
      ensures s[j + i + m] == t[m]
    {
      assert t[m] == u[i..][..|t|][m] == u[i + m];
      assert u[i + m] == s[j..][..|u|][i + m] == s[j + i + m];
    }
    assert s[j + i..j + i + |t|] == t;
    InfixAt(t, s, j + i);
  }

  /** Every part of a join appears verbatim in the joined text. */
  lemma {:induction false} JoinContainsPart(parts: seq<string>, sep: string, i: nat)
    requires i < |parts|
    ensures IsInfix(parts[i], Join(parts, sep))
  {
    if |parts| == 1 {
      InfixSelf(parts[0]);
    } else if i == 0 {
      InfixSelf(parts[0]);
      InfixOfConcat(parts[0], parts[0], sep + Join(parts[1..], sep));
      assert parts[0] + sep + Join(parts[1..], sep) == parts[0] + (sep + Join(parts[1..], sep));
    } else {
      JoinContainsPart(parts[1..], sep, i - 1);
      InfixOfConcat(parts[i], parts[0] + sep, Join(parts[1..], sep));
    }
  }

  /** A piece of one line is a piece of the joined text. */
  lemma JoinContainsInfix(t: string, parts: seq<string>, sep: string, i: nat)
    requires i < |parts| && IsInfix(t, parts[i])
    ensures IsInfix(t, Join(parts, sep))
  {
    JoinContainsPart(parts, sep, i);
    InfixTransitive(t, parts[i], Join(parts, sep));
  }

  /** The text before the last '/' of `key`, or "" when it has none: what
      `"/".join(key.rsplit("/", 1)[:-1])` computes. */
  function DirName(key: string): string
    decreases |key|
  {
    if |key| == 0 then ""
    else if key[|key| - 1] == '/' then key[..|key| - 1]
    else DirName(key[..|key| - 1])
  }

  /** The text after the last '/' of `key`, or all of `key` when it has none. */
  function BaseName(key: string): string
    decreases |key|
  {
    if |key| == 0 then ""
    else if key[|key| - 1] == '/' then ""
    else BaseName(key[..|key| - 1]) + [key[|key| - 1]]
  }

  /** Splitting `dir + "/" + name` at its last '/' gives back `dir` and `name`. */
  lemma {:induction false} SplitAtLastSlash(dir: string, name: string)
    requires '/' !in name
    ensures DirName(dir + "/" + name) == dir
    ensures BaseName(dir + "/" + name) == name
    decreases |name|
  {
    var key := dir + "/" + name;
    if |name| == 0 {
      assert key[..|key| - 1] == dir;
    } else {
      var shorter := name[..|name| - 1];
      assert key[..|key| - 1] == dir + "/" + shorter;
      assert key[|key| - 1] == name[|name| - 1];
      SplitAtLastSlash(dir, shorter);
      assert shorter + [name[|name| - 1]] == name;
    }
  }

  /** A key without any '/' has an empty directory and is its own last segment. */
  lemma {:induction false} NoSlashKey(key: string)
    requires '/' !in key
    ensures DirName(key) == ""
    ensures BaseName(key) == key
    decreases |key|
  {
    if |key| > 0 {
      var shorter := key[..|key| - 1];
      assert key[|key| - 1] in key;
      NoSlashKey(shorter);
      assert shorter + [key[|key| - 1]] == key;
    }
  }

  /** Every key is its directory, a '/', and its last segment, unless it has no '/'. */
  lemma {:induction false} DirNameBaseNameRecompose(key: string)
    ensures '/' in key ==> key == DirName(key) + "/" + BaseName(key)
    ensures '/' !in key ==> key == BaseName(key)
    ensures '/' !in BaseName(key)
    decreases |key|
  {
    if |key| == 0 {
    } else if key[|key| - 1] == '/' {
      assert key == key[..|key| - 1] + "/" + "";
    } else {
      var shorter := key[..|key| - 1];
      var last := key[|key| - 1];
      DirNameBaseNameRecompose(shorter);
      assert key == shorter + [last];
      if '/' in key {
        assert '/' in shorter by {
          var k :| 0 <= k < |key| && key[k] == '/';
          assert k < |key| - 1;
          assert shorter[k] == '/';
        }
        assert key == DirName(shorter) + "/" + BaseName(shorter) + [last];
      } else {
        assert '/' !in shorter by {
          forall k | 0 <= k < |shorter| ensures shorter[k] != '/' {
            assert shorter[k] == key[k];
          }
        }
      }
    }
  }
}
