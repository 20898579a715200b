/** String helpers shared by the views: JavaScript's `split` and `join` on a
    single separator character, and decimal digits of naturals. */
module Text {

  /** The decimal digit character for `n`. */
  function DigitChar(n: nat): (c: char)
    requires n < 10
    ensures '0' <= c <= '9'
    ensures c as int - '0' as int == n
  {
    ('0' as int + n) as char
  }

  predicate IsDigits(s: string)
  {
    forall i :: 0 <= i < |s| ==> '0' <= s[i] <= '9'
  }

  function Pow10(n: nat): (r: nat)
    ensures r >= 1
  {
    if n == 0 then 1 else 10 * Pow10(n - 1)
  }

  /** The value of a string of decimal digits. */
  function DigitsValue(s: string): nat
    requires IsDigits(s)
  {
    if s == [] then 0
    else DigitsValue(s[..|s| - 1]) * 10 + (s[|s| - 1] as int - '0' as int)
  }

  /** The last `width` decimal digits of `n`, zero-padded on the left
      (the `MM`, `DD` and `YYYY` fields of an ISO 8601 calendar date). */
  function Digits(n: nat, width: nat): (r: string)
    ensures |r| == width
    ensures IsDigits(r)
  {
    if width == 0 then "" else Digits(n / 10, width - 1) + [DigitChar(n % 10)]
  }

  /** Decimal notation of `n` without leading zeros, as JavaScript prints an
      integral number. */
  function Decimal(n: nat): (r: string)
    ensures 1 <= |r|
    ensures IsDigits(r)
    ensures |r| > 1 ==> r[0] != '0'
  {
    if n < 10 then [DigitChar(n)] else Decimal(n / 10) + [DigitChar(n % 10)]
  }

  /** JavaScript's string conversion of an integral number. */
  function IntText(n: int): string
  {
    if n < 0 then "-" + Decimal(-n) else Decimal(n)
  }

  lemma {:induction false} DigitsRoundTrip(n: nat, width: nat)
    requires n < Pow10(width)
    ensures DigitsValue(Digits(n, width)) == n
  {
    if width > 0 {
      var r := Digits(n, width);
      var init := Digits(n / 10, width - 1);
      assert r[..|r| - 1] == init;
      DivTenBound(n, Pow10(width - 1));
      DigitsRoundTrip(n / 10, width - 1);
      assert DigitsValue(r) == DigitsValue(init) * 10 + n % 10;
    }
  }

  lemma DivTenBound(n: nat, p: nat)
    requires n < 10 * p
    ensures n / 10 < p
  {
  }

  lemma {:induction false} DecimalRoundTrip(n: nat)
    ensures DigitsValue(Decimal(n)) == n
  {
    var r := Decimal(n);
    if n >= 10 {
      assert r[..|r| - 1] == Decimal(n / 10);
      DecimalRoundTrip(n / 10);
    } else {
      assert r[..|r| - 1] == [];
    }
  }

  /** JavaScript's `s.split(sep)` for a one-character separator: the maximal
      separator-free pieces, in order; there is always at least one piece. */
  function Split(s: string, sep: char): (r: seq<string>)
    ensures |r| >= 1
    ensures forall k :: 0 <= k < |r| ==> sep !in r[k]
  {
    if s == [] then [""]
    else
      var rest := Split(s[1..], sep);
      if s[0] == sep then [""] + rest else [[s[0]] + rest[0]] + rest[1..]
  }

  /** JavaScript's `parts.join(sep)`. */
  function Join(parts: seq<string>, sep: string): string
  {
    if |parts| == 0 then ""
    else if |parts| == 1 then parts[0]
    else parts[0] + sep + Join(parts[1..], sep)
  }

  lemma {:induction false} SplitWithoutSeparator(a: string, sep: char)
    requires sep !in a
    ensures Split(a, sep) == [a]
  {
    if a != [] {
      SplitWithoutSeparator(a[1..], sep);
      assert [a[0]] + a[1..] == a;
    }
  }

  lemma {:induction false} SplitAtFirstSeparator(a: string, sep: char, b: string)
    requires sep !in a
    ensures Split(a + [sep] + b, sep) == [a] + Split(b, sep)
  {
    var s := a + [sep] + b;
    if a == [] {
      assert s[0] == sep && s[1..] == b;
    } else {
      assert s[0] == a[0] && s[1..] == a[1..] + [sep] + b;
      SplitAtFirstSeparator(a[1..], sep, b);
      assert [a[0]] + a[1..] == a;
    }
  }

  /** Splitting undoes joining with the same separator, when no piece
      contains the separator. */
  lemma {:induction false} SplitJoin(parts: seq<string>, sep: char)
    requires |parts| >= 1
    requires forall k :: 0 <= k < |parts| ==> sep !in parts[k]
    ensures Split(Join(parts, [sep]), sep) == parts
  {
    if |parts| == 1 {
      SplitWithoutSeparator(parts[0], sep);
    } else {
      SplitJoin(parts[1..], sep);
      SplitAtFirstSeparator(parts[0], sep, Join(parts[1..], [sep]));
    }
  }

  /** Joining undoes splitting. */
  lemma {:induction false} JoinSplit(s: string, sep: char)
    ensures Join(Split(s, sep), [sep]) == s
  {
    if s != [] {
      var rest := Split(s[1..], sep);
      JoinSplit(s[1..], sep);
      if s[0] != sep {
        var r := Split(s, sep);
        assert r[1..] == rest[1..];
        if |rest| > 1 {
          assert rest == [rest[0]] + rest[1..];
        }
      }
    }
  }

  /** Where piece `i` starts in `Join(parts, sep)`. */
  function JoinOffset(parts: seq<string>, sep: string, i: nat): nat
    requires i <= |parts|
  {
    if i == 0 then 0 else |parts[0]| + |sep| + JoinOffset(parts[1..], sep, i - 1)
  }

  /** Piece `i` of a join sits at `JoinOffset(parts, sep, i)`, and piece
      `i + 1` starts after it and one separator: the pieces appear whole and
      in order. */
  lemma {:induction false} JoinAt(parts: seq<string>, sep: string, i: nat)
    requires i < |parts|
    ensures JoinOffset(parts, sep, i) + |parts[i]| <= |Join(parts, sep)|
    ensures Join(parts, sep)[JoinOffset(parts, sep, i)..JoinOffset(parts, sep, i) + |parts[i]|] == parts[i]
    ensures i + 1 < |parts| ==>
      JoinOffset(parts, sep, i + 1) == JoinOffset(parts, sep, i) + |parts[i]| + |sep|
  {
    if i > 0 {
      var rest := parts[1..];
      JoinAt(rest, sep, i - 1);
      var tail := Join(rest, sep);
      var k := |parts[0]| + |sep|;
      var o := JoinOffset(rest, sep, i - 1);
      assert rest[i - 1] == parts[i];
      assert JoinOffset(parts, sep, i) == k + o;
      assert Join(parts, sep) == parts[0] + sep + tail;
      assert Join(parts, sep)[k..] == tail;
      assert Join(parts, sep)[k + o..k + o + |parts[i]|] == tail[o..o + |parts[i]|];
      if i + 1 < |parts| {
        assert JoinOffset(parts, sep, i + 1) == k + JoinOffset(rest, sep, i);
      }
    } else if |parts| > 1 {
      assert JoinOffset(parts, sep, 1) == |parts[0]| + |sep| + JoinOffset(parts[1..], sep, 0);
      assert Join(parts, sep) == parts[0] + (sep + Join(parts[1..], sep));
    } else {
      assert Join(parts, sep) == parts[0];
    }
  }
}
