/**
 * Block keys of the serialized lobby: `"Client@" + index` is built with C#'s
 * decimal formatting of an int, and a key's tag is the part before its first
 * `@` (what `Split('@')[0]` yields).
 */
module Keys {

  function DigitChar(d: nat): (c: char)
    requires d < 10
    ensures '0' <= c <= '9'
    ensures c as int - '0' as int == d
  {
    ('0' as int + d) as char
  }

  /** The number a run of decimal digits spells, most significant first. */
  function DigitsValue(s: string): nat
    requires forall i :: 0 <= i < |s| ==> '0' <= s[i] <= '9'
  {
    if s == [] then 0 else DigitsValue(s[..|s| - 1]) * 10 + (s[|s| - 1] as int - '0' as int)
  }

  /** The number an optional minus sign followed by decimal digits spells. */
  function ParseInt(s: string): int
    requires forall i :: 0 < i < |s| ==> '0' <= s[i] <= '9'
    requires |s| > 0 && s[0] != '-' ==> '0' <= s[0] <= '9'
  {
    if |s| > 0 && s[0] == '-' then -(DigitsValue(s[1..]) as int) else DigitsValue(s)
  }

  /** Decimal digits of `n`, most significant first, without leading zeros. */
  function NatToString(n: nat): (s: string)
    ensures |s| > 0
    ensures forall i :: 0 <= i < |s| ==> '0' <= s[i] <= '9'
    ensures |s| > 1 ==> s[0] != '0'
  {
    if n < 10 then [DigitChar(n)] else NatToString(n / 10) + [DigitChar(n % 10)]
  }

  /** `int.ToString()`: an optional minus sign followed by the decimal digits of `n`. */
  function IntToString(n: int): (s: string)
    ensures |s| > 0
    ensures '@' !in s
    ensures n < 0 <==> s[0] == '-'
    ensures forall i :: 0 < i < |s| ==> '0' <= s[i] <= '9'
    ensures n >= 0 ==> '0' <= s[0] <= '9'
  {
    if n < 0 then "-" + NatToString(-n) else NatToString(n)
  }

  /** The digits of `n` spell `n`. */
  lemma {:induction false} NatToStringReadsBack(n: nat)
    ensures DigitsValue(NatToString(n)) == n
  {
    if n >= 10 {
      var high := NatToString(n / 10);
      NatToStringReadsBack(n / 10);
      assert (high + [DigitChar(n % 10)])[..|high|] == high;
    }
  }

  /** The text of `n` reads back as `n`. */
  lemma IntToStringReadsBack(n: int)
    ensures ParseInt(IntToString(n)) == n
  {
    if n < 0 {
      var digits := NatToString(-n);
      NatToStringReadsBack(-n);
      assert ("-" + digits)[1..] == digits;
    } else {
      NatToStringReadsBack(n);
    }
  }

  /** The text before the first `@` of `key`, or all of `key` when it has none. */
  function Tag(key: string): (t: string)
    ensures t <= key
    ensures '@' !in t
    ensures |t| < |key| ==> key[|t|] == '@'
  {
    if key == [] || key[0] == '@' then [] else [key[0]] + Tag(key[1..])
  }

  /** A key made of an `@`-free prefix, an `@` and anything after has that prefix as its tag. */
  lemma {:induction false} TagOfJoined(prefix: string, rest: string)
    requires '@' !in prefix
    ensures Tag(prefix + "@" + rest) == prefix
  {
    if prefix != [] {
      assert (prefix + "@" + rest)[1..] == prefix[1..] + "@" + rest;
      TagOfJoined(prefix[1..], rest);
    }
  }

  /** A key without `@` is its own tag. */
  lemma {:induction false} TagOfPlain(key: string)
    requires '@' !in key
    ensures Tag(key) == key
  {
    if key != [] {
      TagOfPlain(key[1..]);
    }
  }
}
