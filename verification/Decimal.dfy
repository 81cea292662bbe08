/** Decimal rendering and parsing of 64-bit integers, as stored in Redis hash fields. */
module Decimal {
  import opened Basics

  const MIN_INT64 := -0x8000_0000_0000_0000
  const MAX_INT64 := 0x7fff_ffff_ffff_ffff

  predicate InInt64(n: int) {
    MIN_INT64 <= n <= MAX_INT64
  }

  function Digit(d: nat): char
    requires d < 10
  {
    '0' + d as char
  }

  function FormatNat(n: nat): (s: string)
    ensures s != [] && '0' <= s[0] <= '9'
  {
    if n < 10 then [Digit(n)] else FormatNat(n / 10) + [Digit(n % 10)]
  }

  function FormatInt(n: int): string {
    if n < 0 then "-" + FormatNat(-n) else FormatNat(n)
  }

  function ParseNat(s: string): Option<nat> {
    if s == [] then None
    else
      var c := s[|s| - 1];
      if !('0' <= c <= '9') then None
      else
        var d := (c - '0') as nat;
        if |s| == 1 then Some(d)
        else
          var rest := ParseNat(s[..|s| - 1]);
          if rest.None? then None else Some(10 * rest.value + d)
  }

  /** An optional sign and digits, out of range outside 64 bits. */
  function ParseInt(s: string): (r: Option<int>)
    ensures r.Some? ==> InInt64(r.value)
  {
    var digits := if s != [] && (s[0] == '-' || s[0] == '+') then s[1..] else s;
    var magnitude := ParseNat(digits);
    if magnitude.None? then None
    else
      var n := if s[0] == '-' then 0 - magnitude.value else magnitude.value;
      if InInt64(n) then Some(n) else None
  }

  lemma {:induction false} ParseFormatNat(n: nat)
    ensures ParseNat(FormatNat(n)) == Some(n)
  {
    if n >= 10 {
      ParseFormatNat(n / 10);
      assert FormatNat(n)[..|FormatNat(n)| - 1] == FormatNat(n / 10);
    }
  }

  /** A stored integer reads back as itself exactly when it fits in 64 bits. */
  lemma ParseFormat(n: int)
    ensures ParseInt(FormatInt(n)) == if InInt64(n) then Some(n) else None
  {
    if n < 0 {
      ParseFormatNat(-n);
      assert FormatInt(n)[1..] == FormatNat(-n);
    } else {
      ParseFormatNat(n);
    }
  }
}
