/**
 Chunk indexes of pkg/file/upload.go: a chunk is stored under the decimal form of
 its index and found again by parsing the name of the file.
 */
module ChunkNames {
  import opened Options

  const MAX_UINT64: nat := 0xFFFF_FFFF_FFFF_FFFF

  predicate IsDigit(c: char) {
    '0' <= c <= '9'
  }

  predicate AllDigits(s: string) {
    forall k :: 0 <= k < |s| ==> IsDigit(s[k])
  }

  function DigitOf(d: nat): (c: char)
    requires d < 10
    ensures IsDigit(c) && c as int - '0' as int == d
  {
    ('0' as int + d) as char
  }

  function Value(s: string): nat
    requires AllDigits(s)
    decreases |s|
  {
    if s == "" then 0 else 10 * Value(s[..|s| - 1]) + (s[|s| - 1] as int - '0' as int)
  }

  /** parseChunkIndex: strconv.ParseUint with base 10 and 64 bits. Leading zeros are accepted. */
  function Index(s: string): Option<nat> {
    if s != "" && AllDigits(s) && Value(s) <= MAX_UINT64 then Some(Value(s)) else None
  }

  /** strconv.FormatUint with base 10. */
  function Format(n: nat): string {
    if n < 10 then [DigitOf(n)] else Format(n / 10) + [DigitOf(n % 10)]
  }

  predicate Canonical(s: string) {
    s != "" && AllDigits(s) && (|s| == 1 || s[0] != '0')
  }

  lemma {:induction false} FormatIsCanonical(n: nat)
    ensures Canonical(Format(n)) && Value(Format(n)) == n
    ensures n > 0 ==> Format(n)[0] != '0'
  {
    if n >= 10 {
      FormatIsCanonical(n / 10);
      var s := Format(n / 10);
      assert Format(n)[..|Format(n)| - 1] == s;
    } else {
      assert Format(n)[..0] == "";
    }
  }

  lemma {:induction false} CanonicalIsFormatted(s: string)
    requires Canonical(s)
    ensures Format(Value(s)) == s
    ensures s[0] != '0' ==> Value(s) > 0
    decreases |s|
  {
    var front := s[..|s| - 1];
    if |s| == 1 {
      assert front == "";
    } else {
      CanonicalIsFormatted(front);
      assert s == front + [s[|s| - 1]];
    }
  }

  /** What ChunkSave names, readChunkFiles reads back; and a name comes from ChunkSave iff it is canonical. */
  lemma IndexRoundTrip(n: nat, s: string)
    ensures n <= 18446744073709551615 <==> Index(Format(n)) == Some(n)
    ensures Index("") == None
    ensures Index(s).Some? ==> (Format(Index(s).value) == s <==> Canonical(s))
  {
    FormatIsCanonical(n);
    if Index(s).Some? {
      FormatIsCanonical(Value(s));
      if Canonical(s) {
        CanonicalIsFormatted(s);
      }
    }
  }

  /** Two chunks saved under different indexes never meet in one file. */
  lemma FormatIsInjective(m: nat, n: nat)
    ensures Format(m) == Format(n) <==> m == n
  {
    FormatIsCanonical(m);
    FormatIsCanonical(n);
  }
}
