/**
 * Invoice numbers: the configured prefix followed by a sequence number
 * rendered in decimal and left-padded with '0' to at least four digits. The
 * next number is one past the largest suffix among the existing numbers that
 * carry the prefix, but never below the configured start number.
 */
module Numbering {
  import opened Numerals

  /** The width `str_pad` pads the sequence number to. */
  const PadWidth: nat := 4

  /** `number LIKE 'prefix%'`. */
  predicate HasPrefix(number: string, prefix: string)
  {
    |prefix| <= |number| && number[..|prefix|] == prefix
  }

  /**
   * The sequence number read back from an invoice number: the leading digits
   * after the prefix, as `CAST(... AS UNSIGNED)` reads them. This is what the
   * numbering query computes when the prefix is ASCII (see `QuerySuffix`).
   */
  function Suffix(number: string, prefix: string): (n: nat)
    requires HasPrefix(number, prefix)
    ensures AllDigits(number[|prefix|..]) ==> n == Value(number[|prefix|..])
  {
    var tail := number[|prefix|..];
    if AllDigits(tail) then (LeadingDigitsOfNumeral(tail); CastUnsigned(tail)) else CastUnsigned(tail)
  }

  /** The number of bytes MySQL's LENGTH counts for a character stored as UTF-8. */
  function Utf8Width(c: char): nat
  {
    if c as int < 0x80 then 1 else if c as int < 0x800 then 2 else if c as int < 0x1_0000 then 3 else 4
  }

  /** MySQL's LENGTH: the byte length of the UTF-8 encoding. */
  function ByteLength(s: string): (n: nat)
    ensures n >= |s|
  {
    if s == [] then 0 else ByteLength(s[..|s| - 1]) + Utf8Width(s[|s| - 1])
  }

  predicate IsAscii(s: string)
  {
    forall i :: 0 <= i < |s| ==> s[i] as int < 0x80
  }

  /**
   * The suffix as the numbering query reads it:
   * `CAST(SUBSTRING(number, LENGTH(prefix) + 1) AS UNSIGNED)`. SUBSTRING counts
   * characters but LENGTH counts bytes, so past an ASCII prefix it starts
   * further into the number; past the end SUBSTRING gives '', which casts to 0.
   */
  function QuerySuffix(number: string, prefix: string): (n: nat)
    ensures ByteLength(prefix) <= |number| ==> n == Value(LeadingDigits(number[ByteLength(prefix)..]))
    ensures ByteLength(prefix) >= |number| ==> n == 0
  {
    var start := ByteLength(prefix);
    if start <= |number| then CastUnsigned(number[start..]) else 0
  }

  lemma {:induction false} AsciiByteLength(s: string)
    requires IsAscii(s)
    ensures ByteLength(s) == |s|
  {
    if s != [] {
      AsciiByteLength(s[..|s| - 1]);
    }
  }

  /** For an ASCII prefix the query reads exactly the modelled suffix. */
  lemma AsciiQuerySuffix(number: string, prefix: string)
    requires HasPrefix(number, prefix) && IsAscii(prefix)
    ensures QuerySuffix(number, prefix) == Suffix(number, prefix)
  {
    AsciiByteLength(prefix);
  }

  /**
   * With the prefix "№-" (two characters, four bytes) the query reads
   * "№-0099" as 99 but "№-0100" as 0, so once both exist the largest suffix
   * it finds is still 99 and the next number is "№-0100" again, which the
   * unique key on invoice_number refuses. Read as intended, "№-0100" has
   * suffix 100.
   */
  lemma MultibytePrefixRepeatsNumber()
    ensures var prefix := "\U{2116}-";
            && QuerySuffix(prefix + "0099", prefix) == 99
            && QuerySuffix(prefix + "0100", prefix) == 0
            && InvoiceNumber(prefix, NextNumber(99, 1)) == prefix + "0100"
            && Suffix(prefix + "0100", prefix) == 100
  {
    var prefix := "\U{2116}-";
    assert ByteLength(prefix) == 4;
    assert (prefix + "0099")[4..] == Digits(99);
    LeadingDigitsOfNumeral(Digits(99));
    ValueOfDigits(99);
    assert (prefix + "0100")[4..] == Zeros(2);
    LeadingDigitsOfNumeral(Zeros(2));
    ValueOfZeros(2);
    assert InvoiceNumber(prefix, 100) == prefix + "0100";
    InvoiceNumberRoundTrip(prefix, 100);
  }

  /** `last` bounds the suffix of every existing number that carries the prefix. */
  ghost predicate BoundsSuffixes(last: nat, numbers: set<string>, prefix: string)
  {
    forall s :: s in numbers && HasPrefix(s, prefix) ==> Suffix(s, prefix) <= last
  }

  /**
   * `max(last + 1, start)`, where `last` is the MAX over the existing
   * suffixes (NULL, read as 0, when there are none).
   */
  function NextNumber(last: nat, start: int): (n: nat)
    ensures n > last && n >= start
    ensures n == last + 1 || n == start
  {
    if last + 1 >= start then last + 1 else start
  }

  /** `prefix . str_pad(n, 4, '0', STR_PAD_LEFT)`: the prefix, then at least four digits. */
  function InvoiceNumber(prefix: string, n: nat): (number: string)
    ensures HasPrefix(number, prefix) && |number| >= |prefix| + PadWidth
    ensures AllDigits(number[|prefix|..])
  {
    PaddedRoundTrip(n, PadWidth);
    prefix + PadLeft(Digits(n), PadWidth)
  }

  /**
   * A rendered number carries the prefix, has at least four digits after it,
   * and reading its suffix back gives the number it was rendered from.
   */
  lemma InvoiceNumberRoundTrip(prefix: string, n: nat)
    ensures HasPrefix(InvoiceNumber(prefix, n), prefix)
    ensures |InvoiceNumber(prefix, n)| >= |prefix| + PadWidth
    ensures AllDigits(InvoiceNumber(prefix, n)[|prefix|..])
    ensures Suffix(InvoiceNumber(prefix, n), prefix) == n
  {
    var s := InvoiceNumber(prefix, n);
    assert s[|prefix|..] == PadLeft(Digits(n), PadWidth);
    PaddedRoundTrip(n, PadWidth);
  }

  /** Different sequence numbers give different invoice numbers. */
  lemma InvoiceNumberInjective(prefix: string, n: nat, m: nat)
    requires n != m
    ensures InvoiceNumber(prefix, n) != InvoiceNumber(prefix, m)
  {
    InvoiceNumberRoundTrip(prefix, n);
    InvoiceNumberRoundTrip(prefix, m);
  }

  /**
   * The generated number is strictly above every existing suffix, so it is
   * none of the existing invoice numbers: with an ASCII prefix free of quotes
   * the unique key on invoice_number cannot reject it.
   */
  lemma NextInvoiceNumberIsFresh(numbers: set<string>, prefix: string, last: nat, start: int)
    requires BoundsSuffixes(last, numbers, prefix)
    ensures Suffix(InvoiceNumber(prefix, NextNumber(last, start)), prefix) > last
    ensures InvoiceNumber(prefix, NextNumber(last, start)) !in numbers
  {
    var n := NextNumber(last, start);
    InvoiceNumberRoundTrip(prefix, n);
  }

  /**
   * `number` is what the numbering scheme gives next over `numbers`: the
   * prefix followed by max(last + 1, start) in canonical form, where `last`
   * is the largest suffix among the numbers that carry the prefix, or 0.
   */
  ghost predicate IsNextNumber(number: string, numbers: set<string>, prefix: string, start: int)
  {
    && HasPrefix(number, prefix)
    && number == InvoiceNumber(prefix, Suffix(number, prefix))
    && Suffix(number, prefix) >= 1 && Suffix(number, prefix) >= start
    && (forall s :: s in numbers && HasPrefix(s, prefix) ==> Suffix(s, prefix) < Suffix(number, prefix))
    && (|| Suffix(number, prefix) == start
        || Suffix(number, prefix) == 1
        || exists s :: s in numbers && HasPrefix(s, prefix) && Suffix(s, prefix) + 1 == Suffix(number, prefix))
  }

  /** Rendering max(last + 1, start), for `last` the largest existing suffix, gives the next number. */
  lemma NextInvoiceNumberIsNext(numbers: set<string>, prefix: string, last: nat, start: int)
    requires BoundsSuffixes(last, numbers, prefix)
    requires last == 0 || exists s :: s in numbers && HasPrefix(s, prefix) && Suffix(s, prefix) == last
    ensures IsNextNumber(InvoiceNumber(prefix, NextNumber(last, start)), numbers, prefix, start)
  {
    InvoiceNumberRoundTrip(prefix, NextNumber(last, start));
  }

  /** The next number is determined: any two numbers that both qualify are equal. */
  lemma NextNumberIsUnique(a: string, b: string, numbers: set<string>, prefix: string, start: int)
    requires IsNextNumber(a, numbers, prefix, start) && IsNextNumber(b, numbers, prefix, start)
    ensures a == b
  {
    var x, y := Suffix(a, prefix), Suffix(b, prefix);
    if x < y {
      NextIsLeast(a, b, numbers, prefix, start);
    } else if y < x {
      NextIsLeast(b, a, numbers, prefix, start);
    }
  }

  lemma NextIsLeast(a: string, b: string, numbers: set<string>, prefix: string, start: int)
    requires IsNextNumber(a, numbers, prefix, start) && IsNextNumber(b, numbers, prefix, start)
    ensures Suffix(b, prefix) <= Suffix(a, prefix)
  {
    var x, y := Suffix(a, prefix), Suffix(b, prefix);
    if y != start && y != 1 {
      var s :| s in numbers && HasPrefix(s, prefix) && Suffix(s, prefix) + 1 == y;
    }
  }
}
