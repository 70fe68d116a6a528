/**
 * Calendar dates written `YYYY-MM-DD`, the format of a week's start date
 * (types.ts:20), whose string order is meant to be date order.
 */
module Dates {
  import opened Numerals

  /** The digit-and-dash shape `YYYY-MM-DD`; month and day ranges are not checked. */
  predicate IsIsoDate(s: string)
  {
    && |s| == 10
    && IsDigit(s[0]) && IsDigit(s[1]) && IsDigit(s[2]) && IsDigit(s[3])
    && s[4] == '-'
    && IsDigit(s[5]) && IsDigit(s[6])
    && s[7] == '-'
    && IsDigit(s[8]) && IsDigit(s[9])
  }

  function Year(s: string): nat
    requires IsIsoDate(s)
  {
    1000 * DigitValue(s[0]) + 100 * DigitValue(s[1]) + 10 * DigitValue(s[2]) + DigitValue(s[3])
  }

  function Month(s: string): nat
    requires IsIsoDate(s)
  {
    10 * DigitValue(s[5]) + DigitValue(s[6])
  }

  function Day(s: string): nat
    requires IsIsoDate(s)
  {
    10 * DigitValue(s[8]) + DigitValue(s[9])
  }

  /** Calendar order: by year, then month, then day. */
  predicate CalendarBefore(a: string, b: string)
    requires IsIsoDate(a) && IsIsoDate(b)
  {
    || Year(a) < Year(b)
    || (Year(a) == Year(b) && Month(a) < Month(b))
    || (Year(a) == Year(b) && Month(a) == Month(b) && Day(a) < Day(b))
  }

  /** The year, month and day fields are the numerals they are written as. */
  lemma FieldsAreNumerals(s: string)
    requires IsIsoDate(s)
    ensures AllDigits(s[..4]) && Parse(s[..4]) == Year(s)
    ensures AllDigits(s[5..7]) && Parse(s[5..7]) == Month(s)
    ensures AllDigits(s[8..]) && Parse(s[8..]) == Day(s)
  {
    assert s[..4][..3] == s[..3] && s[..3][..2] == s[..2] && s[..2][..1] == s[..1] && s[..1][..0] == [];
    assert Parse(s[..1]) == DigitValue(s[0]);
    assert Parse(s[..2]) == 10 * DigitValue(s[0]) + DigitValue(s[1]);
    assert Parse(s[..3]) == 100 * DigitValue(s[0]) + 10 * DigitValue(s[1]) + DigitValue(s[2]);
    assert s[5..7][..1] == s[5..6] && s[5..6][..0] == [];
    assert Parse(s[5..6]) == DigitValue(s[5]);
    assert s[8..][..1] == s[8..9] && s[8..9][..0] == [];
    assert Parse(s[8..9]) == DigitValue(s[8]);
  }

  /** For `YYYY-MM-DD` strings, comparing the strings compares the dates. */
  lemma IsoOrderIsCalendarOrder(a: string, b: string)
    requires IsIsoDate(a) && IsIsoDate(b)
    ensures LexLess(a, b) <==> CalendarBefore(a, b)
  {
    FieldsAreNumerals(a);
    FieldsAreNumerals(b);
    assert a == a[..4] + ([a[4]] + (a[5..7] + ([a[7]] + a[8..])));
    assert b == b[..4] + ([b[4]] + (b[5..7] + ([b[7]] + b[8..])));
    LexLessConcat(a[..4], [a[4]] + (a[5..7] + ([a[7]] + a[8..])), b[..4], [b[4]] + (b[5..7] + ([b[7]] + b[8..])));
    LexLessConcat([a[4]], a[5..7] + ([a[7]] + a[8..]), [b[4]], b[5..7] + ([b[7]] + b[8..]));
    LexLessConcat(a[5..7], [a[7]] + a[8..], b[5..7], [b[7]] + b[8..]);
    LexLessConcat([a[7]], a[8..], [b[7]], b[8..]);
    LexLessIsNumeric(a[..4], b[..4]);
    LexLessIsNumeric(a[5..7], b[5..7]);
    LexLessIsNumeric(a[8..], b[8..]);
    ParseInjective(a[..4], b[..4]);
    ParseInjective(a[5..7], b[5..7]);
    assert [a[4]] == [b[4]] && [a[7]] == [b[7]];
    assert !LexLess([a[4]], [b[4]]) && !LexLess([a[7]], [b[7]]);
  }
}
