/**
 * formatPhoneNumber, the as-you-type phone mask of the checkout and registration screens
 * (app/checkout.tsx and app/auth/register.tsx define it identically).
 */
module PhoneMask {
  import opened Text
  import StoreApi

  /** Digits beyond the eleventh are dropped. */
  const MAX_DIGITS: nat := 11
  /** The `maxLength` of the phone input. */
  const MAX_LENGTH: nat := 15

  function Min(a: int, b: int): int {
    if a < b then a else b
  }

  /** The masked rendering of digit string `d`, by length band: nothing, "(D", "(DD) D..." and
      "(DD) DDDDD-D...". */
  function Mask(d: string): (r: string)
    ensures |r| <= MAX_LENGTH
    ensures r == "" <==> d == ""
  {
    if |d| == 0 then ""
    else if |d| <= 2 then "(" + d
    else if |d| <= 7 then "(" + d[..2] + ") " + d[2..]
    else "(" + d[..2] + ") " + d[2..7] + "-" + d[7..Min(|d|, MAX_DIGITS)]
  }

  /** formatPhoneNumber, building its result in `formatted` as the source does. */
  method FormatPhoneNumber(text: string) returns (formatted: string)
    ensures formatted == Mask(Digits(text))
    ensures |formatted| <= MAX_LENGTH
    ensures Digits(formatted) == Digits(text)[..Min(|Digits(text)|, MAX_DIGITS)]
  {
    var cleaned := Digits(text);
    formatted := cleaned;
    if |cleaned| > 0 {
      formatted := "(" + cleaned[..Min(|cleaned|, 2)];
      if |cleaned| > 2 {
        formatted := formatted + ") " + cleaned[2..Min(|cleaned|, 7)];
        if |cleaned| > 7 {
          formatted := formatted + "-" + cleaned[7..Min(|cleaned|, MAX_DIGITS)];
        }
      }
    }
    MaskDigits(cleaned);
  }

  /** Only the first eleven digits survive, in order, and nothing else is a digit. */
  lemma MaskDigits(d: string)
    requires AllDigits(d)
    ensures Digits(Mask(d)) == d[..Min(|d|, MAX_DIGITS)]
  {
    if |d| == 0 {
    } else if |d| <= 2 {
      ShortMaskDigits(d);
    } else if |d| <= 7 {
      MiddleMaskDigits(d);
    } else {
      LongMaskDigits(d);
    }
  }

  lemma ShortMaskDigits(d: string)
    requires AllDigits(d) && 0 < |d| <= 2
    ensures Digits("(" + d) == d
  {
    DigitsOfNonDigits("(");
    DigitsAppend("(", d);
    DigitsOfDigits(d);
  }

  lemma MiddleMaskDigits(d: string)
    requires AllDigits(d) && 2 < |d| <= 7
    ensures Digits("(" + d[..2] + ") " + d[2..]) == d
  {
    var a, b := d[..2], d[2..];
    DigitsOfNonDigits("(");
    DigitsOfNonDigits(") ");
    DigitsOfDigits(a);
    DigitsOfDigits(b);
    DigitsAppend("(", a);
    DigitsAppend("(" + a, ") ");
    DigitsAppend("(" + a + ") ", b);
    assert a + b == d;
  }

  lemma LongMaskDigits(d: string)
    requires AllDigits(d) && 7 < |d|
    ensures Digits(Mask(d)) == d[..Min(|d|, MAX_DIGITS)]
  {
    var k := Min(|d|, MAX_DIGITS);
    assert 7 < k <= |d|;
    assert Mask(d) == "(" + d[..2] + ") " + d[2..7] + "-" + d[7..k];
    assert AllDigits(d[7..k]) by {
      forall i | 0 <= i < |d[7..k]| ensures IsDigit(d[7..k][i]) {
        assert d[7..k][i] == d[7 + i];
      }
    }
    StoreApi.Punctuated4Digits(d[..2], d[2..7], d[7..k]);
    assert d[..2] + d[2..7] == d[..7];
    assert d[..7] + d[7..k] == d[..k];
  }

  /** The mask reads only the first eleven digits. */
  lemma MaskTruncates(d: string)
    ensures Mask(d) == Mask(d[..Min(|d|, MAX_DIGITS)])
  {
    var t := d[..Min(|d|, MAX_DIGITS)];
    if |d| > 7 {
      assert t[..2] == d[..2] && t[2..7] == d[2..7];
      assert t[7..Min(|t|, MAX_DIGITS)] == d[7..Min(|d|, MAX_DIGITS)];
    } else if |d| > 2 {
      assert t == d;
    }
  }

  /** Masking an already masked value gives it back: re-formatting the field as the user keeps
      typing does not disturb what is shown. */
  lemma MaskIdempotent(text: string)
    ensures Mask(Digits(Mask(Digits(text)))) == Mask(Digits(text))
  {
    var d := Digits(text);
    MaskDigits(d);
    MaskTruncates(d);
  }

  /** With eleven digits the typing mask and storeApi's formatPhone render the same string. */
  lemma MaskAgreesWithFormatPhone(phone: string)
    requires |Digits(phone)| == 11
    ensures Mask(Digits(phone)) == StoreApi.FormatPhone(phone)
  {
    var d := Digits(phone);
    assert d[7..Min(|d|, MAX_DIGITS)] == d[7..];
  }

  /** With ten digits they differ: the mask puts the hyphen after the seventh digit,
      formatPhone after the sixth. */
  lemma MaskDisagreesWithFormatPhoneOnTenDigits(phone: string)
    requires |Digits(phone)| == 10
    ensures Mask(Digits(phone)) != StoreApi.FormatPhone(phone)
  {
    var d := Digits(phone);
    var m := Mask(d);
    var f := StoreApi.FormatPhone(phone);
    assert m[9] == d[6];
    assert StoreApi.MatchesLayout(f, "(DD) DDDD-DDDD");
    assert "(DD) DDDD-DDDD"[9] == '-';
    assert f[9] == '-';
  }
}
