/**
  The bean-validation constraints declared on the payment request: a required
  phone number in the international format `^\+[1-9]\d{1,14}$`, a required
  amount of at least 0.01, a non-blank currency and provider, and a free
  description.
 */
module RequestValidation {
  import opened Optional
  import opened JavaText
  import opened PaymentModel

  const PhoneRequired := "Recipient phone number is required"
  const PhoneFormat := "Invalid phone number format"
  const AmountRequired := "Amount is required"
  const AmountTooSmall := "Amount must be greater than zero"
  const CurrencyRequired := "Currency is required"
  const ProviderRequired := "Mobile money provider is required"

  /** The least amount `@DecimalMin("0.01")` admits (the bound is inclusive). */
  const MinimumAmount: real := 0.01

  /**
    Full-input match of `^\+[1-9]\d{1,14}$`: a plus sign, a first digit that is
    not zero, then one to fourteen further ASCII digits, nothing else.
   */
  function MatchesPhonePattern(s: string): (ok: bool)
    ensures ok ==> NotBlank(Some(s))
  {
    && 3 <= |s| <= 16
    && s[0] == '+'
    && '1' <= s[1] <= '9'
    && forall i :: 2 <= i < |s| ==> IsDigit(s[i])
  }

  /** Scans a candidate phone number the way the pattern is matched, one character at a time. */
  method ScanPhoneNumber(s: string) returns (matched: bool)
    ensures matched <==> MatchesPhonePattern(s)
  {
    if |s| < 3 || s[0] != '+' || !('1' <= s[1] <= '9') {
      return false;
    }
    var i := 2;
    var digits := 1;
    while i < |s|
      invariant 2 <= i <= |s|
      invariant digits == i - 1
      invariant digits <= 15
      invariant forall j :: 2 <= j < i ==> IsDigit(s[j])
    {
      if !IsDigit(s[i]) || digits == 15 {
        return false;
      }
      digits := digits + 1;
      i := i + 1;
    }
    matched := true;
  }

  /** The decimal digit characters of a number written with a leading plus sign. */
  function RenderPhoneNumber(digits: seq<int>): (s: string)
    requires forall i :: 0 <= i < |digits| ==> 0 <= digits[i] <= 9
    ensures |s| == |digits| + 1 && s[0] == '+'
    ensures forall i :: 1 <= i < |s| ==> IsDigit(s[i]) && s[i] as int - '0' as int == digits[i - 1]
  {
    "+" + seq(|digits|, i requires 0 <= i < |digits| => ('0' as int + digits[i]) as char)
  }

  /** The digits of a matching phone number. */
  function PhoneDigits(s: string): (digits: seq<int>)
    requires MatchesPhonePattern(s)
    ensures |digits| == |s| - 1 && 2 <= |digits| <= 15 && digits[0] != 0
    ensures forall i :: 0 <= i < |digits| ==> 0 <= digits[i] <= 9 && digits[i] == s[i + 1] as int - '0' as int
  {
    seq(|s| - 1, i requires 0 <= i < |s| - 1 => s[i + 1] as int - '0' as int)
  }

  /** Rendering two to fifteen digits with a non-zero first digit gives a matching number, and reading it back gives the digits. */
  lemma RenderedDigitsMatch(digits: seq<int>)
    requires forall i :: 0 <= i < |digits| ==> 0 <= digits[i] <= 9
    requires 2 <= |digits| <= 15 && digits[0] != 0
    ensures MatchesPhonePattern(RenderPhoneNumber(digits))
    ensures PhoneDigits(RenderPhoneNumber(digits)) == digits
  {
    var r := RenderPhoneNumber(digits);
    assert r[1] as int - '0' as int == digits[0];
    assert MatchesPhonePattern(r);
    var d := PhoneDigits(r);
    forall i | 0 <= i < |d|
      ensures d[i] == digits[i]
    {
      assert d[i] == r[i + 1] as int - '0' as int;
    }
  }

  /** A matching number is the rendering of its own digits. */
  lemma DigitsRenderBack(s: string)
    requires MatchesPhonePattern(s)
    ensures RenderPhoneNumber(PhoneDigits(s)) == s
  {
    var d := PhoneDigits(s);
    var t := RenderPhoneNumber(d);
    forall i | 1 <= i < |s|
      ensures t[i] == s[i]
    {
      assert t[i] as int - '0' as int == d[i - 1] == s[i] as int - '0' as int;
    }
  }

  /**
    The pattern accepts exactly the renderings of two to fifteen digits whose
    first digit is not zero, and reading the digits back gives the same number.
   */
  lemma PhonePatternIsE164Shape(digits: seq<int>, s: string)
    requires forall i :: 0 <= i < |digits| ==> 0 <= digits[i] <= 9
    ensures MatchesPhonePattern(RenderPhoneNumber(digits)) <==> 2 <= |digits| <= 15 && digits[0] != 0
    ensures 2 <= |digits| <= 15 && digits[0] != 0 ==> PhoneDigits(RenderPhoneNumber(digits)) == digits
    ensures MatchesPhonePattern(s) ==> RenderPhoneNumber(PhoneDigits(s)) == s
  {
    if 2 <= |digits| <= 15 && digits[0] != 0 {
      RenderedDigitsMatch(digits);
    }
    if MatchesPhonePattern(s) {
      DigitsRenderBack(s);
    }
  }

  /** The constraints of the request, one per message the validator can report. */
  datatype Violation = PhoneMissing | PhoneMalformed | AmountMissing | AmountBelowMinimum | CurrencyMissing | ProviderMissing

  /** The message declared with each constraint. */
  function Message(v: Violation): string
  {
    match v
    case PhoneMissing => PhoneRequired
    case PhoneMalformed => PhoneFormat
    case AmountMissing => AmountRequired
    case AmountBelowMinimum => AmountTooSmall
    case CurrencyMissing => CurrencyRequired
    case ProviderMissing => ProviderRequired
  }

  /** Different constraints carry different messages, so a reported message names exactly one constraint. */
  lemma MessagesDiffer(a: Violation, b: Violation)
    ensures Message(a) == Message(b) <==> a == b
  {
    if a != b {
      var m, n := Message(a), Message(b);
      if m[0] == n[0] {
        assert {a, b} == {AmountMissing, AmountBelowMinimum};
        assert m[7] != n[7];
      }
    }
  }

  const AllViolations: set<Violation> :=
    {PhoneMissing, PhoneMalformed, AmountMissing, AmountBelowMinimum, CurrencyMissing, ProviderMissing}

  /** Whether the request breaks one constraint. */
  predicate Breaks(r: PaymentRequest, c: Violation)
  {
    match c
    case PhoneMissing => !NotBlank(r.recipientPhoneNumber)
    case PhoneMalformed => r.recipientPhoneNumber.Some? && !MatchesPhonePattern(r.recipientPhoneNumber.value)
    case AmountMissing => r.amount.None?
    case AmountBelowMinimum => r.amount.Some? && r.amount.value < MinimumAmount
    case CurrencyMissing => !NotBlank(r.currency)
    case ProviderMissing => !NotBlank(r.provider)
  }

  /**
    The constraints a request violates: each field breaks one of its
    constraints exactly when that field is missing or malformed, and the
    amount never breaks both of its own.
   */
  function Violations(r: PaymentRequest): (v: set<Violation>)
    ensures PhoneMissing in v <==> !NotBlank(r.recipientPhoneNumber)
    ensures PhoneMalformed in v <==> r.recipientPhoneNumber.Some? && !MatchesPhonePattern(r.recipientPhoneNumber.value)
    ensures AmountMissing in v <==> r.amount.None?
    ensures AmountBelowMinimum in v <==> r.amount.Some? && r.amount.value < MinimumAmount
    ensures CurrencyMissing in v <==> !NotBlank(r.currency)
    ensures ProviderMissing in v <==> !NotBlank(r.provider)
  {
    set c | c in AllViolations && Breaks(r, c)
  }

  /** A request the controller accepts: all four constrained fields present and well-formed; the description is free. */
  function ValidRequest(r: PaymentRequest): (ok: bool)
    ensures ok ==> NotBlank(r.recipientPhoneNumber) && NotBlank(r.currency) && NotBlank(r.provider)
    ensures ok ==> r.amount.Some? && r.amount.value > 0.0
  {
    && r.recipientPhoneNumber.Some? && MatchesPhonePattern(r.recipientPhoneNumber.value)
    && r.amount.Some? && r.amount.value >= MinimumAmount
    && NotBlank(r.currency)
    && NotBlank(r.provider)
  }

  /** A number matching the pattern is never blank, so the phone's `@NotBlank` adds nothing once the pattern holds. */
  lemma PhonePatternImpliesNotBlank(s: string)
    requires MatchesPhonePattern(s)
    ensures NotBlank(Some(s))
  {
    TrimEmptyIffNoVisibleChar(s);
    assert s[0] > ' ';
  }

  /** The validator reports no violation exactly for the valid requests. */
  lemma ValidRequestIffNoViolations(r: PaymentRequest)
    ensures ValidRequest(r) <==> Violations(r) == {}
  {
    if ValidRequest(r) {
      PhonePatternImpliesNotBlank(r.recipientPhoneNumber.value);
    }
    if Violations(r) == {} {
      assert PhoneMissing !in Violations(r);
    }
  }

  /** Whatever passes validation also passes the service's own `amount > 0` check. */
  lemma ValidAmountIsPositive(r: PaymentRequest)
    requires ValidRequest(r)
    ensures r.amount.Some? && r.amount.value > 0.0
  {
  }

  /** The description carries no constraint: any description, or none, leaves validity unchanged. */
  lemma DescriptionIsUnconstrained(r: PaymentRequest, d: Option<string>)
    ensures ValidRequest(r.(description := d)) <==> ValidRequest(r)
    ensures Violations(r.(description := d)) == Violations(r)
  {
    var r' := r.(description := d);
    assert r' == PaymentRequest(r.recipientPhoneNumber, r.amount, r.currency, r.provider, d);
    forall c | c in AllViolations
      ensures Breaks(r', c) == Breaks(r, c)
    {
    }
  }

  /** An empty phone number is both blank and malformed, so the request is rejected. */
  lemma EmptyPhoneRejected(r: PaymentRequest)
    requires r.recipientPhoneNumber == Some("")
    ensures PhoneMissing in Violations(r) && PhoneMalformed in Violations(r)
    ensures !ValidRequest(r)
  {
    assert Trim("") == "";
  }

  /** The request the unit tests send is valid. */
  lemma SampleRequestIsValid()
    ensures ValidRequest(PaymentRequest(Some("+254712345678"), Some(100.0), Some("KES"), Some("MOCK"), Some("Test payment")))
  {
    TrimEmptyIffNoVisibleChar("KES");
    assert "KES"[0] > ' ';
    TrimEmptyIffNoVisibleChar("MOCK");
    assert "MOCK"[0] > ' ';
  }
}
