/** The form schema of a new advertisement (`addAdvertisementSchema`, a zod
    object of five strings) and its price pattern `^\d+(\.\d{1,2})?$`.
    zod checks every field and, within a field, every string check, so a
    value gets one issue per broken rule; the price's `refine` runs even when
    the string checks before it failed. Lengths are JavaScript lengths, in
    UTF-16 code units. */
module AdSchema {
  import opened Common
  import opened Strings

  datatype AdForm = AdForm(title: string, description: string, location: string, price: string, categoryId: string)

  datatype Field = Title | Description | Location | Price | CategoryId

  datatype Issue = Issue(field: Field, message: string)

  const TitleTooShort: string := "Tytuł musi mieć co najmniej 5 znaków"
  const DescriptionTooShort: string := "Opis musi mieć co najmniej 20 znaków"
  const LocationTooShort: string := "Podaj poprawną lokalizację"
  const PriceRequired: string := "Cena jest wymagana"
  const PriceMalformed: string := "Podaj poprawną cenę (np. 99.99)"
  const PriceNotPositive: string := "Cena musi być większa od 0"
  const CategoryRequired: string := "Wybierz kategorię"

  /** The length of the run of digits `s` starts with. */
  function DigitRun(s: string): (k: nat)
    ensures k <= |s| && AllDigits(s[..k])
    ensures k < |s| ==> !IsDigit(s[k])
  {
    if s != [] && IsDigit(s[0]) then
      var k := 1 + DigitRun(s[1..]);
      assert s[..k] == [s[0]] + s[1..][..k - 1];
      k
    else 0
  }

  /** `priceRegex.test(s)`. `\d+` can only end where the leading run of digits
      ends, since `.` is not a digit. */
  predicate MatchesPrice(s: string) {
    var k := DigitRun(s);
    1 <= k && (k == |s| || (s[k] == '.' && 2 <= |s| - k <= 3 && AllDigits(s[k + 1..])))
  }

  /** A price in the pattern's own terms: whole units, and the optional one or
      two decimal digits. */
  predicate ValidParts(units: string, cents: Option<string>) {
    |units| >= 1 && AllDigits(units)
    && (cents.Some? ==> 1 <= |cents.value| <= 2 && AllDigits(cents.value))
  }

  function Render(units: string, cents: Option<string>): string {
    match cents
    case None => units
    case Some(c) => units + "." + c
  }

  lemma DigitRunOfRender(units: string, cents: Option<string>)
    requires ValidParts(units, cents)
    ensures DigitRun(Render(units, cents)) == |units|
  {
    var s := Render(units, cents);
    assert s[..|units|] == units;
    DigitRunIsMaximal(s, |units|);
  }

  lemma {:induction false} DigitRunIsMaximal(s: string, k: nat)
    requires k <= |s| && AllDigits(s[..k]) && (k < |s| ==> !IsDigit(s[k]))
    ensures DigitRun(s) == k
  {
    if k > 0 {
      assert IsDigit(s[..k][0]);
      assert s[1..][..k - 1] == s[..k][1..];
      DigitRunIsMaximal(s[1..], k - 1);
    } else if s != [] {
      assert !IsDigit(s[0]);
    }
  }

  /** The pattern accepts exactly the strings made of one or more digits,
      optionally followed by a dot and one or two digits. */
  lemma MatchesPriceIff(s: string)
    ensures MatchesPrice(s) <==> exists units, cents :: ValidParts(units, cents) && s == Render(units, cents)
  {
    if MatchesPrice(s) {
      var k := DigitRun(s);
      if k == |s| {
        assert s == Render(s[..k], None) && ValidParts(s[..k], None);
      } else {
        assert s == Render(s[..k], Some(s[k + 1..]));
        assert ValidParts(s[..k], Some(s[k + 1..]));
      }
    }
    if exists units, cents :: ValidParts(units, cents) && s == Render(units, cents) {
      var units, cents :| ValidParts(units, cents) && s == Render(units, cents);
      DigitRunOfRender(units, cents);
      if cents.Some? {
        assert s[|units| + 1..] == cents.value;
      }
    }
  }

  predicate IsNonZeroDigit(c: char) {
    '1' <= c <= '9'
  }

  predicate HasNonZeroDigit(s: string) {
    exists i :: 0 <= i < |s| && IsNonZeroDigit(s[i])
  }

  /** `parseFloat`'s sign: a leading `-`. */
  predicate IsNegative(t: string) {
    t != [] && t[0] == '-'
  }

  /** What follows the sign, if there is one. */
  function Unsigned(t: string): string {
    if t != [] && (t[0] == '-' || t[0] == '+') then t[1..] else t
  }

  /** The digits of the number `body` starts with: the leading digits and,
      after a dot, the digits of the fraction. */
  function Mantissa(body: string): string {
    var k := DigitRun(body);
    if k < |body| && body[k] == '.' then
      var f := body[k + 1..];
      body[..k] + f[..DigitRun(f)]
    else body[..k]
  }

  /** `parseFloat(s) > 0`. `parseFloat` skips leading white space, reads an
      optional sign and then the longest prefix that is a number: "Infinity",
      or digits with an optional fraction (an exponent after them does not
      change the sign or whether the value is zero). No digits at all gives
      `NaN`, and `NaN > 0` is false. */
  predicate ParsesPositive(s: string) {
    var t := TrimStart(s);
    if StartsWith(Unsigned(t), "Infinity") then !IsNegative(t)
    else !IsNegative(t) && HasNonZeroDigit(Mantissa(Unsigned(t)))
  }

  lemma NonZeroDigitConcat(a: string, b: string)
    ensures HasNonZeroDigit(a + b) <==> HasNonZeroDigit(a) || HasNonZeroDigit(b)
  {
    if HasNonZeroDigit(a + b) {
      var i :| 0 <= i < |a + b| && IsNonZeroDigit((a + b)[i]);
      if i >= |a| {
        assert b[i - |a|] == (a + b)[i];
      }
    }
    if HasNonZeroDigit(a) {
      var i :| 0 <= i < |a| && IsNonZeroDigit(a[i]);
      assert (a + b)[i] == a[i];
    }
    if HasNonZeroDigit(b) {
      var i :| 0 <= i < |b| && IsNonZeroDigit(b[i]);
      assert (a + b)[|a| + i] == b[i];
    }
  }

  /** A price the pattern accepts is read by `parseFloat` as it is: no white
      space, no sign, and every digit of it in the mantissa. */
  lemma MatchingPriceReadWhole(s: string)
    requires MatchesPrice(s)
    ensures TrimStart(s) == s && Unsigned(s) == s && !IsNegative(s)
    ensures !StartsWith(s, "Infinity")
  {
    assert IsDigit(s[..DigitRun(s)][0]);
    DigitStartNotTrimmed(s);
    DigitStartNotInfinity(s);
  }

  lemma DigitStartNotTrimmed(s: string)
    requires s != [] && IsDigit(s[0])
    ensures TrimStart(s) == s
  {
    assert !IsJsWhitespace(s[0]);
  }

  lemma DigitStartNotInfinity(s: string)
    requires s != [] && IsDigit(s[0])
    ensures !StartsWith(s, "Infinity")
  {
  }

  lemma MantissaOfMatching(s: string)
    requires MatchesPrice(s)
    ensures DigitRun(s) == |s| ==> Mantissa(s) == s
    ensures DigitRun(s) < |s| ==> Mantissa(s) == s[..DigitRun(s)] + s[DigitRun(s) + 1..]
  {
    var k := DigitRun(s);
    if k < |s| {
      var f := s[k + 1..];
      DigitRunIsMaximal(f, |f|);
      assert f[..|f|] == f;
    } else {
      assert s[..k] == s;
    }
  }

  /** For a price the pattern accepts, "greater than 0" is the same as "some
      digit is not 0": "0", "0.0" and "00.00" are refused, "0.01" is not. */
  lemma PositiveIffNonZeroDigit(s: string)
    requires MatchesPrice(s)
    ensures ParsesPositive(s) <==> HasNonZeroDigit(s)
  {
    MatchingPriceReadWhole(s);
    MantissaOfMatching(s);
    var k := DigitRun(s);
    if k < |s| {
      var a, b := s[..k], s[k + 1..];
      assert s == a + "." + b;
      NonZeroDigitConcat(a, ".");
      NonZeroDigitConcat(a + ".", b);
      NonZeroDigitConcat(a, b);
      assert !IsNonZeroDigit("."[0]);
    }
  }

  /** A price the pattern accepts made of zeros only is refused. */
  lemma OnlyZerosRefused(s: string)
    requires MatchesPrice(s)
    requires forall i :: 0 <= i < |s| ==> s[i] == '0' || s[i] == '.'
    ensures !ParsesPositive(s)
  {
    PositiveIffNonZeroDigit(s);
  }

  /** "0", "0.0" and "00.00" match the pattern but are refused. */
  lemma ZeroRefused()
    ensures MatchesPrice("0") && !ParsesPositive("0")
  {
    DigitRunIsMaximal("0", 1);
    OnlyZerosRefused("0");
  }

  lemma ZeroPointZeroRefused()
    ensures MatchesPrice("0.0") && !ParsesPositive("0.0")
  {
    DigitRunIsMaximal("0.0", 1);
    assert AllDigits("0.0"[2..]);
    OnlyZerosRefused("0.0");
  }

  lemma DoubleZerosRefused()
    ensures MatchesPrice("00.00") && !ParsesPositive("00.00")
  {
    DigitRunIsMaximal("00.00", 2);
    assert AllDigits("00.00"[3..]);
    OnlyZerosRefused("00.00");
  }

  /** A price of one cent is accepted. */
  lemma OneCentAccepted()
    ensures MatchesPrice("0.01") && ParsesPositive("0.01")
  {
    DigitRunIsMaximal("0.01", 1);
    assert AllDigits("0.01"[2..]);
    PositiveIffNonZeroDigit("0.01");
    assert IsNonZeroDigit("0.01"[3]);
  }

  /** `z.string().min(n, message)` on one field. */
  function MinLength(field: Field, value: string, n: nat, message: string): seq<Issue> {
    if Utf16Length(value) < n then [Issue(field, message)] else []
  }

  /** The issues of one field: for the price its three checks, each adding
      its own issue. */
  function FieldIssues(form: AdForm, field: Field): (r: seq<Issue>)
    ensures forall i :: 0 <= i < |r| ==> r[i].field == field
  {
    match field
    case Title => MinLength(Title, form.title, 5, TitleTooShort)
    case Description => MinLength(Description, form.description, 20, DescriptionTooShort)
    case Location => MinLength(Location, form.location, 2, LocationTooShort)
    case Price =>
      MinLength(Price, form.price, 1, PriceRequired)
      + (if MatchesPrice(form.price) then [] else [Issue(Price, PriceMalformed)])
      + (if ParsesPositive(form.price) then [] else [Issue(Price, PriceNotPositive)])
    case CategoryId => MinLength(CategoryId, form.categoryId, 1, CategoryRequired)
  }

  /** `addAdvertisementSchema.safeParse(form)`: the issues in field order; the
      form is accepted when there are none. */
  function Validate(form: AdForm): seq<Issue> {
    FieldIssues(form, Title) + FieldIssues(form, Description) + FieldIssues(form, Location)
    + FieldIssues(form, Price) + FieldIssues(form, CategoryId)
  }

  /** An issue is reported exactly when its own field reports it. */
  lemma ReportedByItsField(form: AdForm, x: Issue)
    ensures x in Validate(form) <==> x in FieldIssues(form, x.field)
  {
    var t, d, l, p, c := FieldIssues(form, Title), FieldIssues(form, Description),
      FieldIssues(form, Location), FieldIssues(form, Price), FieldIssues(form, CategoryId);
    assert Validate(form) == t + d + l + p + c;
    OnlyItsField(form, x, Title);
    OnlyItsField(form, x, Description);
    OnlyItsField(form, x, Location);
    OnlyItsField(form, x, Price);
    OnlyItsField(form, x, CategoryId);
  }

  lemma OnlyItsField(form: AdForm, x: Issue, field: Field)
    ensures x in FieldIssues(form, field) ==> x.field == field
  {
    if x in FieldIssues(form, field) {
      var i :| 0 <= i < |FieldIssues(form, field)| && FieldIssues(form, field)[i] == x;
    }
  }

  /** The five field rules in plain terms. */
  predicate RulesHold(form: AdForm) {
    && Utf16Length(form.title) >= 5
    && Utf16Length(form.description) >= 20
    && Utf16Length(form.location) >= 2
    && MatchesPrice(form.price) && HasNonZeroDigit(form.price)
    && form.categoryId != ""
  }

  /** A form is accepted exactly when all five field rules hold. */
  lemma AcceptedIffRulesHold(form: AdForm)
    ensures Validate(form) == [] <==> RulesHold(form)
  {
    if MatchesPrice(form.price) {
      PositiveIffNonZeroDigit(form.price);
    }
  }

  /** Each broken length rule carries its own message, and each message is
      there only when its rule is broken. */
  lemma LengthRulesReported(form: AdForm)
    ensures Issue(Title, TitleTooShort) in Validate(form) <==> Utf16Length(form.title) < 5
    ensures Issue(Description, DescriptionTooShort) in Validate(form) <==> Utf16Length(form.description) < 20
    ensures Issue(Location, LocationTooShort) in Validate(form) <==> Utf16Length(form.location) < 2
    ensures Issue(CategoryId, CategoryRequired) in Validate(form) <==> form.categoryId == ""
  {
    ReportedByItsField(form, Issue(Title, TitleTooShort));
    ReportedByItsField(form, Issue(Description, DescriptionTooShort));
    ReportedByItsField(form, Issue(Location, LocationTooShort));
    ReportedByItsField(form, Issue(CategoryId, CategoryRequired));
  }

  /** Each of the price's three checks reports its own message exactly when
      it fails, independently of the other two. */
  lemma PriceRulesReported(form: AdForm)
    ensures Issue(Price, PriceRequired) in Validate(form) <==> form.price == ""
    ensures Issue(Price, PriceMalformed) in Validate(form) <==> !MatchesPrice(form.price)
    ensures Issue(Price, PriceNotPositive) in Validate(form) <==> !ParsesPositive(form.price)
  {
    assert PriceRequired[0] != PriceMalformed[0] && PriceMalformed[0] != PriceNotPositive[0];
    assert PriceRequired[5] != PriceNotPositive[5];
    ReportedByItsField(form, Issue(Price, PriceRequired));
    ReportedByItsField(form, Issue(Price, PriceMalformed));
    ReportedByItsField(form, Issue(Price, PriceNotPositive));
  }

  /** An empty price is reported three times: required, malformed, and not
      greater than 0. */
  lemma EmptyPriceIssues(form: AdForm)
    requires form.price == ""
    ensures FieldIssues(form, Price)
         == [Issue(Price, PriceRequired), Issue(Price, PriceMalformed), Issue(Price, PriceNotPositive)]
  {
    assert DigitRun("") == 0;
  }
}
