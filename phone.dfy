/** Phone-number normalisation between the national form shown to users
    ("0987654321") and the international form sent to the backend
    ("+84987654321"). */
module PhoneFormat {

  import opened JsString

  const Vietnam: string := "vi"
  const CountryPrefix: string := "+84"

  /** `phoneAddCode(phone, regionCode = "vi")`. */
  function PhoneAddCode(phone: string, regionCode: string := Vietnam): (r: string)
    ensures regionCode == Vietnam ==> StartsWith(r, CountryPrefix)
    ensures regionCode != Vietnam ==> |r| == |phone| + 1 && r[0] == '+' && r[1..] == phone
  {
    if regionCode == Vietnam then
      if StartsWith(phone, CountryPrefix) then phone else CountryPrefix + Slice(phone, 1)
    else
      "+" + phone
  }

  /** `phoneRegion(phone, regionCode = "vi")`. */
  function PhoneRegion(phone: string, regionCode: string := Vietnam): (r: string)
    ensures regionCode == Vietnam ==> |r| >= 1 && r[0] == '0'
    ensures regionCode != Vietnam ==> r == phone
  {
    if regionCode == Vietnam then "0" + Slice(phone, 3) else phone
  }

  /** The validator of the student form: `^(\+84|84|0)[0-9]{9}$`. */
  predicate ValidVnPhone(p: string) {
    || (StartsWith(p, "+84") && |p| == 12 && AllDigits(p[3..]))
    || (StartsWith(p, "84") && |p| == 11 && AllDigits(p[2..]))
    || (StartsWith(p, "0") && |p| == 10 && AllDigits(p[1..]))
  }

  /** A number already in international form is left alone; any other
      number loses its first character, whatever it is, to "+84". */
  lemma AddCodeCases(phone: string)
    ensures StartsWith(phone, CountryPrefix) ==> PhoneAddCode(phone) == phone
    ensures !StartsWith(phone, CountryPrefix) && phone != "" ==>
              PhoneAddCode(phone) == CountryPrefix + phone[1..]
    ensures phone == "" ==> PhoneAddCode(phone) == CountryPrefix
  {
  }

  /** Adding the country code twice is adding it once. */
  lemma AddCodeIdempotent(phone: string, regionCode: string)
    requires regionCode == Vietnam
    ensures PhoneAddCode(PhoneAddCode(phone, regionCode), regionCode) == PhoneAddCode(phone, regionCode)
  {
  }

  /** A national number drops its leading three characters for "0". */
  lemma RegionCases(phone: string)
    ensures |phone| >= 3 ==> PhoneRegion(phone) == "0" + phone[3..]
    ensures |phone| <= 3 ==> PhoneRegion(phone) == "0"
  {
  }

  /** National form to international and back. */
  lemma {:induction false} LocalRoundTrip(p: string)
    requires StartsWith(p, "0")
    ensures PhoneRegion(PhoneAddCode(p)) == p
  {
    var q := PhoneAddCode(p);
    assert !StartsWith(p, CountryPrefix) by { assert p[0] == '0'; }
    assert q == CountryPrefix + p[1..];
    assert q[3..] == p[1..];
    assert p == "0" + p[1..];
  }

  /** International form to national and back. */
  lemma {:induction false} InternationalRoundTrip(q: string)
    requires StartsWith(q, CountryPrefix)
    ensures PhoneAddCode(PhoneRegion(q)) == q
  {
    var p := PhoneRegion(q);
    assert p == "0" + q[3..];
    assert !StartsWith(p, CountryPrefix) by { assert p[0] == '0'; }
    assert p[1..] == q[3..];
    assert q == CountryPrefix + q[3..];
  }

  /** The two forms of a valid number that start with "0" or "+84" normalise
      to "+84" followed by the nine national digits, which the validator
      accepts again. */
  lemma {:induction false} AddCodeNormalisesValid(p: string)
    requires ValidVnPhone(p) && (StartsWith(p, "0") || StartsWith(p, CountryPrefix))
    ensures |PhoneAddCode(p)| == 12 && ValidVnPhone(PhoneAddCode(p))
    ensures PhoneRegion(PhoneAddCode(p)) == "0" + PhoneAddCode(p)[3..]
  {
    var q := PhoneAddCode(p);
    if StartsWith(p, CountryPrefix) {
      assert p[0] == '+';
      assert !StartsWith(p, "84") && !StartsWith(p, "0");
      assert q == p;
    } else {
      assert p[0] == '0';
      assert q == CountryPrefix + p[1..];
      assert q[3..] == p[1..];
      assert q[..3] == CountryPrefix;
    }
  }

  /** The third form the validator accepts, "84" and nine digits, is not
      recognised: only its leading "8" is dropped, so the result carries ten
      digits after "+84" and fails the same validator. */
  lemma {:induction false} AddCodeOn84Prefix(d: string)
    requires |d| == 9 && AllDigits(d)
    ensures ValidVnPhone("84" + d)
    ensures PhoneAddCode("84" + d) == "+844" + d
    ensures !ValidVnPhone(PhoneAddCode("84" + d))
  {
    var p := "84" + d;
    assert p[2..] == d;
    assert !StartsWith(p, CountryPrefix) by { assert p[0] == '8'; }
    assert p[1..] == "4" + d;
    var q := PhoneAddCode(p);
    assert q == "+844" + d;
    assert |q| == 13;
    assert !StartsWith(q, "84") by { assert q[0] == '+'; }
    assert !StartsWith(q, "0") by { assert q[0] == '+'; }
  }

  /** Outside Vietnam a "+" is prepended and removal is the identity. */
  lemma ForeignRegion(phone: string, regionCode: string)
    requires regionCode != Vietnam
    ensures PhoneAddCode(phone, regionCode) == "+" + phone
    ensures PhoneRegion(phone, regionCode) == phone
  {
  }
}
