/** The hospital registration form: the input sanitisers of `handleChange`
    and the validation of `addHospital`. */
module HospitalAdd {
  import opened Common
  import opened Lists
  import opened Text

  const AllFieldsRequired := "All fields are required."
  const NegativeCharge := "Hospital charge must be a non-negative number."
  const AddFailed := "Adding hospital unsuccessful!"

  // ---------------------------------------------------------------------
  // Hospital name

  /** The characters `/[^a-zA-Z.' ]/g` does not remove. */
  predicate IsNameChar(c: char) {
    IsAsciiLetter(c) || c == '.' || c == '\'' || c == ' '
  }

  /** `value.replace(/[^a-zA-Z.' ]/g, '')`. */
  function KeepNameChars(s: string): string {
    Filter(s, IsNameChar)
  }

  /** Position `i` of `s` starts a match of `\b\w`: a word character that is
      first or follows a non-word character. */
  predicate AtWordStart(s: string, i: int)
    requires 0 <= i < |s|
  {
    IsWordChar(s[i]) && (i == 0 || !IsWordChar(s[i - 1]))
  }

  /** `value.replace(/\b\w/g, c => c.toUpperCase())`. */
  function CapitaliseWords(s: string): (r: string)
    ensures |r| == |s|
  {
    seq(|s|, i requires 0 <= i < |s| => if AtWordStart(s, i) then ToUpperChar(s[i]) else s[i])
  }

  /** The hospital name as `handleChange` stores it. */
  function SanitiseName(s: string): (r: string)
    ensures |r| == |KeepNameChars(s)| <= |s|
  {
    CapitaliseWords(KeepNameChars(s))
  }

  /** The stored name holds only ASCII letters, '.', apostrophes and spaces. */
  lemma SanitisedNameChars(s: string)
    ensures forall i :: 0 <= i < |SanitiseName(s)| ==> IsNameChar(SanitiseName(s)[i])
  {
    var k := KeepNameChars(s);
    var r := SanitiseName(s);
    forall i | 0 <= i < |r| ensures IsNameChar(r[i]) {
      assert IsNameChar(k[i]);
      assert r[i] == k[i] || r[i] == ToUpperChar(k[i]);
    }
  }

  /** Letter `k[i]` is first or follows '.', an apostrophe or a space. */
  predicate StartsNameWord(k: string, i: int)
    requires 0 <= i < |k|
  {
    IsAsciiLetter(k[i]) && (i == 0 || k[i - 1] == '.' || k[i - 1] == '\'' || k[i - 1] == ' ')
  }

  /** In a string of name characters, `\b\w` matches exactly at the letters
      that start a word. */
  lemma WordStartInName(k: string, i: int)
    requires forall j :: 0 <= j < |k| ==> IsNameChar(k[j])
    requires 0 <= i < |k|
    ensures AtWordStart(k, i) <==> StartsNameWord(k, i)
  {
    assert IsNameChar(k[i]);
    if i > 0 {
      assert IsNameChar(k[i - 1]);
    }
  }

  predicate AllNameChars(k: string) {
    forall j :: 0 <= j < |k| ==> IsNameChar(k[j])
  }

  /** On name characters, `CapitaliseWords` upper-cases exactly the letters
      that start a word. */
  lemma CapitaliseNameChars(k: string)
    requires AllNameChars(k)
    ensures forall i :: 0 <= i < |k| && StartsNameWord(k, i) ==>
      'A' <= CapitaliseWords(k)[i] <= 'Z' && ToLowerChar(CapitaliseWords(k)[i]) == ToLowerChar(k[i])
    ensures forall i :: 0 <= i < |k| && !StartsNameWord(k, i) ==> CapitaliseWords(k)[i] == k[i]
  {
    var r := CapitaliseWords(k);
    forall i | 0 <= i < |k|
      ensures StartsNameWord(k, i) ==> 'A' <= r[i] <= 'Z' && ToLowerChar(r[i]) == ToLowerChar(k[i])
      ensures !StartsNameWord(k, i) ==> r[i] == k[i]
    {
      WordStartInName(k, i);
    }
  }

  /** The stored name is the input with the other characters deleted, in
      order, and with every letter that is first or follows '.', an
      apostrophe or a space upper-cased; every other character is kept. */
  lemma SanitisedNameShape(s: string)
    ensures |SanitiseName(s)| == |KeepNameChars(s)| <= |s|
    ensures IsSubsequence(KeepNameChars(s), s)
    ensures forall i :: 0 <= i < |KeepNameChars(s)| && StartsNameWord(KeepNameChars(s), i) ==>
      'A' <= SanitiseName(s)[i] <= 'Z' && ToLowerChar(SanitiseName(s)[i]) == ToLowerChar(KeepNameChars(s)[i])
    ensures forall i :: 0 <= i < |KeepNameChars(s)| && !StartsNameWord(KeepNameChars(s), i) ==>
      SanitiseName(s)[i] == KeepNameChars(s)[i]
  {
    var k := KeepNameChars(s);
    assert AllNameChars(k);
    CapitaliseNameChars(k);
  }

  /** Capitalising words twice is capitalising them once. */
  lemma CapitaliseWordsIdempotent(k: string)
    ensures CapitaliseWords(CapitaliseWords(k)) == CapitaliseWords(k)
  {
    var r := CapitaliseWords(k);
    var r2 := CapitaliseWords(r);
    forall i | 0 <= i < |r| ensures r2[i] == r[i] {
      assert IsWordChar(r[i]) <==> IsWordChar(k[i]);
      if i > 0 {
        assert IsWordChar(r[i - 1]) <==> IsWordChar(k[i - 1]);
      }
    }
  }

  /** Sanitising a stored name again changes nothing. */
  lemma SanitiseNameIdempotent(s: string)
    ensures SanitiseName(SanitiseName(s)) == SanitiseName(s)
  {
    var r := SanitiseName(s);
    SanitisedNameChars(s);
    FilterKeepsAll(r, IsNameChar);
    CapitaliseWordsIdempotent(KeepNameChars(s));
  }

  // ---------------------------------------------------------------------
  // Hospital charge

  predicate IsChargeChar(c: char) {
    IsDigit(c) || c == '.'
  }

  /** `value.replace(/[^0-9.]/g, '')`. */
  function KeepChargeChars(s: string): string {
    Filter(s, IsChargeChar)
  }

  /** The test standing for `parseFloat(v) < 0`. On a string without
      leading white space `parseFloat` is negative only if its first
      character is a minus sign, so this test holds whenever the source's
      does. */
  predicate LooksNegative(v: string)
    ensures LooksNegative(v) ==> v != "" && !IsChargeChar(v[0])
  {
    |v| > 0 && v[0] == '-'
  }

  /** The hospital charge as `handleChange` stores it. */
  function SanitiseCharge(s: string): (r: string)
    ensures forall i :: 0 <= i < |r| ==> IsChargeChar(r[i])
    ensures IsSubsequence(r, s)
  {
    var v := KeepChargeChars(s);
    if LooksNegative(v) then "" else v
  }

  /** The stored charge holds only digits and '.', so the reset-if-negative
      branch never fires and the sanitised text is stored as it is. */
  lemma SanitisedCharge(s: string)
    ensures forall i :: 0 <= i < |SanitiseCharge(s)| ==> IsChargeChar(SanitiseCharge(s)[i])
    ensures !LooksNegative(KeepChargeChars(s))
    ensures SanitiseCharge(s) == KeepChargeChars(s)
    ensures IsSubsequence(SanitiseCharge(s), s)
  {
    var v := KeepChargeChars(s);
    if |v| > 0 {
      assert IsChargeChar(v[0]);
    }
  }

  /** The number of leading digits of `s`. */
  function DigitRun(s: string): (n: nat)
    ensures n <= |s|
    ensures AllDigits(s[..n])
    ensures n < |s| ==> !IsDigit(s[n])
  {
    if s != [] && IsDigit(s[0]) then
      var n := 1 + DigitRun(s[1..]);
      assert s[..n] == [s[0]] + s[1..][..n - 1];
      n
    else 0
  }

  function Pow10(n: nat): (p: nat)
    ensures p > 0
  {
    if n == 0 then 1 else 10 * Pow10(n - 1)
  }

  /** The number written `w.f` in decimal. */
  function DecimalValue(w: string, f: string): (v: real)
    requires AllDigits(w) && AllDigits(f)
    ensures v >= 0.0
  {
    DigitsValue(w) as real + DigitsValue(f) as real / Pow10(|f|) as real
  }

  /** `parseFloat(v)` on text made of digits and '.', which is all the
      charge field can hold: the longest prefix of digits, optionally
      followed by '.' and more digits, read as a decimal number. Without a
      digit in that prefix the result is NaN (`None`), which the request
      sends as null. */
  function ParseCharge(s: string): (r: Option<real>)
    ensures r.Some? ==> r.value >= 0.0
    ensures r.None? <==> DigitRun(s) == 0 && (s == [] || s[0] != '.' || DigitRun(s[1..]) == 0)
  {
    var i := DigitRun(s);
    var rest := s[i..];
    var f := if rest != [] && rest[0] == '.' then DigitRun(rest[1..]) else 0;
    var frac := if f > 0 then rest[1..][..f] else "";
    if i == 0 && f == 0 then None
    else Some(DecimalValue(s[..i], frac))
  }

  /** Leading digits followed by anything that is not a digit. */
  lemma {:induction false} DigitRunOfDigits(a: string, t: string)
    requires AllDigits(a)
    requires t == [] || !IsDigit(t[0])
    ensures DigitRun(a + t) == |a|
  {
    if a != [] {
      assert (a + t)[1..] == a[1..] + t;
      assert AllDigits(a[1..]);
      DigitRunOfDigits(a[1..], t);
    } else {
      assert a + t == t;
    }
  }

  /** A charge of digits only is read as that whole number. */
  lemma ParseChargeWhole(s: string)
    requires s != [] && AllDigits(s)
    ensures ParseCharge(s) == Some(DigitsValue(s) as real)
  {
    assert DecimalValue(s, "") == DigitsValue(s) as real;
    DigitRunOfDigits(s, []);
    assert s + [] == s;
    assert s[..|s|] == s;
  }

  /** Reading stops at a second '.': `parseFloat("1.2.3")` is 1.2, and
      whatever follows the second point plays no part. */
  lemma ParseChargeStopsAtSecondPoint(a: string, b: string, t: string)
    requires AllDigits(a) && AllDigits(b)
    ensures ParseCharge(a + "." + b + "." + t) == ParseCharge(a + "." + b)
  {
    var s1, s2 := a + "." + b + "." + t, a + "." + b;
    DigitRunOfDigits(a, "." + b + "." + t);
    DigitRunOfDigits(a, "." + b);
    assert s1 == a + ("." + b + "." + t);
    assert s2 == a + ("." + b);
    assert s1[|a|..] == "." + b + "." + t;
    assert s2[|a|..] == "." + b;
    assert s1[|a|..][1..] == b + ("." + t);
    assert s2[|a|..][1..] == b + [];
    DigitRunOfDigits(b, "." + t);
    DigitRunOfDigits(b, []);
    assert s1[..|a|] == a == s2[..|a|];
    assert (b + ("." + t))[..|b|] == b == (b + [])[..|b|];
  }

  /** Digits, a point and more digits read as a decimal fraction. */
  lemma ParseChargeDecimal(a: string, b: string)
    requires AllDigits(a) && AllDigits(b) && b != []
    ensures ParseCharge(a + "." + b) == Some(DecimalValue(a, b))
  {
    var s := a + "." + b;
    DigitRunOfDigits(a, "." + b);
    assert s == a + ("." + b);
    assert s[|a|..] == "." + b;
    assert s[|a|..][1..] == b + [];
    DigitRunOfDigits(b, []);
    assert s[..|a|] == a;
    assert (b + [])[..|b|] == b;
  }

  /** `parseFloat("1.2.3")` is 1.2. */
  lemma ParseChargeExample()
    ensures ParseCharge("1.2.3") == Some(1.2)
  {
    var one, two := "1", "2";
    assert AllDigits(one) && AllDigits(two);
    assert one + "." + two + "." + "3" == "1.2.3";
    ParseChargeStopsAtSecondPoint(one, two, "3");
    ParseChargeDecimal(one, two);
    assert DigitsValue(one) == 1 by { assert one[..0] == ""; }
    assert DigitsValue(two) == 2 by { assert two[..0] == ""; }
    assert Pow10(|two|) == 10;
  }

  /** The value `handleChange` stores for field `name`. */
  function SanitiseField(name: string, value: string): (r: string)
    ensures name == "hospital_charge" ==> forall i :: 0 <= i < |r| ==> IsChargeChar(r[i])
    ensures name == "hospital_name" ==> |r| <= |value| && IsSubsequence(KeepNameChars(value), value)
    ensures name != "hospital_name" && name != "hospital_charge" ==> r == value
  {
    if name == "hospital_name" then SanitiseName(value)
    else if name == "hospital_charge" then SanitiseCharge(value)
    else value
  }

  // ---------------------------------------------------------------------
  // Submission

  /** The body of the create request: the charge is `parseFloat` of the
      typed text (`None` for NaN). */
  datatype HospitalRequest = HospitalRequest(hospitalName: string, hospitalCharge: Option<real>, userId: Option<int>)

  /** The checks of `addHospital`, in order. */
  function CheckHospital(name: string, charge: string, userId: Option<int>): (c: Checked<HospitalRequest>)
    ensures c == Rejected(AllFieldsRequired) <==> name == "" || charge == ""
    ensures c == Rejected(NegativeCharge) <==> name != "" && charge != "" && LooksNegative(charge)
    ensures c.Accepted? <==> name != "" && charge != "" && !LooksNegative(charge)
    ensures c.Accepted? ==> c.request == HospitalRequest(name, ParseCharge(charge), userId)
  {
    if name == "" || charge == "" then Rejected(AllFieldsRequired)
    else if LooksNegative(charge) then Rejected(NegativeCharge)
    else Accepted(HospitalRequest(name, ParseCharge(charge), userId))
  }

  predicate AllChargeChars(v: string) {
    forall i :: 0 <= i < |v| ==> IsChargeChar(v[i])
  }

  /** A charge made of digits and '.' never draws the non-negative error. */
  lemma StoredChargeNeverNegative(name: string, charge: string, userId: Option<int>)
    requires AllChargeChars(charge)
    ensures CheckHospital(name, charge, userId) != Rejected(NegativeCharge)
  {
    if |charge| > 0 {
      assert IsChargeChar(charge[0]);
    }
  }

  /** The `HospitalAdd` component. */
  class HospitalForm {
    var hospitalData: map<string, string>
    const userId: Option<int>
    var error: string
    var navigatedTo: Option<string>
    var sent: seq<HospitalRequest>

    /** What `handleChange` keeps true of the charge field. */
    predicate Valid()
      reads this
    {
      AllChargeChars(Get(hospitalData, "hospital_charge"))
    }

    constructor(userId: Option<int>)
      ensures Valid()
      ensures hospitalData == map["hospital_name" := "", "hospital_charge" := ""]
      ensures this.userId == userId && error == "" && navigatedTo == None && sent == []
    {
      hospitalData := map["hospital_name" := "", "hospital_charge" := ""];
      this.userId := userId;
      error := "";
      navigatedTo := None;
      sent := [];
    }

    /** `handleChange`: only the named field changes, to its sanitised
        value, and the error is cleared. */
    method HandleChange(name: string, value: string)
      requires Valid()
      modifies this
      ensures Valid()
      ensures hospitalData == old(hospitalData)[name := SanitiseField(name, value)]
      ensures error == ""
      ensures navigatedTo == old(navigatedTo) && sent == old(sent)
    {
      var newValue := value;
      if name == "hospital_name" {
        newValue := SanitiseName(newValue);
      }
      if name == "hospital_charge" {
        newValue := KeepChargeChars(newValue);
        if LooksNegative(newValue) {
          newValue := "";
        }
      }
      SanitisedCharge(value);
      hospitalData := hospitalData[name := newValue];
      error := "";
    }

    /** `addHospital`. An empty name or charge sets the error and sends
        nothing; otherwise the request is sent and `resp` is the server's
        answer. */
    method AddHospital(resp: Response<()>)
      requires Valid()
      modifies this
      ensures Valid() && hospitalData == old(hospitalData)
      ensures var c := CheckHospital(Get(hospitalData, "hospital_name"),
                                     Get(hospitalData, "hospital_charge"), userId);
        match c
        case Rejected(m) => error == m && sent == old(sent) && navigatedTo == old(navigatedTo)
        case Accepted(req) =>
          sent == old(sent) + [req] &&
          (resp.Ok? ==> navigatedTo == Some("/hospitals") && error == old(error)) &&
          (resp.Failed? ==> error == ErrorMessage(resp.serverError, AddFailed) &&
                            navigatedTo == old(navigatedTo))
      ensures CheckHospital(Get(hospitalData, "hospital_name"),
                            Get(hospitalData, "hospital_charge"), userId) != Rejected(NegativeCharge)
    {
      var name, charge := Get(hospitalData, "hospital_name"), Get(hospitalData, "hospital_charge");
      StoredChargeNeverNegative(name, charge, userId);
      match CheckHospital(name, charge, userId)
      case Rejected(m) =>
        error := m;
      case Accepted(req) =>
        sent := sent + [req];
        match resp
        case Ok(_) =>
          navigatedTo := Some("/hospitals");
        case Failed(e) =>
          error := ErrorMessage(e, AddFailed);
    }
  }
}
