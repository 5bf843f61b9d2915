/**
 * The phone handling of the profile form (ProfileForm.tsx): the stored phone
 * is split into a country code and a local part when the form opens, the
 * two are joined again on submit, and the code picker lists the countries
 * sorted by label.
 */
module ProfileForm {
  import opened Wrappers
  import opened Countries
  import opened EcmaPatterns
  import Seqs

  /** `s.startsWith(prefix)`. */
  predicate StartsWith(s: string, prefix: string) {
    |prefix| <= |s| && s[..|prefix|] == prefix
  }

  /** `countries.find((c) => phone.startsWith(c.phone_code))`, as an index into the table. */
  function FindCountry(cs: seq<Country>, phone: string): (r: Option<nat>)
    ensures r.Some? ==> r.value < |cs| && StartsWith(phone, cs[r.value].phoneCode)
    ensures r.Some? ==> forall j :: 0 <= j < r.value ==> !StartsWith(phone, cs[j].phoneCode)
    ensures r.None? <==> forall j :: 0 <= j < |cs| ==> !StartsWith(phone, cs[j].phoneCode)
  {
    if cs == [] then None
    else if StartsWith(phone, cs[0].phoneCode) then Some(0)
    else
      match FindCountry(cs[1..], phone)
      case None => None
      case Some(i) => Some(i + 1)
  }

  /** The first index at or after `from` where `t` occurs in `s`. */
  function FirstOccurrence(s: string, t: string, from: nat): (r: Option<nat>)
    requires from <= |s|
    ensures r.Some? ==> from <= r.value <= |s| && Seqs.OccursAt(s, t, r.value)
    ensures r.Some? ==> forall j :: from <= j < r.value ==> !Seqs.OccursAt(s, t, j)
    ensures r.None? ==> forall j :: from <= j <= |s| ==> !Seqs.OccursAt(s, t, j)
    decreases |s| - from
  {
    if Seqs.OccursAt(s, t, from) then Some(from)
    else if from == |s| then None
    else FirstOccurrence(s, t, from + 1)
  }

  /** `s.replace(t, "")` with a string pattern: only the first occurrence is removed. */
  function RemoveFirst(s: string, t: string): string {
    match FirstOccurrence(s, t, 0)
    case None => s
    case Some(i) => s[..i] + s[i + |t|..]
  }

  /** When `s` starts with `t`, the first occurrence is the prefix, so removing it drops the prefix. */
  lemma RemoveFirstOfPrefix(s: string, t: string)
    requires StartsWith(s, t)
    ensures RemoveFirst(s, t) == s[|t|..]
  {
    assert Seqs.OccursAt(s, t, 0);
  }

  /**
   * The effect run when the form opens, over a country list: for a non-empty
   * phone whose start matches a code of the list, that code and the rest of
   * the number.
   */
  function SplitWith(cs: seq<Country>, phone: string): (r: Option<(string, string)>)
    ensures r.Some? <==> phone != "" && FindCountry(cs, phone).Some?
    ensures r.Some? ==> r.value.0 == cs[FindCountry(cs, phone).value].phoneCode
    ensures r.Some? ==> phone == r.value.0 + r.value.1
  {
    if phone == "" then None
    else match FindCountry(cs, phone)
      case None => None
      case Some(i) =>
        var code := cs[i].phoneCode;
        RemoveFirstOfPrefix(phone, code);
        assert phone == phone[..|code|] + phone[|code|..];
        Some((code, RemoveFirst(phone, code)))
  }

  /** The split over the form's country table. */
  function SplitPhone(phone: string): (r: Option<(string, string)>)
    ensures r.Some? <==> phone != "" && FindCountry(Table, phone).Some?
    ensures r.Some? ==> r.value.0 == Table[FindCountry(Table, phone).value].phoneCode
    ensures r.Some? ==> phone == r.value.0 + r.value.1
  {
    SplitWith(Table, phone)
  }

  /** `phone.replace(/^0+/, "")`: the leading zeros are dropped. */
  function StripLeadingZeros(s: string): (r: string)
    ensures |r| <= |s| && r == s[|s| - |r|..]
    ensures forall j :: 0 <= j < |s| - |r| ==> s[j] == '0'
    ensures r == [] || r[0] != '0'
  {
    if s != [] && s[0] == '0' then StripLeadingZeros(s[1..]) else s
  }

  /** What `handleSubmit` sends as the phone: the selected code, then the local part without leading zeros. */
  function JoinPhone(code: string, local: string): (r: string)
    ensures StartsWith(r, code)
    ensures |r| > |code| ==> r[|code|] != '0'
    ensures r == code + StripLeadingZeros(local)
  {
    code + StripLeadingZeros(local)
  }

  /**
   * Opening the form and submitting it untouched gives back the stored phone
   * exactly when its local part does not start with a zero.
   */
  lemma SplitThenJoin(phone: string)
    requires SplitPhone(phone).Some?
    ensures var (code, local) := SplitPhone(phone).value;
      JoinPhone(code, local) == phone <==> (local == [] || local[0] != '0')
  {
    var (code, local) := SplitPhone(phone).value;
    if local != [] && local[0] == '0' {
      assert |StripLeadingZeros(local)| < |local|;
      assert |JoinPhone(code, local)| < |phone|;
    }
  }

  /** "+447…" picks the United Kingdom, which follows the "+1" United States entry. */
  lemma UnitedKingdomNumber(phone: string)
    requires StartsWith(phone, "+44")
    ensures FindCountry(Table, phone) == Some(1)
  {
    assert phone[..2][1] == '4';
    assert !StartsWith(phone, Table[0].phoneCode);
    assert Table[1..][0] == Table[1];
    assert FindCountry(Table[1..], phone) == Some(0);
  }

  /** A split phone's local part is what follows the matched code. */
  lemma SplitAtCountry(phone: string, i: nat)
    requires phone != "" && FindCountry(Table, phone) == Some(i)
    ensures SplitPhone(phone) == Some((Table[i].phoneCode, phone[|Table[i].phoneCode|..]))
  {
    RemoveFirstOfPrefix(phone, Table[i].phoneCode);
  }

  /**
   * A United Kingdom number stored with its trunk zero keeps the zero in the
   * field when the form opens, and loses it on submit.
   */
  lemma TrunkZeroLost(rest: string)
    ensures SplitPhone("+44" + ("0" + rest)) == Some(("+44", "0" + rest))
    ensures JoinPhone("+44", "0" + rest) != "+44" + ("0" + rest)
  {
    var phone := "+44" + ("0" + rest);
    assert phone[..3] == "+44";
    UnitedKingdomNumber(phone);
    SplitAtCountry(phone, 1);
    assert phone[3..] == "0" + rest;
    SplitThenJoin(phone);
  }

  /** "+1" is listed for the United States first, so a "+1" number never selects Canada. */
  lemma PlusOneIsUnitedStates(phone: string)
    requires StartsWith(phone, "+1")
    ensures FindCountry(Table, phone) == Some(0)
    ensures Table[0].name == "United States" && Table[2].name == "Canada" && Table[2].phoneCode == "+1"
  {
  }

  /** An item of the code picker. */
  datatype CountryOption = CountryOption(caption: string, value: string, code: string)

  function OptionOf(c: Country): (o: CountryOption)
    ensures o.value == c.phoneCode && o.code == c.code
  {
    CountryOption(c.name + " (" + c.phoneCode + ")", c.phoneCode, c.code)
  }

  function MapOptions(cs: seq<Country>): (r: seq<CountryOption>)
    ensures |r| == |cs| && forall i :: 0 <= i < |r| ==> r[i] == OptionOf(cs[i])
  {
    if cs == [] then [] else [OptionOf(cs[0])] + MapOptions(cs[1..])
  }

  /** `a.label.localeCompare(b.label) <= 0` on the captions, read as code-unit order. */
  function LabelOrder(): (le: (CountryOption, CountryOption) -> bool)
    ensures Seqs.TotalPreorder(le)
    ensures forall a, b :: le(a, b) == Seqs.LexLe(a.caption, b.caption)
  {
    var le := (a: CountryOption, b: CountryOption) => Seqs.LexLe(a.caption, b.caption);
    assert forall a, b :: le(a, b) || le(b, a) by {
      forall a: CountryOption, b: CountryOption ensures le(a, b) || le(b, a) {
        Seqs.LexLeTotal(a.caption, b.caption);
      }
    }
    assert forall a, b, c :: le(a, b) && le(b, c) ==> le(a, c) by {
      forall a: CountryOption, b: CountryOption, c: CountryOption | le(a, b) && le(b, c) ensures le(a, c) {
        Seqs.LexLeTransitive(a.caption, b.caption, c.caption);
      }
    }
    le
  }

  predicate HasPhoneCode(c: Country) {
    c.phoneCode != ""
  }

  /** `countryOptions`: the countries with a phone code, as picker items, sorted by label. */
  function CountryOptions(cs: seq<Country>): (r: seq<CountryOption>)
    ensures multiset(r) == multiset(MapOptions(Seqs.Filter(cs, HasPhoneCode)))
    ensures Seqs.SortedBy(r, LabelOrder())
    ensures forall o :: o in r ==> exists c :: c in cs && c.phoneCode != "" && o == OptionOf(c)
  {
    var items := MapOptions(Seqs.Filter(cs, HasPhoneCode));
    var r := Seqs.InsertionSort(items, LabelOrder());
    assert forall o :: o in r ==> o in items by {
      forall o | o in r ensures o in items {
        assert o in multiset(r);
      }
    }
    r
  }

  /**
   * The rules on the phone input: `required`, and `^[0-9\s-]+$`, so digits,
   * white space and dashes only, at least one of them.
   */
  predicate ValidPhoneInput(s: string) {
    |s| >= 1 && forall i :: 0 <= i < |s| ==> IsDigit(s[i]) || IsWhiteSpace(s[i]) || s[i] == '-'
  }

  /** An input of zeros only passes the rules and sends the bare code. */
  lemma ZerosSubmitBareCode(code: string, local: string)
    requires |local| >= 1 && forall i :: 0 <= i < |local| ==> local[i] == '0'
    ensures ValidPhoneInput(local) && JoinPhone(code, local) == code
  {
    var r := StripLeadingZeros(local);
    if r != [] {
      assert false;
    }
  }

  /** Spaces and dashes pass the rules and are sent as typed. */
  lemma SeparatorsAreSentAsTyped()
    ensures ValidPhoneInput("555 12-34") && JoinPhone("+1", "555 12-34") == "+1555 12-34"
  {
    var s := "555 12-34";
    forall i | 0 <= i < |s| ensures IsDigit(s[i]) || IsWhiteSpace(s[i]) || s[i] == '-' {
      if s[i] == ' ' {
        assert IsWhiteSpace(' ');
      }
    }
  }

  /** An empty input and one carrying its own "+" code are refused. */
  lemma EmptyOrPlusRefused()
    ensures !ValidPhoneInput("") && !ValidPhoneInput("+15551234")
  {
    assert "+15551234"[0] == '+';
    assert !IsDigit('+') && !IsWhiteSpace('+');
  }

  /** The form's phone state: the picked code and the local-part field. */
  class PhoneField {
    var selectedCountryCode: string
    var phone: string

    /** The code starts as the United States one; the field holds the stored phone. */
    constructor (initialPhone: Option<string>)
      ensures selectedCountryCode == "+1" && phone == initialPhone.GetOr("")
    {
      selectedCountryCode := "+1";
      phone := initialPhone.GetOr("");
    }

    /** The effect on the stored phone: a match moves its code to the picker; no match changes nothing. */
    method SplitInitialPhone(initialPhone: Option<string>)
      modifies this
      ensures initialPhone.Some? && SplitPhone(initialPhone.value).Some? ==>
        selectedCountryCode == SplitPhone(initialPhone.value).value.0 &&
        phone == SplitPhone(initialPhone.value).value.1
      ensures initialPhone.None? || SplitPhone(initialPhone.value).None? ==>
        selectedCountryCode == old(selectedCountryCode) && phone == old(phone)
    {
      if initialPhone.Some? && initialPhone.value != "" {
        var split := SplitPhone(initialPhone.value);
        if split.Some? {
          selectedCountryCode := split.value.0;
          phone := split.value.1;
        }
      }
    }

    /** The picker's `onChange`. */
    method SelectCountry(code: string)
      modifies this
      ensures selectedCountryCode == code && phone == old(phone)
    {
      selectedCountryCode := code;
    }

    /** Typing into the phone input: the field holds the text, the picker stays. */
    method EditPhone(text: string)
      modifies this
      ensures phone == text && selectedCountryCode == old(selectedCountryCode)
    {
      phone := text;
    }

    /**
     * Submitting the form: the field's rules run first, and only an input
     * that passes them reaches `handleSubmit`, which sends the selected code
     * joined with the field's local part. The form's other required fields
     * (full name, email, date of birth) are taken to pass; when one fails,
     * nothing is sent whatever the phone.
     */
    method Submit() returns (sent: Option<string>)
      ensures sent.Some? <==> ValidPhoneInput(phone)
      ensures sent.Some? ==> sent.value == JoinPhone(selectedCountryCode, phone)
      ensures sent.Some? ==> StartsWith(sent.value, selectedCountryCode)
    {
      if |phone| >= 1 && forall i | 0 <= i < |phone| :: IsDigit(phone[i]) || IsWhiteSpace(phone[i]) || phone[i] == '-' {
        sent := Some(selectedCountryCode + StripLeadingZeros(phone));
      } else {
        sent := None;
      }
    }
  }
}
