/** lib/i18n.ts: the two locales, text direction, phone display and the clinic's
    locale-dependent constants. */
module I18n {
  import opened Strings
  import opened Wrappers

  datatype Locale = En | Ar

  /** `locales`, in declaration order. */
  const Locales: seq<Locale> := [En, Ar]

  const DefaultLocale: Locale := En

  /** The locale's code, as it appears in paths and cookies. */
  function Code(l: Locale): string {
    match l
    case En => "en"
    case Ar => "ar"
  }

  /** `locales.includes(value)`, reported as the matching locale. */
  function ParseLocale(value: string): (r: Option<Locale>)
    ensures r.Some? ==> Code(r.value) == value
    ensures r.None? ==> forall l :: Code(l) != value
  {
    if value == "en" then Some(En) else if value == "ar" then Some(Ar) else None
  }

  /** `isLocale`: true exactly for the codes of `locales`. */
  predicate IsLocale(value: string) {
    ParseLocale(value).Some?
  }

  lemma IsLocaleExactly(value: string)
    ensures IsLocale(value) <==> (value == "en" || value == "ar")
    ensures IsLocale(value) <==> exists l :: l in Locales && Code(l) == value
  {
    if value == "ar" { assert Ar in Locales; }
    if value == "en" { assert En in Locales; }
  }

  lemma CodeRoundTrip(l: Locale)
    ensures ParseLocale(Code(l)) == Some(l)
    ensures IsLocale(Code(DefaultLocale))
  {
  }

  function Other(l: Locale): (r: Locale)
    ensures r != l
  {
    if l == Ar then En else Ar
  }

  /** `getDirection`. */
  function GetDirection(l: Locale): (r: string)
    ensures r == "rtl" <==> l == Ar
    ensures r == "ltr" <==> l == En
  {
    assert "rtl"[0] != "ltr"[0];
    match l
    case Ar => "rtl"
    case En => "ltr"
  }

  // ---- formatPhone: the first match of /\+?(\d{2})(\d{2})(\d{4})(\d{4})/ ----

  predicate DigitsAt(s: string, i: int, n: nat) {
    0 <= i && i + n <= |s| && forall k :: i <= k < i + n ==> IsAsciiDigit(s[k])
  }

  /** The length of the match that starts at `i`, if one does: the optional '+' is greedy,
      so a '+' followed by twelve digits is taken with it. */
  function PhoneMatchAt(s: string, i: nat): (r: Option<nat>)
    ensures r.Some? ==> (r.value == 12 || r.value == 13) && i + r.value <= |s|
  {
    if i < |s| && s[i] == '+' && DigitsAt(s, i + 1, 12) then Some(13)
    else if DigitsAt(s, i, 12) then Some(12)
    else None
  }

  /** The leftmost position at or after `from` where the pattern matches. */
  function FirstPhoneMatch(s: string, from: nat): (r: Option<nat>)
    ensures r.Some? ==> from <= r.value <= |s| && PhoneMatchAt(s, r.value).Some?
    ensures r.Some? ==> forall j :: from <= j < r.value ==> PhoneMatchAt(s, j).None?
    ensures r.None? ==> forall j :: from <= j <= |s| ==> PhoneMatchAt(s, j).None?
    decreases |s| - from
  {
    if from > |s| then None
    else if PhoneMatchAt(s, from).Some? then Some(from)
    else FirstPhoneMatch(s, from + 1)
  }

  /** The replacement '+$1 $2 $3 $4' for the twelve digits `d`. */
  function PhoneDisplay(d: string): string
    requires |d| == 12
  {
    "+" + d[0..2] + " " + d[2..4] + " " + d[4..8] + " " + d[8..12]
  }

  /** `formatPhone`: only the first match is rewritten; without one the input is returned. */
  function FormatPhone(phone: string): (r: string)
    ensures FirstPhoneMatch(phone, 0).None? ==> r == phone
    ensures FirstPhoneMatch(phone, 0).Some? ==>
      var i := FirstPhoneMatch(phone, 0).value;
      var n := PhoneMatchAt(phone, i).value;
      r == phone[..i] + PhoneDisplay(phone[i + n - 12..i + n]) + phone[i + n..]
  {
    match FirstPhoneMatch(phone, 0)
    case None => phone
    case Some(i) =>
      var n := PhoneMatchAt(phone, i).value;
      phone[..i] + PhoneDisplay(phone[i + n - 12..i + n]) + phone[i + n..]
  }

  /** A '+' and twelve digits are rewritten as a whole, the '+' included. */
  lemma FormatPlusTwelve(d: string)
    requires |d| == 12 && forall k :: 0 <= k < 12 ==> IsAsciiDigit(d[k])
    ensures FormatPhone(['+'] + d) == PhoneDisplay(d)
  {
    var s := ['+'] + d;
    assert s[1..13] == d;
    assert PhoneMatchAt(s, 0) == Some(13);
    var i := FirstPhoneMatch(s, 0);
    assert i == Some(0);
    calc {
      FormatPhone(s);
      s[..0] + PhoneDisplay(s[1..13]) + s[13..];
      { assert s[..0] == [] && s[13..] == []; }
      PhoneDisplay(d);
    }
  }

  lemma ClinicDisplay()
    ensures PhoneDisplay("201016006000") == "+20 10 1600 6000"
  {
    var d := "201016006000";
    assert d[0..2] == "20" && d[2..4] == "10" && d[4..8] == "1600" && d[8..12] == "6000";
  }

  lemma FormatClinicPhone()
    ensures FormatPhone("+201016006000") == "+20 10 1600 6000"
  {
    var d := "201016006000";
    assert "+201016006000" == ['+'] + d;
    FormatPlusTwelve(d);
    ClinicDisplay();
  }

  lemma FormatPhoneWithoutDigits(phone: string)
    requires forall k :: 0 <= k < |phone| ==> !IsAsciiDigit(phone[k])
    ensures FormatPhone(phone) == phone
  {
    forall j | 0 <= j <= |phone| ensures PhoneMatchAt(phone, j).None? {
      if j < |phone| { assert !IsAsciiDigit(phone[j]); }
      if j + 1 < |phone| { assert !IsAsciiDigit(phone[j + 1]); }
    }
  }

  // ---- the clinic record and the four locale selectors ----

  const BrandName: string := "Dr. Islam El-Helou"
  const BrandNameAr: string := "د. إسلام الحلو"
  const DoctorName: string := "Islam El-Helou"
  const DoctorNameAr: string := "إسلام الحلو"
  const PhoneE164: string := "+201016006000"
  const WhatsappE164: string := "+201016006000"
  const MapEmbedSrc: string := "https://www.google.com/maps/embed?pb=!1m18!1m12!1m3!1d3411.252392681939!2d29.957767338497522!3d31.241435660979633!2m3!1f0!2f0!3f0!3m2!1i1024!2i768!4f13.1!3m3!1m2!1s0x242445b16a31152b%3A0x13096e424c20071e!2z2LnZitin2K_YqSDYr9mD2KrZiNixLyDYpdiz2YTYp9mFINin2YTYrdmE2Ygg2KfYs9iq2LTYp9ix2Yog2KfZhNin2YXYsdin2LYg2KfZhNis2YTYr9mK2Ycg2Ygg2KfZhNiq2YbYp9iz2YTZitmHINmIINin2YTYqtis2YXZitmE!5e0!3m2!1sen!2seg!4v1772068803705!5m2!1sen!2seg"
  const MapEmbedSrcAr: string := "https://www.google.com/maps/embed?pb=!1m18!1m12!1m3!1d3411.252392681939!2d29.957767338497522!3d31.241435660979633!2m3!1f0!2f0!3f0!3m2!1i1024!2i768!4f13.1!3m3!1m2!1s0x242445b16a31152b%3A0x13096e424c20071e!2z2LnZitin2K_YqSDYr9mD2KrZiNixLyDYpdiz2YTYp9mFINin2YTYrdmE2Ygg2KfYs9iq2LTYp9ix2Yog2KfZhNin2YXYsdin2LYg2KfZhNis2YTYr9mK2Ycg2Ygg2KfZhNiq2YbYp9iz2YTZitmHINmIINin2YTYqtis2YXZitmE!5e0!3m2!1sen!2seg!4v1772068803705!5m2!1sen!2seg"
  const GoogleMapsDirectionsUrl: string := "https://www.google.com/maps/dir/?api=1&destination=31.2414311,29.9603369&destination_place_id=ChIJKxUxarFFJCIRHgcgTEJuCRM"
  const GoogleMapsDirectionsUrlAr: string := "https://www.google.com/maps/dir/?api=1&destination=31.2414311,29.9603369&destination_place_id=ChIJKxUxarFFJCIRHgcgTEJuCRM&hl=ar"

  /** The Arabic variant for 'ar', the English one otherwise. */
  function Select(l: Locale, en: string, ar: string): (r: string)
    ensures l == Ar ==> r == ar
    ensures l == En ==> r == en
  {
    if l == Ar then ar else en
  }

  function GetClinicBrandName(l: Locale): (r: string)
    ensures r == BrandNameAr <==> l == Ar
    ensures r == BrandName <==> l == En
  {
    Select(l, BrandName, BrandNameAr)
  }

  function GetDoctorDisplayName(l: Locale): (r: string)
    ensures r == DoctorNameAr <==> l == Ar
    ensures r == DoctorName <==> l == En
  {
    Select(l, DoctorName, DoctorNameAr)
  }

  /** The two embed URLs are the same string, so the choice does not show in the result. */
  function GetMapEmbedSrc(l: Locale): (r: string)
    ensures r == MapEmbedSrcAr && r == MapEmbedSrc
  {
    Select(l, MapEmbedSrc, MapEmbedSrcAr)
  }

  function GetGoogleMapsDirectionsUrl(l: Locale): (r: string)
    ensures r == GoogleMapsDirectionsUrlAr <==> l == Ar
    ensures r == GoogleMapsDirectionsUrl <==> l == En
  {
    Select(l, GoogleMapsDirectionsUrl, GoogleMapsDirectionsUrlAr)
  }
}
