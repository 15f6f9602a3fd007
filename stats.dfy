/** The license line of the statistics overlay: the saved expiry text is turned into a display
    text and a count of whole days left, and the count picks the line's colour. Display
    formatting of an instant (locale, time zone) is a parameter. */
module Stats {
  import opened Wrappers
  import opened LicenseDate
  import Text

  const UnknownStatus: string := "Unknown (Check Backend)"
  const MissingLicenseSentinel: string := "API_MISSING_LICENSE"
  const ExpiryNullSentinel: string := "LICENSE_EXPIRY_NULL"
  const MissingLicenseText: string := "Server Error: License key missing"
  const ExpiryNullText: string := "Server Error: Expiry date null"
  const MillisPerDay: int := 86400000
  const WarningDays: int := 7

  /** What the overlay shows: a text, and the days left when the expiry was understood. */
  datatype LicenseView = LicenseView(text: string, days: Option<int>)

  datatype Colour = Red | Green

  /** Whole days from the start of today to the expiry; never negative. */
  function DaysRemaining(expiry: int, startOfToday: int): (d: nat)
    ensures expiry <= startOfToday ==> d == 0
    ensures expiry > startOfToday ==> d * MillisPerDay <= expiry - startOfToday < (d + 1) * MillisPerDay
  {
    var diff := expiry - startOfToday;
    if diff > 0 then diff / MillisPerDay else 0
  }

  /** `processLicense`: blank input and the two server sentinels give fixed texts and no days;
      otherwise the cleaned text goes through the same layouts as the orchestrator's parser,
      and an unparseable one is shown as it is. */
  function LicenseViewOf(parse: LayoutParser, format: int -> string, raw: Option<string>, startOfToday: int): (v: LicenseView)
    ensures IsBlank(raw) ==> v == LicenseView(UnknownStatus, None)
    ensures raw == Some(MissingLicenseSentinel) ==> v == LicenseView(MissingLicenseText, None)
    ensures raw == Some(ExpiryNullSentinel) ==> v == LicenseView(ExpiryNullText, None)
    ensures !IsBlank(raw) && raw != Some(MissingLicenseSentinel) && raw != Some(ExpiryNullSentinel) ==>
              && (v.days.Some? <==> ParseSpec(parse, raw).Some?)
              && (ParseSpec(parse, raw).None? ==> v.text == Clean(raw.value))
              && (ParseSpec(parse, raw).Some? ==>
                    v == LicenseView(format(ParseSpec(parse, raw).value), Some(DaysRemaining(ParseSpec(parse, raw).value, startOfToday))))
    ensures v.days.Some? ==> v.days.value >= 0
  {
    if IsBlank(raw) then LicenseView(UnknownStatus, None)
    else if raw.value == MissingLicenseSentinel then LicenseView(MissingLicenseText, None)
    else if raw.value == ExpiryNullSentinel then LicenseView(ExpiryNullText, None)
    else
      match FirstMatch(parse, Formats, Clean(raw.value))
      case None => LicenseView(Clean(raw.value), None)
      case Some(parsed) => LicenseView(format(parsed), Some(DaysRemaining(parsed, startOfToday)))
  }

  /** The overlay's loop: try each layout in order and stop at the first that accepts. */
  method ProcessLicense(parse: LayoutParser, format: int -> string, raw: Option<string>, startOfToday: int)
    returns (v: LicenseView)
    ensures v == LicenseViewOf(parse, format, raw, startOfToday)
  {
    if IsBlank(raw) {
      return LicenseView(UnknownStatus, None);
    }
    if raw.value == MissingLicenseSentinel {
      return LicenseView(MissingLicenseText, None);
    }
    if raw.value == ExpiryNullSentinel {
      return LicenseView(ExpiryNullText, None);
    }
    var cleaned := Clean(raw.value);
    var parsedDate: Option<int> := None;
    var i := 0;
    while i < |Formats|
      invariant 0 <= i <= |Formats|
      invariant parsedDate.None?
      invariant FirstMatch(parse, Formats, cleaned) == FirstMatch(parse, Formats[i..], cleaned)
    {
      parsedDate := parse(Formats[i], cleaned);
      if parsedDate.Some? {
        break;
      }
      assert Formats[i..][1..] == Formats[i + 1..];
      i := i + 1;
    }
    if parsedDate.None? {
      return LicenseView(cleaned, None);
    }
    v := LicenseView(format(parsedDate.value), Some(DaysRemaining(parsedDate.value, startOfToday)));
  }

  /** Red unless at least a week is known to remain. */
  function StatusColour(days: Option<int>): (c: Colour)
    ensures c == Green <==> days.Some? && days.value >= WarningDays
  {
    match days
    case None => Red
    case Some(d) => if d < WarningDays then Red else Green
  }

  /** The status line: the day count when known, the text otherwise. */
  function StatusLine(v: LicenseView): (line: string)
    ensures v.days.None? ==> line == "License Status: " + v.text
    ensures v.days.Some? && v.days.value >= 0 ==>
              exists digits :: && (forall i :: 0 <= i < |digits| ==> '0' <= digits[i] <= '9')
                               && Text.DigitsValue(digits) == v.days.value
                               && line == "License Status: " + digits + " days remaining"
  {
    match v.days
    case None => "License Status: " + v.text
    case Some(d) => "License Status: " + Text.IntToString(d) + " days remaining"
  }
}
