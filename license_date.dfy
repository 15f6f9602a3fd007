/** License expiry parsing. A timestamp string is tried against a fixed, ordered list of
    layouts and the first layout that accepts it wins. How one layout reads a string (the
    calendar, leniency, time zones) is abstracted as a partial parser returning an instant in
    milliseconds; `now` is the clock reading on the same scale. */
module LicenseDate {
  import opened Wrappers
  import Text

  /** The accepted layouts, in the order they are tried. */
  datatype Layout = IsoMillisUtc | IsoSecondsUtc | IsoLocal | SpaceLocal | DateOnly

  const Formats: seq<Layout> := [IsoMillisUtc, IsoSecondsUtc, IsoLocal, SpaceLocal, DateOnly]

  /** The `SimpleDateFormat` pattern of each layout. */
  function Pattern(l: Layout): string {
    match l
    case IsoMillisUtc => "yyyy-MM-dd'T'HH:mm:ss.SSS'Z'"
    case IsoSecondsUtc => "yyyy-MM-dd'T'HH:mm:ss'Z'"
    case IsoLocal => "yyyy-MM-dd'T'HH:mm:ss"
    case SpaceLocal => "yyyy-MM-dd HH:mm:ss"
    case DateOnly => "yyyy-MM-dd"
  }

  /** One layout applied to a string: `None` when `SimpleDateFormat.parse` throws. */
  type LayoutParser = (Layout, string) -> Option<int>

  /** A value a caller passes where the source has `null` or a sentinel text. */
  predicate IsBlank(raw: Option<string>) {
    raw.None? || raw.value == "" || raw.value == "null"
  }

  /** Quotes removed, then trimmed. */
  function Clean(s: string): string {
    Text.Trim(Text.RemoveQuotes(s))
  }

  /** The result of the first layout in `layouts` that accepts `s`. */
  function FirstMatch(parse: LayoutParser, layouts: seq<Layout>, s: string): Option<int> {
    if layouts == [] then None
    else if parse(layouts[0], s).Some? then parse(layouts[0], s)
    else FirstMatch(parse, layouts[1..], s)
  }

  /** `parseDate`: blank input gives no instant; otherwise the cleaned text is tried against
      the five layouts in order. */
  function ParseSpec(parse: LayoutParser, raw: Option<string>): Option<int> {
    if IsBlank(raw) then None else FirstMatch(parse, Formats, Clean(raw.value))
  }

  /** The first-match rule: the result is the value of layout `i` exactly when layout `i`
      accepts the text and no earlier one does; no result exactly when none accepts it. */
  lemma {:induction false} FirstMatchIsFirst(parse: LayoutParser, layouts: seq<Layout>, s: string)
    ensures FirstMatch(parse, layouts, s).None? <==> forall i :: 0 <= i < |layouts| ==> parse(layouts[i], s).None?
    ensures forall i :: 0 <= i < |layouts| && parse(layouts[i], s).Some?
                        && (forall j :: 0 <= j < i ==> parse(layouts[j], s).None?)
                        ==> FirstMatch(parse, layouts, s) == parse(layouts[i], s)
  {
    if layouts != [] {
      FirstMatchIsFirst(parse, layouts[1..], s);
      forall i | 0 < i < |layouts| ensures layouts[i] == layouts[1..][i - 1] { }
    }
  }

  /** Blank input and the sentinels never yield an instant. */
  lemma BlankParsesToNothing(parse: LayoutParser, raw: Option<string>)
    requires IsBlank(raw)
    ensures ParseSpec(parse, raw) == None
  {
  }

  /** Surrounding quotes and whitespace do not change the parse: parsing a cleaned text again
      gives the same instant. */
  lemma ParseIgnoresCleaning(parse: LayoutParser, s: string)
    requires !IsBlank(Some(s)) && !IsBlank(Some(Clean(s)))
    ensures ParseSpec(parse, Some(Clean(s))) == ParseSpec(parse, Some(s))
  {
    Text.CleanIdempotent(s);
  }

  /** `parseDate` as the source runs it: a loop over the layouts that returns on the first
      success. */
  method ParseDate(parse: LayoutParser, raw: Option<string>) returns (r: Option<int>)
    ensures r == ParseSpec(parse, raw)
    ensures r.Some? ==> exists i :: 0 <= i < |Formats| && parse(Formats[i], Clean(raw.value)) == r
  {
    if IsBlank(raw) {
      return None;
    }
    var cleaned := Clean(raw.value);
    var k := 0;
    while k < |Formats|
      invariant 0 <= k <= |Formats|
      invariant FirstMatch(parse, Formats, cleaned) == FirstMatch(parse, Formats[k..], cleaned)
    {
      var attempt := parse(Formats[k], cleaned);
      if attempt.Some? {
        return attempt;
      }
      assert Formats[k..][1..] == Formats[k + 1..];
      k := k + 1;
    }
    return None;
  }

  /** `isLicenseExpired`: with no known expiry the license counts as valid (fail open);
      otherwise it is expired once the clock is strictly past the expiry. */
  function IsLicenseExpired(lastExpiry: Option<int>, now: int): (expired: bool)
    ensures lastExpiry.None? ==> !expired
    ensures lastExpiry.Some? ==> (expired <==> now > lastExpiry.value)
  {
    match lastExpiry
    case None => false
    case Some(expiry) => now > expiry
  }

  /** Fail open: an expiry text that no layout accepts never blocks playback. */
  lemma UnparseableIsNotExpired(parse: LayoutParser, raw: Option<string>, now: int)
    requires !IsBlank(raw)
    requires forall i :: 0 <= i < |Formats| ==> parse(Formats[i], Clean(raw.value)).None?
    ensures !IsLicenseExpired(ParseSpec(parse, raw), now)
  {
    FirstMatchIsFirst(parse, Formats, Clean(raw.value));
  }
}
