/** The registration screen: either a QR code to scan, or a five-character code typed on the
    device. Typing the fifth character registers at once; the button does the same for a
    complete code. Image decoding of the QR data URL is left out; only the slicing of its
    payload is modelled. */
module Registration {
  import opened Wrappers
  import opened Text

  const CodeLength: nat := 5
  const ImagePrefix: string := "data:image"

  /** The Base64 payload of a QR data URL: only for an image data URL, and then the text after
      the first comma (the whole text when there is none). */
  function QrPayload(dataUrl: Option<string>): (r: Option<string>)
    ensures dataUrl.None? ==> r.None?
    ensures dataUrl.Some? ==> (r.Some? <==> StartsWith(dataUrl.value, ImagePrefix))
    ensures r.Some? ==> r.value == SubstringAfter(dataUrl.value, ',')
  {
    match dataUrl
    case None => None
    case Some(url) => if StartsWith(url, ImagePrefix) then Some(SubstringAfter(url, ',')) else None
  }

  /** Slicing gives back the payload a data URL was built from, commas in the payload
      included, as long as the header itself has none. */
  lemma PayloadOfBuiltUrl(header: string, payload: string)
    requires StartsWith(header, ImagePrefix) && ',' !in header
    ensures QrPayload(Some(header + "," + payload)) == Some(payload)
  {
    var url := header + "," + payload;
    assert url[..|ImagePrefix|] == header[..|ImagePrefix|];
    assert url[|header|] == ',';
    var i :| 0 <= i < |url| && url[i] == ',' && ',' !in url[..i] && SubstringAfter(url, ',') == url[i + 1..];
    assert i == |header|;
    assert url[|header| + 1..] == payload;
  }

  class RegistrationForm {
    var code: string
    var showQr: bool

    /** The text field never holds more than a full code. */
    predicate Valid()
      reads this
    {
      Utf16Length(code) <= CodeLength
    }

    constructor()
      ensures Valid() && code == "" && showQr
    {
      code := "";
      showQr := true;
    }

    /** The button is enabled, and acts, exactly for a complete code. */
    function RegisterEnabled(): (enabled: bool)
      reads this
      ensures enabled <==> Utf16Length(code) == CodeLength
    {
      Utf16Length(code) == CodeLength
    }

    /** The text field changed to `input`: a longer text is refused; an accepted text that
        makes the code complete registers with it. */
    method OnValueChange(input: string) returns (registered: Option<string>)
      requires Valid()
      modifies this
      ensures Valid() && showQr == old(showQr)
      ensures Utf16Length(input) > CodeLength ==> code == old(code) && registered.None?
      ensures Utf16Length(input) <= CodeLength ==> code == input
      ensures registered.Some? <==> Utf16Length(input) == CodeLength
      ensures registered.Some? ==> registered.value == input
    {
      registered := None;
      if Utf16Length(input) <= CodeLength {
        code := input;
        if Utf16Length(code) == CodeLength {
          registered := Some(code);
        }
      }
    }

    /** The Register button. */
    method OnRegisterClick() returns (registered: Option<string>)
      ensures registered.Some? <==> RegisterEnabled()
      ensures registered.Some? ==> registered.value == code
    {
      registered := None;
      if Utf16Length(code) == CodeLength {
        registered := Some(code);
      }
    }

    /** The QR / code switch. */
    method ToggleQr()
      modifies this
      ensures showQr == !old(showQr) && code == old(code)
    {
      showQr := !showQr;
    }
  }
}
