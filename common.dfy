/** The country vocabulary shared by requests and location records. */
module Common {
  import opened Wrappers

  /** The three Baltic country codes the service accepts. */
  datatype CountryCode = LT | LV | EE

  /** The two-letter text of a country code. */
  function CountryText(c: CountryCode): string {
    match c
    case LT => "LT"
    case LV => "LV"
    case EE => "EE"
  }

  /** The country code whose text is `s`, if any. */
  function ParseCountry(s: string): (r: Option<CountryCode>)
    ensures r.Some? ==> CountryText(r.value) == s
    ensures r.None? <==> s !in {"LT", "LV", "EE"}
  {
    if s == "LT" then Some(LT)
    else if s == "LV" then Some(LV)
    else if s == "EE" then Some(EE)
    else None
  }

  lemma ParseCountryText(c: CountryCode)
    ensures ParseCountry(CountryText(c)) == Some(c)
  {
  }
}
