/** Normalisation of a country name to the two-letter code the card
    gateway expects (`COUNTRY_TO_CODE` and `getCountryCode`). */
module Country {

  import opened Wrappers

  const CountryToCode: map<string, string> :=
    map["India" := "IN", "United States" := "US", "United Kingdom" := "GB"]

  /** The code used for a missing or unmapped country. */
  const DefaultCode: string := "US"

  /** `toUpperCase` on one character, for the ASCII letters. */
  function ToUpperChar(c: char): char {
    if 'a' <= c <= 'z' then (c as int - 32) as char else c
  }

  function ToUpper(s: string): string {
    seq(|s|, i requires 0 <= i < |s| => ToUpperChar(s[i]))
  }

  /** The pass-through test: two characters, equal to their upper-case form. */
  predicate IsCode(s: string) {
    |s| == 2 && s == ToUpper(s)
  }

  /** The resulting code, and whether a "country code not found" warning was logged. */
  datatype Lookup = Lookup(code: string, warned: bool)

  function GetCountryCode(name: Option<string>): (r: Lookup)
    // the gateway always receives a two-character upper-case code
    ensures IsCode(r.code)
    // which is a table entry, the default, or the name itself
    ensures r.code in CountryToCode.Values || r.code == DefaultCode || (name.Some? && r.code == name.value)
    // the warning is logged exactly for a present name that is neither a code nor in the table
    ensures r.warned <==> name.Some? && name.value != "" && !IsCode(name.value) && name.value !in CountryToCode
    ensures r.warned ==> r.code == DefaultCode
  {
    if name.None? || name.value == "" then
      Lookup(DefaultCode, false)
    else if IsCode(name.value) then
      Lookup(name.value, false)
    else if name.value in CountryToCode then
      Lookup(CountryToCode[name.value], false)
    else
      Lookup(DefaultCode, true)
  }

  lemma MissingNameIsDefault(name: Option<string>)
    requires name.None? || name == Some("")
    ensures GetCountryCode(name) == Lookup(DefaultCode, false)
  {
  }

  lemma CodePassesThrough(s: string)
    requires |s| == 2 && s == ToUpper(s)
    ensures GetCountryCode(Some(s)) == Lookup(s, false)
  {
  }

  /** Mapped names get their table entry; every other name that is not
      already a code gets the default, with a warning. */
  lemma NameLookup(s: string)
    requires s != "" && !IsCode(s)
    ensures s in CountryToCode ==> GetCountryCode(Some(s)) == Lookup(CountryToCode[s], false)
    ensures s !in CountryToCode ==> GetCountryCode(Some(s)) == Lookup(DefaultCode, true)
  {
  }
}
