/** The decoded OpenWeather record and the two strings the app derives
    from it: the display location and the weather-icon URL. */
module OpenWeather {
  import opened Wrappers
  import opened Strings
  import opened AsciiCase

  /** One entry of the `weather` array. */
  datatype WeatherCondition = WeatherCondition(id: Option<int>, main: Option<string>, icon: Option<string>)

  /** The `sys` object. */
  datatype Sys = Sys(country: Option<string>)

  /** `OpenWeatherModel`, every field optional as in the decoded JSON. */
  datatype WeatherRecord = WeatherRecord(
    message: Option<string>,
    weather: Option<seq<WeatherCondition>>,
    sys: Option<Sys>,
    name: Option<string>)

  /** The city name, or `""` when the record has none. */
  function CityName(w: WeatherRecord): string {
    w.name.GetOr("")
  }

  /** The country code, or `""` when `sys` or its country is missing. */
  function CountryCode(w: WeatherRecord): string {
    if w.sys.Some? then w.sys.value.country.GetOr("") else ""
  }

  const LocationSeparator: string := ", "

  /** `location`: the capitalized city, `", "`, then the upper-cased country.
      `unicode` classes the characters beyond ASCII for `capitalized`. */
  function Location(w: WeatherRecord, unicode: char -> CaseClass): (r: string)
    ensures var city := CityName(w); var country := CountryCode(w);
      && |r| == |city| + 2 + |country|
      && (forall i {:trigger r[i]} | 0 <= i < |city| ::
            r[i] == if CasedAt(city, i, false, unicode) then LowerChar(city[i]) else UpperChar(city[i]))
      && r[|city|..|city| + 2] == LocationSeparator
      && (forall i | |city| + 2 <= i < |r| :: r[i] == UpperChar(country[i - |city| - 2]))
  {
    Capitalize(CityName(w), unicode) + LocationSeparator + Uppercase(CountryCode(w))
  }

  /** When the city name holds no comma, the location splits at its first
      comma back into a city part and a country part that equal the record's
      city and country up to letter case; the country part holds no
      lowercase letter. */
  lemma {:induction false} LocationSplits(w: WeatherRecord, unicode: char -> CaseClass)
    requires ',' !in CityName(w)
    ensures SplitAtComma(Location(w, unicode)).Some?
    ensures var (city, country) := SplitAtComma(Location(w, unicode)).value;
      && EqualIgnoringCase(city, CityName(w))
      && EqualIgnoringCase(country, CountryCode(w))
      && NoLowercase(country)
  {
    var city := Capitalize(CityName(w), unicode);
    forall i | 0 <= i < |city|
      ensures city[i] != ','
    {
      assert CityName(w)[i] != ',';
    }
    SplitAtCommaJoin(city, Uppercase(CountryCode(w)));
    CapitalizeIgnoresCase(CityName(w), unicode);
    UppercaseIgnoresCase(CountryCode(w));
  }

  /** `location` is defined however much of the record is missing: with no
      city it starts with the separator, with no country it ends with it. */
  lemma LocationOfMissingFields(w: WeatherRecord, unicode: char -> CaseClass)
    ensures w.name.None? ==> HasPrefix(Location(w, unicode), LocationSeparator)
    ensures (w.sys.None? || w.sys.value.country.None?) ==> HasSuffix(Location(w, unicode), LocationSeparator)
    ensures Location(WeatherRecord(None, None, None, None), unicode) == LocationSeparator
  {
  }

  const IconPrefix: string := "https://openweathermap.org/img/wn/"
  const IconSuffix: string := "@2x.png"

  /** `iconURL(_:)`: the icon's image address on the provider's site. The
      record itself plays no part. */
  function IconURL(w: WeatherRecord, name: string): (r: string)
    ensures HasPrefix(r, IconPrefix) && HasSuffix(r, IconSuffix)
    ensures |r| == |IconPrefix| + |name| + |IconSuffix|
  {
    IconPrefix + name + IconSuffix
  }

  /** The icon code inside an icon URL, if the URL has the template's shape. */
  function IconName(url: string): Option<string> {
    if |IconPrefix| + |IconSuffix| <= |url| && HasPrefix(url, IconPrefix) && HasSuffix(url, IconSuffix)
    then Some(url[|IconPrefix|..|url| - |IconSuffix|])
    else None
  }

  /** The icon code reads back from its URL, and any URL that reads as a
      code is that code's URL. */
  lemma {:induction false} IconURLRoundTrip(w: WeatherRecord, name: string, url: string)
    ensures IconName(IconURL(w, name)) == Some(name)
    ensures IconName(url) == Some(name) ==> IconURL(w, name) == url
  {
    var u := IconURL(w, name);
    assert u[|IconPrefix|..|u| - |IconSuffix|] == name;
    if IconName(url) == Some(name) {
      assert url == url[..|IconPrefix|] + url[|IconPrefix|..|url| - |IconSuffix|] + url[|url| - |IconSuffix|..];
    }
  }

  /** Distinct icon codes give distinct URLs, whatever the records. */
  lemma IconURLInjective(w1: WeatherRecord, w2: WeatherRecord, a: string, b: string)
    requires IconURL(w1, a) == IconURL(w2, b)
    ensures a == b
  {
    IconURLRoundTrip(w1, a, "");
    IconURLRoundTrip(w2, b, "");
  }

  /** The URL depends on the icon code alone. */
  lemma IconURLIgnoresRecord(w1: WeatherRecord, w2: WeatherRecord, name: string)
    ensures IconURL(w1, name) == IconURL(w2, name)
  {
  }

  /** The decoded sample response: Horinouchi, Japan, icon `02n`. */
  const Sample: WeatherRecord := WeatherRecord(
    None,
    Some([WeatherCondition(Some(801), Some("Clouds"), Some("02n"))]),
    Some(Sys(Some("JP"))),
    Some("Horinouchi"))

  lemma SampleProjections(unicode: char -> CaseClass)
    ensures Location(Sample, unicode) == "Horinouchi, JP"
    ensures HasSuffix(IconURL(Sample, Sample.weather.value[0].icon.value), "02n@2x.png")
  {
    CapitalizeWord("Horinouchi", unicode);
    UppercaseUnchanged("JP");
    assert Location(Sample, unicode) == "Horinouchi" + LocationSeparator + "JP";
  }
}
