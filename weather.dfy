/** The `get_weather` tool of the weather service: current conditions for a
    city from the OpenWeatherMap API. */
module Weather {
  import opened Envelope
  import opened Text

  const MissingKeyText: string :=
    "Error: OpenWeather API key not found. Please set OPENWEATHER_API_KEY environment variable."

  /** The `q` parameter: `city,country` when a non-empty country code is
      given, the city alone otherwise. */
  function Location(city: string, country: Option<string>): (r: string)
    ensures Truthy(country) ==> r == city + [','] + country.value
    ensures !Truthy(country) ==> r == city
  {
    if Truthy(country) then city + "," + country.value else city
  }

  /** A city name without a comma is the first comma-separated field of the
      location, and the country code is what follows it. */
  lemma LocationFields(city: string, country: Option<string>)
    requires ',' !in city
    ensures Truthy(country) ==> Split(Location(city, country), ',') == [city] + Split(country.value, ',')
    ensures !Truthy(country) ==> Split(Location(city, country), ',') == [city]
  {
    if Truthy(country) {
      assert Location(city, country) == city + [','] + country.value;
      SplitAfter(city, ',', country.value);
    } else {
      SplitNone(city, ',');
    }
  }

  const Endpoint: string := "https://api.openweathermap.org/data/2.5/weather"

  /** The query string of the request; the location and key are inserted as
      they are, without escaping. */
  function Query(location: string, apiKey: string): (r: string)
    ensures |r| == |location| + |apiKey| + 22
    ensures r[..2] == "q=" && r[2..2 + |location|] == location
    ensures r[|r| - 13..] == "&units=metric"
  {
    "q=" + location + "&appid=" + apiKey + "&units=metric"
  }

  /** The request URL: the current-weather endpoint with that query. */
  function RequestUrl(location: string, apiKey: string): (r: string)
    ensures |r| == |Endpoint| + 1 + |Query(location, apiKey)|
    ensures r[..|Endpoint|] == Endpoint && r[|Endpoint|] == '?'
    ensures r[|Endpoint| + 1..] == Query(location, apiKey)
  {
    Endpoint + "?" + Query(location, apiKey)
  }

  /** When neither the location nor the key contains `&`, the query carries
      exactly three parameters, in the order `q`, `appid`, `units`, holding
      the location, the key and `metric`. */
  lemma QueryParameters(location: string, apiKey: string)
    requires '&' !in location && '&' !in apiKey
    ensures Split(Query(location, apiKey), '&') == ["q=" + location, "appid=" + apiKey, "units=metric"]
  {
    assert "&appid=" == ['&'] + "appid=" && "&units=metric" == ['&'] + "units=metric";
    assert Query(location, apiKey) == ("q=" + location) + ['&'] + ("appid=" + apiKey) + ['&'] + "units=metric";
    SplitThree("q=" + location, '&', "appid=" + apiKey, "units=metric");
  }

  /** The fields of the API's answer that the tool reports; `conditions`
      holds the `description` of each entry of its `weather` array. */
  datatype WeatherData = WeatherData(
    name: string, temp: real, feelsLike: real, humidity: real,
    conditions: seq<string>, windSpeed: real)

  /** The success text: a heading naming the place, then five lines. */
  function Report(fmt: NumFormat, w: WeatherData): (r: string)
    requires |w.conditions| > 0
    ensures |r| >= 11 + |w.name| && r[..11 + |w.name|] == "Weather in " + w.name
  {
    "Weather in " + w.name + ":\n"
    + "- Temperature: " + fmt(w.temp) + "°C\n"
    + "- Feels like: " + fmt(w.feelsLike) + "°C\n"
    + "- Humidity: " + fmt(w.humidity) + "%\n"
    + "- Weather: " + w.conditions[0] + "\n"
    + "- Wind speed: " + fmt(w.windSpeed) + " m/s"
  }

  /** The lines of the success text. */
  function ReportLines(fmt: NumFormat, w: WeatherData): seq<string>
    requires |w.conditions| > 0
  {
    ["Weather in " + w.name + ":",
     "- Temperature: " + fmt(w.temp) + "°C",
     "- Feels like: " + fmt(w.feelsLike) + "°C",
     "- Humidity: " + fmt(w.humidity) + "%",
     "- Weather: " + w.conditions[0],
     "- Wind speed: " + fmt(w.windSpeed) + " m/s"]
  }

  /** The success text is its six lines joined by line breaks. */
  lemma {:induction false} ReportJoin(fmt: NumFormat, w: WeatherData)
    requires |w.conditions| > 0
    ensures Report(fmt, w) == Join(ReportLines(fmt, w), "\n")
  {
    var lines := ReportLines(fmt, w);
    JoinSix(lines, "\n");
    var p1 := "Weather in " + w.name + ":\n";
    assert p1 == lines[0] + "\n";
    var p2 := p1 + "- Temperature: " + fmt(w.temp) + "°C\n";
    assert p2 == lines[0] + "\n" + lines[1] + "\n";
    var p3 := p2 + "- Feels like: " + fmt(w.feelsLike) + "°C\n";
    assert p3 == lines[0] + "\n" + lines[1] + "\n" + lines[2] + "\n";
    var p4 := p3 + "- Humidity: " + fmt(w.humidity) + "%\n";
    assert p4 == lines[0] + "\n" + lines[1] + "\n" + lines[2] + "\n" + lines[3] + "\n";
    var p5 := p4 + "- Weather: " + w.conditions[0] + "\n";
    assert p5 == lines[0] + "\n" + lines[1] + "\n" + lines[2] + "\n" + lines[3] + "\n" + lines[4] + "\n";
    assert Report(fmt, w) == p5 + lines[5];
  }

  /** When none of the reported values holds a line break, the success text
      splits at its line breaks into exactly the heading and the five
      labelled lines, in that order. */
  lemma ReportLinesExact(fmt: NumFormat, w: WeatherData)
    requires |w.conditions| > 0
    requires '\n' !in w.name && '\n' !in w.conditions[0]
    requires '\n' !in fmt(w.temp) && '\n' !in fmt(w.feelsLike)
    requires '\n' !in fmt(w.humidity) && '\n' !in fmt(w.windSpeed)
    ensures Split(Report(fmt, w), '\n') == ReportLines(fmt, w)
  {
    var lines := ReportLines(fmt, w);
    ReportJoin(fmt, w);
    forall i | 0 <= i < |lines|
      ensures '\n' !in lines[i]
    {
    }
    SplitJoin(lines, '\n');
  }

  /** The TypeError message Node.js 16.9 and later (V8 9.3 and later)
      throws when the template reads `weather[0].description` of an answer
      whose `weather` array is empty. Older Node.js versions word it
      "Cannot read property 'description' of undefined". */
  const EmptyConditionsText: string := "Cannot read properties of undefined (reading 'description')"

  /** The message of the catch block: a 404 answer means the city was not
      found (the message names the city, not the combined location); any
      other failure reports the error's own message. */
  function WeatherErrorText(city: string, f: Thrown): (r: string)
    ensures f.AxiosError? && f.response.Some? && f.response.value.status == 404 ==>
      r == "Location not found: " + city
    ensures !(f.AxiosError? && f.response.Some? && f.response.value.status == 404) ==>
      r == "Error fetching weather data: " + ErrorMessage(f)
  {
    if f.AxiosError? && f.response.Some? && f.response.value.status == 404 then
      "Location not found: " + city
    else
      "Error fetching weather data: " + ErrorMessage(f)
  }

  /** The `get_weather` handler. `apiKey` is the OPENWEATHER_API_KEY
      environment variable; `upstream` stands for the weather API and answers
      the one GET request the handler sends. */
  function GetWeather(fmt: NumFormat, city: string, country: Option<string>,
                      apiKey: Option<string>, upstream: string -> Outcome<WeatherData>)
    : (r: Reply)
    ensures !Truthy(apiKey) ==> r.requested.None? && r.envelope == Failure(MissingKeyText)
    ensures Truthy(apiKey) ==> r.requested == Some(RequestUrl(Location(city, country), apiKey.value))
    ensures r.requested.Some? && upstream(r.requested.value).Ok?
            && |upstream(r.requested.value).data.conditions| > 0 ==>
      r.envelope == Success([Report(fmt, upstream(r.requested.value).data)])
    ensures r.requested.Some? && upstream(r.requested.value).Ok?
            && |upstream(r.requested.value).data.conditions| == 0 ==>
      r.envelope == Failure("Error fetching weather data: " + EmptyConditionsText)
    ensures r.requested.Some? && upstream(r.requested.value).Err? ==>
      r.envelope == Failure(WeatherErrorText(city, upstream(r.requested.value).thrown))
  {
    if !Truthy(apiKey) then
      Reply(None, Failure(MissingKeyText))
    else
      var url := RequestUrl(Location(city, country), apiKey.value);
      match upstream(url)
      case Ok(w) =>
        if |w.conditions| > 0 then Reply(Some(url), Success([Report(fmt, w)]))
        else Reply(Some(url), Failure(WeatherErrorText(city, OtherError(Some(EmptyConditionsText)))))
      case Err(thrown) =>
        Reply(Some(url), Failure(WeatherErrorText(city, thrown)))
  }

  /** A 404 answer to a request that named a country reports the city
      alone, not the location that was asked for. */
  lemma NotFoundOmitsCountry(fmt: NumFormat, city: string, country: Option<string>,
                             apiKey: Option<string>, upstream: string -> Outcome<WeatherData>)
    requires Truthy(apiKey) && Truthy(country)
    requires var answer := upstream(RequestUrl(Location(city, country), apiKey.value));
      answer.Err? && answer.thrown.AxiosError? && answer.thrown.response.Some?
      && answer.thrown.response.value.status == 404
    ensures Texts(GetWeather(fmt, city, country, apiKey, upstream).envelope) == ["Location not found: " + city]
    ensures Texts(GetWeather(fmt, city, country, apiKey, upstream).envelope)
      != ["Location not found: " + Location(city, country)]
  {
    assert |"Location not found: " + city| < |"Location not found: " + Location(city, country)|;
  }
}
