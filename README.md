# mcp-services tool handlers, modelled in Dafny

The repository holds small Model Context Protocol servers. Each one exposes named
tools (and, in the greeting server, two information resources) over stdio. The
SDK's `McpServer` does the registration, argument validation and dispatch. The
code the repository owns is the body of each handler. A handler takes its
validated arguments, plus at most one answer from an upstream HTTP service, and
returns a response envelope: an ordered list of text blocks and an `isError`
flag. A success envelope omits the flag, which reads as false.

This project models those handler bodies as total Dafny functions, plus one
method for the calculator, whose source code assigns a local variable branch by
branch and returns early. Each handler's contract pins down which branch fires,
the exact text it produces and how many blocks it returns. Lemmas prove what
the texts and tables guarantee, for example:

- identifiers round-trip and are distinct;
- each list entry is rendered once, in its place;
- the URL's parameters come in a fixed order;
- the greeting, the echo and the location can be recovered from the text they
  produce.

Modules, one per file:

- `Envelope` (envelope.dfy): text blocks, the envelope, the `Success` and
  `Failure` builders.
  - The abstract result of an outbound call: `Outcome<T>`.
  - What a catch block can receive: `Thrown`, either an axios error with an
    optional response or any other thrown value.
  - `Reply`: the URL a handler requested together with the envelope it
    returned.
  - Number-to-text conversion stays abstract: `NumFormat` is a parameter.
- `Text` (text.dfy): JavaScript's `join` and `split` on strings, with lemmas.
- `Calculator` (calculator.dfy): `src/tools/calculator.ts`.
- `DailyHot` (daily_hot.dfy): `packages/daily-hot/src/index.ts`.
- `Weather` (weather.dfy): `packages/weather/src/index.ts`.
- `Greeting` (greeting.dfy): `packages/greeting/src/index.ts`.
- `Info` (info.dfy): `src/resources/info.ts`.

Some things are modelled exactly as written in the code:

- **Symbols.** The multiply and divide symbols are the source file's own
  characters: U+0E23 U+0097 and U+0E23 U+0E17. These are "×" and "÷" encoded
  in UTF-8 and then read in a Thai code page.
- **Daily-hot fallback error.** The generic failure of the daily-hot tool says
  "weather".
- **Missing fields.** A missing `desc` or `hot` renders as `undefined`.
- **Empty `weather` array.** When the weather answer's `weather` array is
  empty, reading `weather[0].description` throws inside the `try`. The
  handler then answers on the generic error path with the TypeError message
  of Node.js 16.9 and later: "Cannot read properties of undefined (reading
  'description')". Older Node.js versions word it differently.

Some things are owned by library code, or are narrower than a reader might
expect:

- **Registration and validation.** The SDK and `zod` do the tool
  registration, argument validation and dispatch. The handlers contain no
  command registry and no validation messages of their own.
- **Weather arguments.** `get_weather` takes only `city` and an optional
  `country`, and it always asks for `units=metric`.
- **Error rules.** Each handler has two error rules:
  - daily-hot: an axios error, then anything else;
  - weather: a 404 axios error, then anything else.

## Model

| member | source | states |
|---|---|---|
| Envelope.Success | src/tools/calculator.ts:57-64 | a success envelope carries exactly the given lines as its blocks, in order, and is not an error |
| Envelope.Failure | src/tools/calculator.ts:33-41 | an error envelope has exactly one block, holding the message, and `isError` true |
| Envelope.ErrorMessage | packages/weather/src/index.ts:82 | `error instanceof Error ? error.message : "Unknown error"`: axios errors and other `Error`s give their message (even an empty one), any other thrown value gives "Unknown error" |
| Calculator.ParseOp | src/tools/calculator.ts:14 | a string parses to an operation only when it is that operation's enum identifier, and fails exactly when it is none of the four |
| Calculator.ParseOpName | src/tools/calculator.ts:14 | each of the four identifiers parses back to its own operation, so they are distinct |
| Calculator.OperationSymbol | src/tools/calculator.ts:74-81 | add → "+", subtract → "-", multiply → U+0E23 U+0097, divide → U+0E23 U+0E17, and any other string is returned unchanged |
| Calculator.SymbolsDistinct | src/tools/calculator.ts:74-81 | different operations display different symbols |
| Calculator.Equation | src/tools/calculator.ts:61 | the success line starts with the first operand's text and ends with the result's text |
| Calculator.EquationFields | src/tools/calculator.ts:61 | when the number texts and the symbol hold no space, the line splits at spaces into exactly: first operand, symbol, second operand, "=", result |
| Calculator.Calculate | src/tools/calculator.ts:18-65 | add, subtract and multiply succeed with one block `a sym b = result` for a+b, a−b, a·b; divide by zero gives the single error block "Error: Division by zero is not allowed."; divide by non-zero succeeds with a/b; a non-enum operation gives "Error: Unknown operation '…'."; `isError` holds exactly in those two error cases, so for any enum operation the unknown-operation branch is unreachable |
| DailyHot.Id | packages/daily-hot/src/index.ts:21-55 | every list type's identifier is non-empty |
| DailyHot.IdNoQuery | packages/daily-hot/src/index.ts:21-55 | no identifier holds a `?`, so as a URL path it cannot start a query |
| DailyHot.DisplayName | packages/daily-hot/src/index.ts:58-92 | the name table is defined on all 33 list types and no name is empty |
| DailyHot.ParseNewsType | packages/daily-hot/src/index.ts:21-55 | a string parses to a list type only if it is that type's identifier |
| DailyHot.ParseId | packages/daily-hot/src/index.ts:21-55 | every identifier parses back to its own list type |
| DailyHot.IdInjective | packages/daily-hot/src/index.ts:21-55 | no two list types share an identifier |
| DailyHot.FromOrdinalOrdinal | packages/daily-hot/src/index.ts:21-55 | each member is the one declared at its own position |
| DailyHot.OrdinalFromOrdinal | packages/daily-hot/src/index.ts:21-55 | each of the 33 positions holds the member declared there |
| DailyHot.NewsTypeValuesExact | packages/daily-hot/src/index.ts:95 | `Object.values(NewsTypeEnum)` is 33 pairwise-distinct identifiers, and a string is among them exactly when it names a list type |
| DailyHot.Label | packages/daily-hot/src/index.ts:154 | the heading's name-or-identifier fallback is always the display name: the raw-identifier fallback never fires |
| DailyHot.RequestUrl | packages/daily-hot/src/index.ts:143 | the URL is `http://localhost:6688/`, then the identifier, then `?cache=true`, and the identifier can be read back from between the two |
| DailyHot.RequestUrlQuery | packages/daily-hot/src/index.ts:143 | the URL holds exactly one `?`: splitting at it gives the path, ending in the identifier, and the query `cache=true` |
| DailyHot.RequestUrlInjective | packages/daily-hot/src/index.ts:143 | different list types are fetched from different URLs |
| DailyHot.ItemTexts | packages/daily-hot/src/index.ts:147-149 | `data.map(...)` yields one text per entry, and the text at position i is the template text of entry i |
| DailyHot.HotText | packages/daily-hot/src/index.ts:148 | a numeric `hot` is inserted as its number text, a text `hot` as it is, and a missing `hot` as "undefined" |
| DailyHot.DescText | packages/daily-hot/src/index.ts:148 | a present `desc` is inserted as it is, and a missing one as "undefined" |
| DailyHot.ItemText | packages/daily-hot/src/index.ts:148 | an entry's text always ends in the empty line "\n\n" |
| DailyHot.ItemTextJoin | packages/daily-hot/src/index.ts:148 | an entry's text is its title, hot, link and description lines and two empty lines, joined by line breaks |
| DailyHot.ItemTextLines | packages/daily-hot/src/index.ts:148 | when no field holds a line break, splitting an entry's text at line breaks gives exactly the four labelled lines, each holding its field whole, then two empty pieces |
| DailyHot.RenderList | packages/daily-hot/src/index.ts:147-149 | an empty list renders as "" and a one-entry list as that entry's template text |
| Text.Join | packages/daily-hot/src/index.ts:149 | `join` of no parts is "", of one part is that part, and any join starts with its first part |
| Text.SplitJoin | packages/daily-hot/src/index.ts:149 | a join at a one-character separator that no part holds is undone by splitting at that character |
| Text.JoinAppend | packages/daily-hot/src/index.ts:149 | joining two non-empty lists is joining each with one separator between them |
| Text.JoinAt | packages/daily-hot/src/index.ts:149 | every part occurs whole in the join, between the join of the parts before it and the join of those after it, separated by the separator |
| DailyHot.RenderListAppend | packages/daily-hot/src/index.ts:147-149 | rendering two non-empty lists in a row is rendering each, joined by one "\n" |
| DailyHot.RenderListAt | packages/daily-hot/src/index.ts:147-149 | entry k is rendered once, with the title/hot/url/desc template, after the entries before it and before those after it, one "\n" apart |
| DailyHot.DailyHotErrorText | packages/daily-hot/src/index.ts:163-185 | an axios error gives "Error fetching daily news data: " plus the body's `status` when truthy, else the error message; anything else gives "Error fetching weather data: " plus the message or "Unknown error" |
| DailyHot.GetDailyHot | packages/daily-hot/src/index.ts:139-187 | every call requests the table's URL. A success gives two blocks and no error flag: "榜单类型: " + the display name, then "榜单数据:\n\n" + the rendered list. A failure gives the one classified error block with `isError` true |
| Weather.Location | packages/weather/src/index.ts:47 | the location is the city, then a comma and the country when the country is truthy, and the city alone when it is missing or empty |
| Weather.LocationFields | packages/weather/src/index.ts:47 | for a comma-free city, the location's first comma-separated field is the city. A truthy country follows the comma, and when the country is missing or empty there is nothing after the city |
| Weather.Query | packages/weather/src/index.ts:49 | the query starts with `q=` and the location, and ends with `&units=metric`; its length is the location's and key's plus the 22 fixed characters |
| Weather.RequestUrl | packages/weather/src/index.ts:49 | the URL is the current-weather endpoint, then `?`, then exactly the query |
| Weather.QueryParameters | packages/weather/src/index.ts:49 | for a location and key without `&`, the query has exactly three parameters in the order `q`, `appid`, `units`, holding the location, the key and `metric` |
| Weather.Report | packages/weather/src/index.ts:57-62 | the success text starts with "Weather in " and the place's name |
| Weather.ReportJoin | packages/weather/src/index.ts:57-62 | the success text is its heading and its temperature, feels-like, humidity, conditions and wind lines, joined by line breaks |
| Weather.ReportLinesExact | packages/weather/src/index.ts:57-62 | when no reported value holds a line break, the success text splits at line breaks into exactly that heading and those five lines, in order |
| Weather.WeatherErrorText | packages/weather/src/index.ts:67-86 | an axios error with response status 404 gives "Location not found: " + the city; every other failure gives "Error fetching weather data: " plus the message or "Unknown error" |
| Weather.GetWeather | packages/weather/src/index.ts:30-88 | a missing or empty key gives the configuration-error block and sends no request. Otherwise the handler requests the URL built from the location and the key. A success gives the one five-line report block with no error flag; an empty `weather` array gives the generic error with the TypeError text; a failure gives the classified error block |
| Weather.NotFoundOmitsCountry | packages/weather/src/index.ts:67-77 | when a country was given, a 404 reports the city alone, never the combined location |
| Greeting.Salutation | packages/greeting/src/index.ts:32-33 | the salutation is "Good day" exactly when `formal` is true, and "Hello" otherwise, including when `formal` is omitted |
| Greeting.Greet | packages/greeting/src/index.ts:30-42 | one block, never an error: "Good day, name!" when `formal` is true, "Hello, name!" when it is false or omitted |
| Greeting.GreetingDeterminesArguments | packages/greeting/src/index.ts:32-38 | equal greetings have the same name and the same formality, so the text determines both |
| Greeting.Echo | packages/greeting/src/index.ts:55-64 | one block, never an error, reading "Echo: " + the message |
| Greeting.EchoDeterminesMessage | packages/greeting/src/index.ts:60 | the echoed text gives the message back unchanged |
| Greeting.RegisteredNamesDistinct | packages/greeting/src/index.ts:25-71 | the tools greeting, echo and calculate, and the resources system-info and user-info, are registered under distinct names |
| Info.ReadSystemInfo | src/resources/info.ts:13-28 | one contents entry, whose `uri` is the requested href, with `serverName` "mcp-service", `serverVersion` "1.0.0" and the process and clock values as given |
| Info.AccessLevel | src/resources/info.ts:39 | "administrator" exactly when the user name equals "admin", "user" exactly otherwise |
| Info.ReadUserInfo | src/resources/info.ts:35-49 | one contents entry, whose `uri` is the requested href, echoing the user name unchanged, with its access level and the clock's time |

## Left out

- Server bootstrap and transport are I/O and are not modelled. This covers
  `McpServer` construction, `StdioServerTransport`, `server.connect`, `main`,
  `process.exit` and console logging, in every package.
- The outbound `axios.get` calls are not modelled. Their answers are an input:
  the `upstream` parameter, a function from URL to `Outcome`. As a total
  function it always answers, so a call that never returns (there is no
  timeout in the source) is not represented.
- The SDK's tool and resource registry and `zod` validation are foreign library
  code. They appear only as closed types and optional values:
  - `NewsType` for the validated `type` argument;
  - `Option<bool>` for `formal`;
  - `Option<string>` for `country`.

  `Calculator.Calculate` keeps the operation a string so that the handler's
  default branch stays in the model.
- `Calculator.Calculate`: the arithmetic is on `real`, not JavaScript
  doubles. Rounding, NaN, Infinity and `-0 === 0` are not modelled, and the
  text of a number is the abstract `NumFormat`. The weather report's numbers
  are handled the same way.
- The process and clock reads are parameters: `process.platform`,
  `process.version` and `new Date().toISOString()`.
- `JSON.stringify` layout is not modelled. A resource's contents entry holds
  the record instead of its JSON text.
- URI-template matching of `user://{username}/info` is done by the SDK. The
  handler receives the matched `username` as a parameter.
- The `.describe` documentation strings are not behaviour, including the one
  generated at packages/daily-hot/src/index.ts:137.
- List-entry and response fields that no template reads are not modelled:
  `id`, `cover`, `author`, `timestamp` and `mobileUrl` of an entry, and
  `updateTime`, `fromCache` and `message` of the response.
- Malformed upstream payloads are not modelled, with one exception. They would
  throw a TypeError inside the `try`, for example a missing `data` array in a
  daily-hot answer or a missing `main` or `wind` in a weather answer. The
  exception is the empty `weather` array, which the model covers.
- DailyHot.DailyHotErrorText: the response body's `status` is modelled as an
  optional text. A non-string truthy `status`, such as a number, would be
  interpolated as its own text; that case is not modelled.
- Weather.GetWeather: the empty-`weather` TypeError text is the one Node.js
  16.9 and later produce; the older runtimes' wording is not modelled.
