# Employee proxy service — a Dafny model

The service answers `GET /employee/{id}`: it fetches the employee from an
upstream REST API, parses the employee's age, derives a birth year from the
current year, classifies it into one of six generations and returns
`{id, employee_name, age, generation}`, or a JSON `{"message": ...}` error.
The repository implements this twice: a decomposed version (`unit/`: a
classifier, a converter built around an injected classifier, a REST fetcher
and a handler wired from an injected fetcher and converter) and a monolithic
one (`integration/server.go`). This project models both and proves how each
behaves and how they differ.

Modules:

- `Wrappers`: `Option`, `Result`, and `Returned<T>`, the `(value, error)` pair of
  a Go function returning `(*T, error)`. Both halves may be nil or set, as an
  injected implementation may return anything. An error is its `Error()` text.
- `GoInt`: Go's `int` on a 64-bit platform: the `Int64` type of its values
  and `Sub64`, the subtraction that wraps around by 2^64 on overflow.
- `Strconv`: Go's `strconv.Atoi` for a 64-bit `int`, the `%d` rendering and
  `strconv.Quote` as used in `*NumError` texts. It includes the round trip
  `Atoi(%d(n)) == n`. The range error reported for a digit run that overflows
  before a bad character is modelled too.
- `Employee` (unit/employee.go): the `Generation` cohorts, `MapBirthYear`, the
  upstream record and the converter `Convert`. `Convert` takes the classifier
  as a function value and the clock as a `currentYear` parameter. The birth
  year `currentYear - age` is computed with Go's 64-bit wrap-around.
- `Http`: a response as a status code and a body, and the two fixed errors.
- `Remote` (unit/remote.go): the request URL and `FetchEmployee`. The HTTP
  client is a function from URL to reply. The JSON decoder is a function from
  body to decoded record or error text.
- `UnitServer` (unit/server.go): `EmployeeEndpoint`, `getRequestID`, the route
  that composes them, and the production wiring of unit/cmd/main.go.
- `IntegrationServer` (integration/server.go): the monolithic endpoint as a
  method that assigns the generation in an if-chain. Its contract compares it
  with the decomposed server wired to the same upstream.

Where the code and the upstream-API convention differ, the model follows the
code. The decomposed fetcher treats a 401 as an error like any other non-200;
only the monolithic handler reads 401 as "not found". The monolithic handler
puts raw error texts in some 500 bodies; this is modelled as written.

`remote.go` tests `Data` against nil, but employee.go declares `Data` as a
value struct. The model makes `Data` an `Option`. The converter and the
monolithic handler read an absent `Data` as the struct's zero value (all empty
strings), as employee.go's declaration makes them.

## Model

| member | source | states |
|---|---|---|
| `Employee.MapBirthYear` | unit/employee.go:42-56 | each cohort is exactly its documented inclusive birth-year range (up to 1924, 1925-1945, 1946-1964, 1965-1980, 1981-1996, 1997 on), in both directions, for every integer including negative years |
| `Employee.MapBirthYearByTable` | unit/employee.go:12-17 | the if-chain agrees with the bound table: a year's cohort index is the number of upper bounds below it |
| `Employee.MapBirthYearMonotone` | unit/employee.go:43-55 | a later birth year never gives an older cohort |
| `Employee.MapBirthYearOnto` | unit/employee.go:10-18 | every one of the six cohorts is produced by some birth year |
| `Employee.LabelInjective` | unit/employee.go:12-17 | the six label strings are pairwise distinct |
| `Employee.RemoteEmployee.Fields` | unit/employee.go:20-29 | present data is read as it is; absent data reads as the zero record, whose age is empty |
| `Employee.Convert` | unit/employee.go:68-83 | fails exactly when Atoi rejects the age, with Atoi's error text unchanged; otherwise ID and name are copied, age is the parsed integer and generation is the classifier's result at the 64-bit `currentYear - age` (wrapping on overflow) |
| `Employee.ConvertIgnoresClassifierOnBadAge` | unit/employee.go:70-73 | on a bad age the outcome is the same for every classifier (it is never consulted) |
| `Employee.ConvertConsultsOnlyBirthYear` | unit/employee.go:74-80 | classifiers that agree at the 64-bit `currentYear - age` give the same outcome: the classifier is used only at that one year |
| `Employee.ConvertIgnoresUnusedFields` | unit/employee.go:76-81 | status, salary and profile image do not affect the outcome |
| `Employee.ConvertGarbageAge` | unit/employee_test.go:85-112 | age "NotANumber" gives exactly `strconv.Atoi: parsing "NotANumber": invalid syntax`, whatever the classifier |
| `Employee.ConvertMinimumAgeWraps` | unit/employee.go:70-80 | the most negative age Atoi accepts overflows `currentYear - age`: in 2026 the birth year wraps to `2026 - 2^63` and the converter returns the Greatest generation |
| `Employee.ConvertHappyPath` | unit/employee_test.go:114-149 | age "20" gives the record ("1", "Bob", 20, classifier at `currentYear - 20`) |
| `Employee.SampleEmployeesGenerations` | integration/server_test.go:64-75 | age 61 is a Baby Boomer in 2007-2025 and age 33 a Millennial in 2014-2029 |
| `GoInt.Sub64` | unit/employee.go:74 | Go's `int` subtraction: the result is a 64-bit value, equal to the exact difference whenever that fits |
| `GoInt.Sub64Congruent` | integration/server.go:99 | the wrapped difference is the one 64-bit value congruent to the exact difference modulo 2^64, in both directions |
| `GoInt.Sub64PastMax` | unit/employee.go:74 | a difference past the largest `int` wraps to the exact difference minus 2^64 |
| `Strconv.Atoi` | unit/employee.go:70 | succeeds exactly on an optional sign followed by one or more digits whose value fits in 64 bits, and returns that value; every error names Atoi and carries the whole input; a syntax error only for malformed input, a range error for well-formed input out of range |
| `Strconv.ShortInputNeverOutOfRange` | unit/employee.go:70 | inputs shorter than 19 bytes never give a range error (Go's fast path agrees with the general rule) |
| `Strconv.NonDigitStartIsSyntaxError` | unit/employee.go:70-73 | a string starting with neither sign nor digit is an Atoi syntax error on that string |
| `Strconv.AtoiSyntaxErrorText` | unit/employee_test.go:111 | an Atoi syntax error reads `strconv.Atoi: parsing <quoted input>: invalid syntax` |
| `Strconv.QuotePlain` | unit/employee_test.go:111 | a string with nothing to escape is quoted by wrapping it in double quotes |
| `Strconv.NotANumberQuoted` | unit/employee_test.go:111 | "NotANumber" quotes to itself in double quotes |
| `Strconv.PlainSyntaxErrorText` | unit/employee_test.go:111 | an Atoi syntax error on a string that quotes plainly reads `strconv.Atoi: parsing "<input>": invalid syntax` |
| `Strconv.NotANumberMessage` | unit/employee_test.go:110-111 | Atoi rejects "NotANumber", and the error's text is exactly `strconv.Atoi: parsing "NotANumber": invalid syntax` |
| `Strconv.AtoiFormatInt` | unit/remote.go:28 | every 64-bit ID written with `%d` parses back with Atoi to the same ID |
| `Strconv.FormatIntInjective` | unit/remote.go:28 | distinct 64-bit IDs give distinct `%d` renderings |
| `Remote.EmployeeURL` | unit/remote.go:28 | the URL is the base URL plus `/api/v1/employee/`, followed by the `%d` rendering of the ID and nothing else |
| `Remote.EmployeeURLParsesBack` | unit/remote.go:28 | for a 64-bit ID, the URL's last segment parses back with Atoi to that ID |
| `Remote.RestEmployeeFetcher.FetchEmployee` | unit/remote.go:27-55 | a transport failure gives its error; any status but 200 gives "unexpected response code, got <code> with body <body>"; a body that does not decode gives the decoder's error; decoded data absent gives neither record nor error; otherwise the decoded record unchanged; never a record and an error together; a returned record always has data |
| `Remote.FetchUsesOnlyEmployeeURL` | unit/remote.go:28-35 | the client is asked about the employee's URL only |
| `Remote.FetchDecodesOnlyOkBody` | unit/remote.go:41-50 | the decoder is used only on a 200, and only on that body |
| `Remote.UnauthorizedIsAnError` | unit/remote.go:41-44 | a 401 gives an error and no record |
| `Remote.EmployeeOneURL` | unit/remote_test.go:30 | employee 1 is requested at `/api/v1/employee/1` under the base URL |
| `Remote.Status500Message` | unit/remote_test.go:56 | a 500 with any body (the test's is "stuff went terribly wrong") gives exactly `unexpected response code, got 500 with body ` followed by that body |
| `UnitServer.EmployeeEndpoint` | unit/server.go:22-41 | fetch error gives 500 "something terrible happened"; no record and no error gives 404 "employee not found"; mapper error gives the same 500; otherwise 200 with the mapper's employee unchanged; an error body only ever holds one of the two fixed messages; the status is 200 exactly when the body is not an error |
| `UnitServer.GetRequestID` | unit/server.go:43-50 | succeeds exactly when Atoi accepts the path segment, with Atoi's 64-bit value; otherwise 404 "employee not found" |
| `UnitServer.ServeEmployee` | unit/server.go:68-77 | a non-integer segment gives the 404; an integer is handled by the endpoint with that ID; no error text leaks |
| `UnitServer.EndpointSkipsMapperWithoutRecord` | unit/server.go:25-32 | when the fetch fails or finds nothing, the outcome is the same for every mapper |
| `UnitServer.EndpointFetchesRequestedID` | unit/server.go:23-25 | the fetcher is consulted at the requested ID only |
| `UnitServer.EndpointMapsFetchedRecord` | unit/server.go:34 | the mapper is consulted on the fetched record only |
| `UnitServer.ProductionEndpoint` | unit/cmd/main.go:10-13 | with the REST fetcher and the converter over `MapBirthYear`: transport, status, decode and age errors all give the generic 500; 200 without data gives the 404; otherwise 200 with ID, name, parsed age and `MapBirthYear` of the 64-bit `currentYear - age` |
| `UnitServer.ProductionMapperOnData` | unit/employee.go:68-83 | the production mapper on a record with data returns Atoi's error text for a bad age, otherwise the employee with the generation of the 64-bit birth year, never both |
| `UnitServer.ProductionOnData` | unit/server.go:23-41 | when the upstream's 200 decodes to a record with data, the production endpoint answers as the converter decides: generic 500 on a bad age, else the converted employee |
| `UnitServer.ProductionCases` | unit/cmd/main.go:10-13 | every upstream reply gives the production endpoint the outcome stated for `ProductionEndpoint` |
| `IntegrationServer.RequestURL` | integration/server.go:58 | the monolithic handler requests the same URL as the decomposed fetcher with base `http://dummy.restapiexample.com` |
| `IntegrationServer.EmployeeEndpoint` | integration/server.go:55-117 | transport failure gives 500 with the raw error; 401 gives 404 "employee not found"; other non-200 give 500 "remote error encountered"; decode failure gives 500 with the raw decoder error; a bad age gives 500 with Atoi's raw text; otherwise 200 whose generation is exactly `MapBirthYear` of the 64-bit `currentYear - age`; against the decomposed server the successes are identical and the status codes agree except when the upstream answers 401 or a 200 without data |
| `IntegrationServer.OutcomeAgreesWithUnit` | integration/server.go:55-117 | any response the monolithic endpoint may give for an ID matches the decomposed server's: the same successes, and the same status except for an upstream 401 (404 against 500) or a 200 without data (500 against 404) |
| `IntegrationServer.OutcomesAgreeWithUnit` | integration/server.go:55-117 | the same agreement, for every possible response at once |
| `IntegrationServer.ServeEmployee` | integration/server.go:119-153 | a non-integer segment gives 404 "employee not found"; an integer gets exactly the endpoint's outcomes for that ID (raw-error 500s, 401 as 404, "remote error encountered", the employee); its successes match the decomposed server's |

## Left out

- HTTP transport, the cookie jar and client construction (`NewRemoteEmployeeFetcher`, unit/remote.go:57-74), and context cancellation. The client is a function from URL to reply.
- `http.NewRequestWithContext` failing on a bad URL: folded into the client's transport failure. Both paths return the error text.
- JSON decoding and response encoding by the toolkit. Decoding is an abstract function; a response is a status and a body value.
- Logging, which does not affect results.
- The clock: `time.Now().Year()` becomes the `currentYear` parameter, read once per conversion.
- Reading the body after a non-200 ignores read errors in the source; the reply's body is whatever was read.
- The framework hooks (`Middleware`, `HTTPMiddleware`, `HTTPOptions`, `HTTPRouterOptions`, the `RPC*` methods) and the router. These are pass-throughs or registration code. The router's Vars lookup is the `pathID` string; a missing variable is the empty string, which Atoi rejects.
- Process start-up in both cmd/main.go files, except the decomposed server's wiring of fetcher and converter (`UnitServer.ProductionEndpoint`).
- `Strconv.Quote`: escapes the quote, the backslash, the seven named control escapes and other ASCII control characters. It does not model Go's `\u`/`\U`/`\x` escapes for non-printable non-ASCII runes or invalid UTF-8.
- `Strconv.Atoi`, `GoInt`: assume Go's `int` is 64 bits wide.
- `Employee.Generation`: a closed six-value type. Go's `Generation` is a named string type that can hold other strings (the server test's mapper returns "DrinksRUs"). The model's handler passes any mapper's employee through unchanged.
- The upstream record in the fetcher's happy-path test uses integer fields behind a pointer (unit/remote_test.go:93-99), unlike the declared string fields. The model follows the declaration.
- The integration package's copies of `Generation`, `RemoteEmployee` and `Employee` are identical to the unit package's, so the model defines them once.
- The endpoints' `req.(int)` type assertion: the route always hands the endpoint an `int`.
