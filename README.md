# ipfilter admission decision, modelled in Dafny

The model covers the per-request admission decision of the ipfilter middleware for Caddy, as its test suite
`ipfilter_test.go` pins it down. `IPFilter.ServeHTTP` works in four steps:

- It picks the client address. This is the `X-Forwarded-For` header when the request carries one; otherwise it is
  the host part of the peer's `host:port`. The port may be junk such as `_`.
- It lets the request through untouched when no configured path scope is a prefix of the request path.
- It classifies the address. In range mode the address matches when some inclusive range `[low, high]` contains it,
  compared numerically byte by byte. In country mode it matches when the geolocation database's country for it is
  among the configured codes.
- It applies the rule. Allow admits matching clients and Block admits the others. A denied request gets the block
  page with status 200 when one is configured, and otherwise 403 with an empty body. An admitted request gets the
  next handler's response.

Modules:

- `Text`: splitting on a separator, with its inverse (joining), and decimal digit strings.
- `Ipv4`: addresses as four bytes, their numeric order, and the dotted-decimal text. Parsing and formatting are
  proved to be inverse bijections.
- `Address`: host/port splitting and the choice between header and peer address.
- `Filter`: the configuration, the decision (`DecideFor`, `Decide`), the response (`ServeHTTP`) and its properties.
- `Scenarios`: the three test tables as data, and the driver loop (`RunTable`, a method with a loop invariant, as
  the test's `for` loop stopping at the first `t.Fatalf`). For every row there is a lemma giving the exact response;
  for every table, a lemma that all its rows pass; and for every test function, a method whose driver run reports
  no failure.

The geolocation database is a parameter `geo: Ip -> Option<string>`. The country rows are proved for every `geo`
that satisfies `FixtureAgrees`, that is, gives each fixture address the country noted beside it in the test.
`FixtureCountry`, which has exactly those entries and is a miss for every other address, is one such database.
The range and forwarded-address tables are proved for every `geo`.

## Model

| member | source | states |
|---|---|---|
| Ipv4.CompareIsNumeric | ipfilter_test.go:159-174 | byte-wise comparison from the first byte is negative, zero or positive exactly as the 32-bit values compare, and zero only for equal addresses |
| Ipv4.ParseFormat | ipfilter_test.go:165-166 | parsing the dotted-decimal text of any address gives that address back |
| Ipv4.FormatParse | ipfilter_test.go:165-166 | a text parses to an address only when it is exactly that address's canonical dotted text (four fields, no leading zeros, each at most 255), so parsing and formatting are inverse bijections |
| Address.SplitHostPortExact | ipfilter_test.go:39 | splitting `host:port` succeeds with (host, port) exactly when the text is host, a colon and port, both free of colons and brackets |
| Address.ForwardedOverridesPeer | ipfilter_test.go:551-554 | with the X-Forwarded-For header set, the client address does not depend on RemoteAddr, and it is `ip` exactly when the header is the dotted text of `ip` |
| Address.PeerHostDecides | ipfilter_test.go:445-461 | without the header, a peer `a.b.c.d:port` is judged by `a.b.c.d` whatever the port text (`12345`, `_`) |
| Address.PeerHostOnly | ipfilter_test.go:445-461 | conversely, without the header a request is judged by `ip` only when its peer text is the dotted text of `ip`, a colon and a plain port |
| Filter.InScope | ipfilter_test.go:57-66 | true exactly when some configured scope is a prefix of the path |
| Filter.AnyRangeContains | ipfilter_test.go:176-195 | true exactly when some range of the list contains the address, whatever its position |
| Filter.ServeHTTP | ipfilter_test.go:134-143 | out of scope or on Continue the next handler's response; on Deny 200 with the block page when one is configured, else 403 with an empty body |
| Filter.OutOfScopePassesThrough | ipfilter_test.go:57-66 | a path with no configured scope as a prefix gets Continue and the next handler's response, whatever the rule, source, geolocation and addresses |
| Filter.ContainsIsNumeric | ipfilter_test.go:214-233 | a range contains an address exactly when low <= address <= high as 32-bit numbers, bounds included |
| Filter.SingleAddressRange | ipfilter_test.go:283-298 | the range [x, x] contains x and no other address |
| Filter.AllowBlockDuality | ipfilter_test.go:283-315 | for an in-scope request, Allow lets it through exactly when Block denies it |
| Filter.ForwardedHeaderPrecedence | ipfilter_test.go:428-444 | with the header set, replacing the peer address never changes the response |
| Filter.UnresolvedIsUnmatched | ipfilter_test.go:130 | an in-scope request whose address does not resolve is treated as unmatched: Allow denies it, Block lets it through |
| Filter.CountryVerdict | ipfilter_test.go:79-99 | in country mode: a lookup miss counts as outside the set; Allow admits exactly the clients whose country is in the set; Block denies exactly those |
| Filter.RangeVerdict | ipfilter_test.go:255-281 | in range mode: Block denies exactly when some range contains the client, Allow denies exactly when none does |
| Scenarios.RunTable | ipfilter_test.go:108-144 | returns None exactly when every row passes; otherwise the first failing row, all rows before it passing |
| Scenarios.PeerRow | ipfilter_test.go:445-461 | a row without the header whose peer text is `a.b.c.d:port` gets the response for the verdict on `a.b.c.d` |
| Scenarios.ForwardedRow | ipfilter_test.go:428-444 | a row whose header is `a.b.c.d` gets the response for the verdict on `a.b.c.d`, whatever its peer |
| Scenarios.FixtureCountryAgrees | ipfilter_test.go:33-99 | the fixture database gives each test address the country noted beside it |
| Scenarios.CountryAddressTexts | ipfilter_test.go:39-62 | the dotted texts of 8.8.8.8, 24.53.192.20 and 42.48.120.7 are the test's literal texts |
| Scenarios.CountryAddressTextsMore | ipfilter_test.go:73-95 | the dotted texts of 78.95.221.163, 5.175.96.22 and 5.4.9.3 are the test's literal texts |
| Scenarios.RangeAddressTexts | ipfilter_test.go:170-229 | the dotted texts of 243.1.3.15, 202.33.44.224, 243.1.3.9 and 80.245.155.250 are the test's literal texts |
| Scenarios.RangeAddressTextsMore | ipfilter_test.go:277-353 | the dotted texts of 23.1.3.9, 8.8.4.4, 52.9.1.3 and 90.90.90.90 are the test's literal texts |
| Scenarios.CountryDecision1 | ipfilter_test.go:33-43 | Allow, US client outside {JP, SA}: Deny |
| Scenarios.CountryCase1 | ipfilter_test.go:33-43 | the row's response is block page with status 200, which meets its expectation |
| Scenarios.CountryDecision2 | ipfilter_test.go:45-55 | Block, CA client inside {US, CA} on /private: Deny |
| Scenarios.CountryCase2 | ipfilter_test.go:45-55 | the row's response is block page with status 200, which meets its expectation |
| Scenarios.CountryCase3 | ipfilter_test.go:57-66 | the row's response is path / outside scope /testdata: the next handler's 200 with an empty body, which meets its expectation |
| Scenarios.CountryDecision4 | ipfilter_test.go:68-77 | Block, SA client inside {RU, JP, SA}: Deny |
| Scenarios.CountryCase4 | ipfilter_test.go:68-77 | the row's response is 403 with an empty body, which meets its expectation |
| Scenarios.CountryDecision5 | ipfilter_test.go:79-88 | Allow, RU client outside {US} on /onlyus: Deny |
| Scenarios.CountryCase5 | ipfilter_test.go:79-88 | the row's response is 403 with an empty body, which meets its expectation |
| Scenarios.CountryDecision6 | ipfilter_test.go:90-99 | Allow, DE client inside {FR, GB, AE, DE}: Continue |
| Scenarios.CountryCase6 | ipfilter_test.go:90-99 | the row's response is the next handler's 200 with an empty body, which meets its expectation |
| Scenarios.RangeDecision1 | ipfilter_test.go:159-174 | Block, 243.1.3.15 inside [243.1.3.10, 243.1.3.20]: Deny, for every geolocation database |
| Scenarios.RangeCase1 | ipfilter_test.go:159-174 | the row's response is block page with status 200, which meets its expectation |
| Scenarios.RangeDecision2 | ipfilter_test.go:176-195 | Block, 202.33.44.224 inside the second of two ranges: Deny, for every geolocation database |
| Scenarios.RangeCase2 | ipfilter_test.go:176-195 | the row's response is block page with status 200, which meets its expectation |
| Scenarios.RangeDecision3 | ipfilter_test.go:197-212 | Block, 243.1.3.9 just below [243.1.3.10, 243.1.3.20]: Continue, for every geolocation database |
| Scenarios.RangeCase3 | ipfilter_test.go:197-212 | the row's response is the next handler's response, which meets its expectation |
| Scenarios.RangeDecision4 | ipfilter_test.go:214-233 | Allow, 80.245.155.250 inside [80.0.0.0, 80.255.255.255]: Continue, for every geolocation database |
| Scenarios.RangeCase4 | ipfilter_test.go:214-233 | the row's response is the next handler's response, which meets its expectation |
| Scenarios.RangeCase5 | ipfilter_test.go:235-253 | the row's response is path / outside scope /eighties: the next handler's response whatever the address, which meets its expectation |
| Scenarios.RangeDecision6 | ipfilter_test.go:255-281 | Block, 23.1.3.9 inside the third of four ranges: Deny, for every geolocation database |
| Scenarios.RangeCase6 | ipfilter_test.go:255-281 | the row's response is 403 with an empty body, which meets its expectation |
| Scenarios.RangeDecision7 | ipfilter_test.go:283-298 | Block, 8.8.4.4 against the single address 8.8.8.8: Continue, for every geolocation database |
| Scenarios.RangeCase7 | ipfilter_test.go:283-298 | the row's response is the next handler's response, which meets its expectation |
| Scenarios.RangeDecision8 | ipfilter_test.go:300-315 | Allow, 8.8.4.4 against the single address 8.8.8.8: Deny, for every geolocation database |
| Scenarios.RangeCase8 | ipfilter_test.go:300-315 | the row's response is block page with status 200, which meets its expectation |
| Scenarios.RangeDecision9 | ipfilter_test.go:317-340 | Allow, 52.9.1.3 equal to the second of three single addresses: Continue, for every geolocation database |
| Scenarios.RangeCase9 | ipfilter_test.go:317-340 | the row's response is the next handler's response, which meets its expectation |
| Scenarios.RangeCase10 | ipfilter_test.go:342-357 | the row's response is path / outside scope /private: the next handler's response whatever the address, which meets its expectation |
| Scenarios.RangeDecision11 | ipfilter_test.go:359-381 | Block, 52.9.1.3 equal to the second of three single addresses: Deny, for every geolocation database |
| Scenarios.RangeCase11 | ipfilter_test.go:359-381 | the row's response is 403 with an empty body, which meets its expectation |
| Scenarios.FwdDecision1 | ipfilter_test.go:428-444 | Block, forwarded 8.8.8.8 (listed) from peer 8.8.4.4: Deny on the header's address |
| Scenarios.FwdForCase1 | ipfilter_test.go:428-444 | the row's response has status 403, which meets its expectation |
| Scenarios.FwdDecision2 | ipfilter_test.go:445-461 | Block, no header, peer 8.8.4.4:12345 (not listed): Continue on the peer's host |
| Scenarios.FwdForCase2 | ipfilter_test.go:445-461 | the row's response has status 200, which meets its expectation |
| Scenarios.FwdDecision3 | ipfilter_test.go:462-478 | Block, forwarded 8.8.4.4 (not listed) from listed peer 8.8.8.8: Continue |
| Scenarios.FwdForCase3 | ipfilter_test.go:462-478 | the row's response has status 200, which meets its expectation |
| Scenarios.FwdDecision4 | ipfilter_test.go:479-495 | Allow, forwarded 8.8.8.8 (listed) from unlisted peer 8.8.4.4: Continue |
| Scenarios.FwdForCase4 | ipfilter_test.go:479-495 | the row's response has status 200, which meets its expectation |
| Scenarios.FwdDecision5 | ipfilter_test.go:496-512 | Allow, no header, peer 8.8.4.4:12345 (not listed): Deny on the peer's host |
| Scenarios.FwdForCase5 | ipfilter_test.go:496-512 | the row's response has status 403, which meets its expectation |
| Scenarios.FwdDecision6 | ipfilter_test.go:513-529 | Allow, forwarded 8.8.4.4 (not listed) from listed peer 8.8.8.8: Deny |
| Scenarios.FwdForCase6 | ipfilter_test.go:513-529 | the row's response has status 403, which meets its expectation |
| Scenarios.CountryCodeTablePasses | ipfilter_test.go:33-99 | every row of the country table meets its expected status and body, for every database that agrees with the fixture |
| Scenarios.RangeTablePasses | ipfilter_test.go:159-381 | every row of the range table meets its expected status and body, whatever the geolocation database |
| Scenarios.ForwardedForTablePasses | ipfilter_test.go:428-529 | every row of the forwarded-address table meets its expected status |
| Scenarios.TestCountryCodes | ipfilter_test.go:108-144 | the country driver finds no failing row, for every database that agrees with the fixture |
| Scenarios.TestRanges | ipfilter_test.go:384-416 | the range driver finds no failing row |
| Scenarios.TestFwdForIPs | ipfilter_test.go:532-563 | the forwarded-address driver finds no failing row |

## Left out

- HTTP plumbing (handler construction, `http.NewRequest`, the response recorder, writing the body) is not modelled.
  A request is its peer address, its header value and its path; a response is a status and a body.
- The MaxMind database (opening it, looking addresses up) is a foreign library with a binary data file. It is the
  abstract parameter `geo`; the fixture countries come from the test's comments.
- Reading the block page file from disk is not modelled. A configured block page is its content, `BlockMsg`.
- The package-level toggles `isBlock`, `hasCountryCodes` and `hasRanges` become the `rule` field and the
  `Countries`/`Ranges` variants of each row's configuration. Only `isBlock` is set per case, from the row's rule
  (ipfilter_test.go:109-113, 385-389, 533-537). `hasCountryCodes` is set once before the country driver and reset
  after it (ipfilter_test.go:24, 146). `hasRanges` is set once before the range driver and never reset
  (ipfilter_test.go:150).
- The forwarded-address rows use `Ranges`, because `TestFwdForIPs` sets neither source toggle and runs with the
  `hasRanges` value it inherits from `TestRanges`. That depends on the tests running in file order; the model does
  not capture this ordering dependency.
- The implementation of `IPFilter.ServeHTTP` is not part of this model. The decision is inferred from what the
  tests assert; where they say nothing, the model makes a choice:
  - An address that cannot be resolved (the header or peer text is not IPv4, or the peer has no port) counts as
    matching nothing.
  - A header value of `""` is the header being absent, as Go's `Header.Get` reports it.
- Address text: only IPv4. Parsing follows current Go rules: four decimal fields, no leading zeros, each at most
  255. IPv6, bracketed `[host]:port` and IPv4-in-IPv6 forms are not modelled; such text is rejected.
- Country-code case normalisation at configuration time is not in the test file and is not modelled; codes are
  compared as given.
- Concurrency of request handling is not part of the decision and is not modelled.
- Scenario address texts are written as `FormatIPv4` of the address bytes plus the port, rather than as string
  literals. The `Scenarios.*AddressTexts*` lemmas state that each such form equals the test's literal text.
