/** The three scenario tables of the filter's tests (country codes, ranges,
    forwarded addresses), the driver loop that runs a table and stops at the
    first case whose response differs from the expectation, and the proof
    that every table passes. */
module Scenarios {
  import opened Wrappers
  import opened Ipv4
  import opened Address
  import opened Filter

  const BlockMsg := "You are not allowed here"

  /** A configured block page whose content is BlockMsg. */
  const Page: Option<string> := Some(BlockMsg)

  /** The next handler of the tests: status 200, nothing written. */
  const NextHandler := Response(StatusOK, "")

  /** What the country tests rely on of the geolocation database: each fixture
      address has the country noted beside it in the test. */
  predicate FixtureAgrees(geo: Geo) {
    && geo([8, 8, 8, 8]) == Some("US")
    && geo([24, 53, 192, 20]) == Some("CA")
    && geo([42, 48, 120, 7]) == Some("CN")
    && geo([78, 95, 221, 163]) == Some("SA")
    && geo([5, 175, 96, 22]) == Some("RU")
    && geo([5, 4, 9, 3]) == Some("DE")
  }

  /** A database with exactly the fixture entries, every other address a miss. */
  function FixtureCountry(ip: Ip): Option<string> {
    if ip == [8, 8, 8, 8] then Some("US")
    else if ip == [24, 53, 192, 20] then Some("CA")
    else if ip == [42, 48, 120, 7] then Some("CN")
    else if ip == [78, 95, 221, 163] then Some("SA")
    else if ip == [5, 175, 96, 22] then Some("RU")
    else if ip == [5, 4, 9, 3] then Some("DE")
    else None
  }

  /** Such a database exists: the fixture-only database agrees with the tests. */
  lemma FixtureCountryAgrees()
    ensures FixtureAgrees(FixtureCountry)
  {
  }

  /** One table row: the configuration, the peer address, the forwarded header
      (empty when not set), the path, and the expected status and body (None
      when the table does not check the body). */
  datatype Scenario = Scenario(
    cfg: Config, remoteAddr: string, fwdFor: string, path: string,
    expectedStatus: int, expectedBody: Option<string>)

  /** The middleware's response to the row's request. */
  function Outcome(sc: Scenario, geo: Geo): Response {
    ServeHTTP(sc.cfg, geo, NextHandler, Request(sc.remoteAddr, sc.fwdFor, sc.path))
  }

  /** The row's expectation holds: the status, and the body when it is checked. */
  predicate Passes(sc: Scenario, geo: Geo) {
    var r := Outcome(sc, geo);
    r.status == sc.expectedStatus && (sc.expectedBody.None? || r.body == sc.expectedBody.value)
  }

  /** The test driver: runs the rows in order and reports the first one whose
      expectation fails, or None when all pass. */
  method RunTable(cases: seq<Scenario>, geo: Geo) returns (failed: Option<nat>)
    ensures failed.None? <==> forall i :: 0 <= i < |cases| ==> Passes(cases[i], geo)
    ensures failed.Some? ==> failed.value < |cases| && !Passes(cases[failed.value], geo)
    ensures failed.Some? ==> forall i :: 0 <= i < failed.value ==> Passes(cases[i], geo)
  {
    var k := 0;
    while k < |cases|
      invariant 0 <= k <= |cases|
      invariant forall i :: 0 <= i < k ==> Passes(cases[i], geo)
    {
      var r := Outcome(cases[k], geo);
      if r.status != cases[k].expectedStatus {
        return Some(k);
      }
      if cases[k].expectedBody.Some? && r.body != cases[k].expectedBody.value {
        return Some(k);
      }
      k := k + 1;
    }
    return None;
  }

  function CountryConfig(scopes: seq<string>, page: Option<string>, rule: Rule, codes: seq<string>): Config {
    Config(scopes, page, rule, Countries(codes))
  }

  function RangeConfig(scopes: seq<string>, page: Option<string>, rule: Rule, ranges: seq<Range>): Config {
    Config(scopes, page, rule, Ranges(ranges))
  }

  // Each address text of the tables is written as the dotted-decimal form of
  // its bytes, `FormatIPv4([8, 8, 8, 8]) + ":_"` for the test's `8.8.8.8:_`;
  // the AddressTexts lemmas below state that these forms are the test's texts.

  // One lemma per address: the solver evaluates a dotted text cheaply on its own
  // and expensively alongside others.
  lemma Text_8_8_8_8() ensures FormatIPv4([8, 8, 8, 8]) == "8.8.8.8" {}
  lemma Text_24_53_192_20() ensures FormatIPv4([24, 53, 192, 20]) == "24.53.192.20" {}
  lemma Text_42_48_120_7() ensures FormatIPv4([42, 48, 120, 7]) == "42.48.120.7" {}
  lemma Text_78_95_221_163() ensures FormatIPv4([78, 95, 221, 163]) == "78.95.221.163" {}
  lemma Text_5_175_96_22() ensures FormatIPv4([5, 175, 96, 22]) == "5.175.96.22" {}
  lemma Text_5_4_9_3() ensures FormatIPv4([5, 4, 9, 3]) == "5.4.9.3" {}
  lemma Text_243_1_3_15() ensures FormatIPv4([243, 1, 3, 15]) == "243.1.3.15" {}
  lemma Text_202_33_44_224() ensures FormatIPv4([202, 33, 44, 224]) == "202.33.44.224" {}
  lemma Text_243_1_3_9() ensures FormatIPv4([243, 1, 3, 9]) == "243.1.3.9" {}
  lemma Text_80_245_155_250() ensures FormatIPv4([80, 245, 155, 250]) == "80.245.155.250" {}
  lemma Text_23_1_3_9() ensures FormatIPv4([23, 1, 3, 9]) == "23.1.3.9" {}
  lemma Text_8_8_4_4() ensures FormatIPv4([8, 8, 4, 4]) == "8.8.4.4" {}
  lemma Text_52_9_1_3() ensures FormatIPv4([52, 9, 1, 3]) == "52.9.1.3" {}
  lemma Text_90_90_90_90() ensures FormatIPv4([90, 90, 90, 90]) == "90.90.90.90" {}

  /** The dotted texts of the country table's first three addresses are the test's texts. */
  lemma CountryAddressTexts()
    ensures FormatIPv4([8, 8, 8, 8]) == "8.8.8.8"
    ensures FormatIPv4([24, 53, 192, 20]) == "24.53.192.20"
    ensures FormatIPv4([42, 48, 120, 7]) == "42.48.120.7"
  {
    Text_8_8_8_8();
    Text_24_53_192_20();
    Text_42_48_120_7();
  }

  /** The dotted texts of the country table's last three addresses are the test's texts. */
  lemma CountryAddressTextsMore()
    ensures FormatIPv4([78, 95, 221, 163]) == "78.95.221.163"
    ensures FormatIPv4([5, 175, 96, 22]) == "5.175.96.22"
    ensures FormatIPv4([5, 4, 9, 3]) == "5.4.9.3"
  {
    Text_78_95_221_163();
    Text_5_175_96_22();
    Text_5_4_9_3();
  }

  /** The dotted texts of the range table's first four addresses are the test's texts. */
  lemma RangeAddressTexts()
    ensures FormatIPv4([243, 1, 3, 15]) == "243.1.3.15"
    ensures FormatIPv4([202, 33, 44, 224]) == "202.33.44.224"
    ensures FormatIPv4([243, 1, 3, 9]) == "243.1.3.9"
    ensures FormatIPv4([80, 245, 155, 250]) == "80.245.155.250"
  {
    Text_243_1_3_15();
    Text_202_33_44_224();
    Text_243_1_3_9();
    Text_80_245_155_250();
  }

  /** The dotted texts of the other range and forwarded-address table addresses are the test's texts. */
  lemma RangeAddressTextsMore()
    ensures FormatIPv4([23, 1, 3, 9]) == "23.1.3.9"
    ensures FormatIPv4([8, 8, 4, 4]) == "8.8.4.4"
    ensures FormatIPv4([52, 9, 1, 3]) == "52.9.1.3"
    ensures FormatIPv4([90, 90, 90, 90]) == "90.90.90.90"
  {
    Text_23_1_3_9();
    Text_8_8_4_4();
    Text_52_9_1_3();
    Text_90_90_90_90();
  }

  // TestCountryCodes (country mode; the comment beside each address is its country)

  const CountryRow1 := Scenario(CountryConfig(["/"], Page, Allow, ["JP", "SA"]),
    FormatIPv4([8, 8, 8, 8]) + ":_", "", "/", StatusOK, Some(BlockMsg))
  const CountryRow2 := Scenario(CountryConfig(["/private"], Page, Block, ["US", "CA"]),
    FormatIPv4([24, 53, 192, 20]) + ":_", "", "/private", StatusOK, Some(BlockMsg))
  const CountryRow3 := Scenario(CountryConfig(["/testdata"], None, Block, ["RU", "CN"]),
    FormatIPv4([42, 48, 120, 7]) + ":_", "", "/", StatusOK, Some(""))
  const CountryRow4 := Scenario(CountryConfig(["/"], None, Block, ["RU", "JP", "SA"]),
    FormatIPv4([78, 95, 221, 163]) + ":_", "", "/", StatusForbidden, Some(""))
  const CountryRow5 := Scenario(CountryConfig(["/onlyus"], None, Allow, ["US"]),
    FormatIPv4([5, 175, 96, 22]) + ":_", "", "/onlyus", StatusForbidden, Some(""))
  const CountryRow6 := Scenario(CountryConfig(["/"], None, Allow, ["FR", "GB", "AE", "DE"]),
    FormatIPv4([5, 4, 9, 3]) + ":_", "", "/", StatusOK, Some(""))

  const CountryCodeCases: seq<Scenario> :=
    [CountryRow1, CountryRow2, CountryRow3, CountryRow4, CountryRow5, CountryRow6]

  // TestRanges (range mode)

  const R243: Range := Range([243, 1, 3, 10], [243, 1, 3, 20])
  const R202: Range := Range([202, 33, 44, 1], [202, 33, 44, 255])
  const R80: Range := Range([80, 0, 0, 0], [80, 255, 255, 255])
  const R23: Range := Range([23, 1, 3, 1], [23, 1, 3, 20])
  const R85: Range := Range([85, 0, 0, 0], [85, 255, 255, 255])
  const R8888: Range := Range([8, 8, 8, 8], [8, 8, 8, 8])
  const R9988: Range := Range([99, 1, 8, 8], [99, 1, 8, 8])
  const SingleTriple: seq<Range> := [
    Range([52, 9, 1, 2], [52, 9, 1, 2]),
    Range([52, 9, 1, 3], [52, 9, 1, 3]),
    Range([52, 9, 1, 4], [52, 9, 1, 4])
  ]

  const RangeRow1 := Scenario(RangeConfig(["/"], Page, Block, [R243]),
    FormatIPv4([243, 1, 3, 15]) + ":_", "", "/", StatusOK, Some(BlockMsg))
  const RangeRow2 := Scenario(RangeConfig(["/private"], Page, Block, [R243, R202]),
    FormatIPv4([202, 33, 44, 224]) + ":_", "", "/private", StatusOK, Some(BlockMsg))
  const RangeRow3 := Scenario(RangeConfig(["/"], Page, Block, [R243]),
    FormatIPv4([243, 1, 3, 9]) + ":_", "", "/", StatusOK, Some(""))
  const RangeRow4 := Scenario(RangeConfig(["/eighties"], Page, Allow, [R243, R80]),
    FormatIPv4([80, 245, 155, 250]) + ":_", "", "/eighties", StatusOK, Some(""))
  const RangeRow5 := Scenario(RangeConfig(["/eighties"], None, Block, [R243, R80]),
    FormatIPv4([80, 245, 155, 250]) + ":_", "", "/", StatusOK, Some(""))
  const RangeRow6 := Scenario(RangeConfig(["/"], None, Block, [R243, R80, R23, R85]),
    FormatIPv4([23, 1, 3, 9]) + ":_", "", "/", StatusForbidden, Some(""))
  const RangeRow7 := Scenario(RangeConfig(["/"], Page, Block, [R8888]),
    FormatIPv4([8, 8, 4, 4]) + ":_", "", "/", StatusOK, Some(""))
  const RangeRow8 := Scenario(RangeConfig(["/"], Page, Allow, [R8888]),
    FormatIPv4([8, 8, 4, 4]) + ":_", "", "/", StatusOK, Some(BlockMsg))
  const RangeRow9 := Scenario(RangeConfig(["/private"], Page, Allow, SingleTriple),
    FormatIPv4([52, 9, 1, 3]) + ":_", "", "/private", StatusOK, Some(""))
  const RangeRow10 := Scenario(RangeConfig(["/private"], Page, Allow, [R9988]),
    FormatIPv4([90, 90, 90, 90]) + ":_", "", "/", StatusOK, Some(""))
  const RangeRow11 := Scenario(RangeConfig(["/private"], None, Block, SingleTriple),
    FormatIPv4([52, 9, 1, 3]) + ":_", "", "/private", StatusForbidden, Some(""))

  const RangeCases: seq<Scenario> :=
    [RangeRow1, RangeRow2, RangeRow3, RangeRow4, RangeRow5, RangeRow6,
     RangeRow7, RangeRow8, RangeRow9, RangeRow10, RangeRow11]

  // TestFwdForIPs (range mode, proxied requests; bodies are not checked)

  const FwdRow1 := Scenario(RangeConfig(["/"], None, Block, [R8888]),
    FormatIPv4([8, 8, 4, 4]) + ":12345", FormatIPv4([8, 8, 8, 8]), "/", StatusForbidden, None)
  const FwdRow2 := Scenario(RangeConfig(["/"], None, Block, [R8888]),
    FormatIPv4([8, 8, 4, 4]) + ":12345", "", "/", StatusOK, None)
  const FwdRow3 := Scenario(RangeConfig(["/"], None, Block, [R8888]),
    FormatIPv4([8, 8, 8, 8]) + ":12345", FormatIPv4([8, 8, 4, 4]), "/", StatusOK, None)
  const FwdRow4 := Scenario(RangeConfig(["/"], None, Allow, [R8888]),
    FormatIPv4([8, 8, 4, 4]) + ":12345", FormatIPv4([8, 8, 8, 8]), "/", StatusOK, None)
  const FwdRow5 := Scenario(RangeConfig(["/"], None, Allow, [R8888]),
    FormatIPv4([8, 8, 4, 4]) + ":12345", "", "/", StatusForbidden, None)
  const FwdRow6 := Scenario(RangeConfig(["/"], None, Allow, [R8888]),
    FormatIPv4([8, 8, 8, 8]) + ":12345", FormatIPv4([8, 8, 4, 4]), "/", StatusForbidden, None)

  const ForwardedForCases: seq<Scenario> := [FwdRow1, FwdRow2, FwdRow3, FwdRow4, FwdRow5, FwdRow6]

  /** A row without a forwarded header whose peer text is `a.b.c.d:port` gets
      the response for the verdict on the address `a.b.c.d`. */
  lemma PeerRow(sc: Scenario, geo: Geo, ip: Ip, port: string)
    requires PlainPart(port) && sc.remoteAddr == FormatIPv4(ip) + ":" + port && sc.fwdFor == ""
    ensures Outcome(sc, geo) == Respond(sc.cfg, NextHandler, DecideFor(sc.cfg, geo, sc.path, Some(ip)))
  {
    PeerHostDecides(ip, port, sc.path);
  }

  /** A row whose forwarded header is `a.b.c.d` gets the response for the
      verdict on the address `a.b.c.d`, whatever its peer text. */
  lemma ForwardedRow(sc: Scenario, geo: Geo, ip: Ip)
    requires sc.fwdFor == FormatIPv4(ip)
    ensures Outcome(sc, geo) == Respond(sc.cfg, NextHandler, DecideFor(sc.cfg, geo, sc.path, Some(ip)))
  {
    ParseFormat(ip);
  }

  /** Row 1 of the country table: the verdict on its client address. */
  lemma CountryDecision1(geo: Geo)
    requires FixtureAgrees(geo)
    ensures DecideFor(CountryRow1.cfg, geo, CountryRow1.path, Some([8, 8, 8, 8])) == Deny
  {
    assert InScope("/", ["/"]);
  }

  /** Allow, US client outside {JP, SA}: block page with status 200. */
  lemma CountryCase1(geo: Geo)
    requires FixtureAgrees(geo)
    ensures Outcome(CountryRow1, geo) == Response(StatusOK, BlockMsg)
    ensures Passes(CountryRow1, geo)
  {
    PeerRow(CountryRow1, geo, [8, 8, 8, 8], "_");
    CountryDecision1(geo);
  }

  /** Row 2 of the country table: the verdict on its client address. */
  lemma CountryDecision2(geo: Geo)
    requires FixtureAgrees(geo)
    ensures DecideFor(CountryRow2.cfg, geo, CountryRow2.path, Some([24, 53, 192, 20])) == Deny
  {
    assert InScope("/private", ["/private"]);
  }

  /** Block, CA client inside {US, CA} on /private: block page with status 200. */
  lemma CountryCase2(geo: Geo)
    requires FixtureAgrees(geo)
    ensures Outcome(CountryRow2, geo) == Response(StatusOK, BlockMsg)
    ensures Passes(CountryRow2, geo)
  {
    PeerRow(CountryRow2, geo, [24, 53, 192, 20], "_");
    CountryDecision2(geo);
  }

  /** Block, CN client, scope /testdata, path /: passed through. */
  lemma CountryCase3(geo: Geo)
    requires FixtureAgrees(geo)
    ensures Outcome(CountryRow3, geo) == NextHandler
    ensures Passes(CountryRow3, geo)
  {
    assert !InScope("/", ["/testdata"]);
  }

  /** Row 4 of the country table: the verdict on its client address. */
  lemma CountryDecision4(geo: Geo)
    requires FixtureAgrees(geo)
    ensures DecideFor(CountryRow4.cfg, geo, CountryRow4.path, Some([78, 95, 221, 163])) == Deny
  {
    assert InScope("/", ["/"]);
  }

  /** Block, SA client inside {RU, JP, SA}, no block page: 403. */
  lemma CountryCase4(geo: Geo)
    requires FixtureAgrees(geo)
    ensures Outcome(CountryRow4, geo) == Response(StatusForbidden, "")
    ensures Passes(CountryRow4, geo)
  {
    PeerRow(CountryRow4, geo, [78, 95, 221, 163], "_");
    CountryDecision4(geo);
  }

  /** Row 5 of the country table: the verdict on its client address. */
  lemma CountryDecision5(geo: Geo)
    requires FixtureAgrees(geo)
    ensures DecideFor(CountryRow5.cfg, geo, CountryRow5.path, Some([5, 175, 96, 22])) == Deny
  {
    assert InScope("/onlyus", ["/onlyus"]);
  }

  /** Allow, RU client outside {US} on /onlyus, no block page: 403. */
  lemma CountryCase5(geo: Geo)
    requires FixtureAgrees(geo)
    ensures Outcome(CountryRow5, geo) == Response(StatusForbidden, "")
    ensures Passes(CountryRow5, geo)
  {
    PeerRow(CountryRow5, geo, [5, 175, 96, 22], "_");
    CountryDecision5(geo);
  }

  /** Row 6 of the country table: the verdict on its client address. */
  lemma CountryDecision6(geo: Geo)
    requires FixtureAgrees(geo)
    ensures DecideFor(CountryRow6.cfg, geo, CountryRow6.path, Some([5, 4, 9, 3])) == Continue
  {
    assert InScope("/", ["/"]);
  }

  /** Allow, DE client inside {FR, GB, AE, DE}: passed through. */
  lemma CountryCase6(geo: Geo)
    requires FixtureAgrees(geo)
    ensures Outcome(CountryRow6, geo) == NextHandler
    ensures Passes(CountryRow6, geo)
  {
    PeerRow(CountryRow6, geo, [5, 4, 9, 3], "_");
    CountryDecision6(geo);
  }

  /** Row 1 of the range table: the verdict on its client address. */
  lemma RangeDecision1(geo: Geo)
    ensures DecideFor(RangeRow1.cfg, geo, RangeRow1.path, Some([243, 1, 3, 15])) == Deny
  {
    assert InScope("/", ["/"]);
    assert AnyRangeContains([R243], [243, 1, 3, 15]);
  }

  /** Block, 243.1.3.15 inside [243.1.3.10, 243.1.3.20]: block page with status 200. */
  lemma RangeCase1(geo: Geo)
    ensures Outcome(RangeRow1, geo) == Response(StatusOK, BlockMsg)
    ensures Passes(RangeRow1, geo)
  {
    PeerRow(RangeRow1, geo, [243, 1, 3, 15], "_");
    RangeDecision1(geo);
  }

  /** Row 2 of the range table: the verdict on its client address. */
  lemma RangeDecision2(geo: Geo)
    ensures DecideFor(RangeRow2.cfg, geo, RangeRow2.path, Some([202, 33, 44, 224])) == Deny
  {
    assert InScope("/private", ["/private"]);
    assert AnyRangeContains([R243, R202], [202, 33, 44, 224]);
  }

  /** Block, 202.33.44.224 inside the second range: block page with status 200. */
  lemma RangeCase2(geo: Geo)
    ensures Outcome(RangeRow2, geo) == Response(StatusOK, BlockMsg)
    ensures Passes(RangeRow2, geo)
  {
    PeerRow(RangeRow2, geo, [202, 33, 44, 224], "_");
    RangeDecision2(geo);
  }

  /** Row 3 of the range table: the verdict on its client address. */
  lemma RangeDecision3(geo: Geo)
    ensures DecideFor(RangeRow3.cfg, geo, RangeRow3.path, Some([243, 1, 3, 9])) == Continue
  {
    assert InScope("/", ["/"]);
    assert !AnyRangeContains([R243], [243, 1, 3, 9]);
  }

  /** Block, 243.1.3.9 just below [243.1.3.10, 243.1.3.20]: passed through. */
  lemma RangeCase3(geo: Geo)
    ensures Outcome(RangeRow3, geo) == NextHandler
    ensures Passes(RangeRow3, geo)
  {
    PeerRow(RangeRow3, geo, [243, 1, 3, 9], "_");
    RangeDecision3(geo);
  }

  /** Row 4 of the range table: the verdict on its client address. */
  lemma RangeDecision4(geo: Geo)
    ensures DecideFor(RangeRow4.cfg, geo, RangeRow4.path, Some([80, 245, 155, 250])) == Continue
  {
    assert InScope("/eighties", ["/eighties"]);
    assert AnyRangeContains([R243, R80], [80, 245, 155, 250]);
  }

  /** Allow, 80.245.155.250 inside [80.0.0.0, 80.255.255.255]: passed through. */
  lemma RangeCase4(geo: Geo)
    ensures Outcome(RangeRow4, geo) == NextHandler
    ensures Passes(RangeRow4, geo)
  {
    PeerRow(RangeRow4, geo, [80, 245, 155, 250], "_");
    RangeDecision4(geo);
  }

  /** Block, an address inside a range, but path / outside scope /eighties: passed through. */
  lemma RangeCase5(geo: Geo)
    ensures Outcome(RangeRow5, geo) == NextHandler
    ensures Passes(RangeRow5, geo)
  {
    assert !InScope("/", ["/eighties"]);
  }

  /** Row 6 of the range table: the verdict on its client address. */
  lemma RangeDecision6(geo: Geo)
    ensures DecideFor(RangeRow6.cfg, geo, RangeRow6.path, Some([23, 1, 3, 9])) == Deny
  {
    assert InScope("/", ["/"]);
    assert AnyRangeContains([R243, R80, R23, R85], [23, 1, 3, 9]);
  }

  /** Block, 23.1.3.9 inside the third of four ranges, no block page: 403. */
  lemma RangeCase6(geo: Geo)
    ensures Outcome(RangeRow6, geo) == Response(StatusForbidden, "")
    ensures Passes(RangeRow6, geo)
  {
    PeerRow(RangeRow6, geo, [23, 1, 3, 9], "_");
    RangeDecision6(geo);
  }

  /** Row 7 of the range table: the verdict on its client address. */
  lemma RangeDecision7(geo: Geo)
    ensures DecideFor(RangeRow7.cfg, geo, RangeRow7.path, Some([8, 8, 4, 4])) == Continue
  {
    assert InScope("/", ["/"]);
    assert !AnyRangeContains([R8888], [8, 8, 4, 4]);
  }

  /** Block, 8.8.4.4 against the single address 8.8.8.8: passed through. */
  lemma RangeCase7(geo: Geo)
    ensures Outcome(RangeRow7, geo) == NextHandler
    ensures Passes(RangeRow7, geo)
  {
    PeerRow(RangeRow7, geo, [8, 8, 4, 4], "_");
    RangeDecision7(geo);
  }

  /** Row 8 of the range table: the verdict on its client address. */
  lemma RangeDecision8(geo: Geo)
    ensures DecideFor(RangeRow8.cfg, geo, RangeRow8.path, Some([8, 8, 4, 4])) == Deny
  {
    assert InScope("/", ["/"]);
    assert !AnyRangeContains([R8888], [8, 8, 4, 4]);
  }

  /** Allow, 8.8.4.4 against the single address 8.8.8.8: block page with status 200. */
  lemma RangeCase8(geo: Geo)
    ensures Outcome(RangeRow8, geo) == Response(StatusOK, BlockMsg)
    ensures Passes(RangeRow8, geo)
  {
    PeerRow(RangeRow8, geo, [8, 8, 4, 4], "_");
    RangeDecision8(geo);
  }

  /** Row 9 of the range table: the verdict on its client address. */
  lemma RangeDecision9(geo: Geo)
    ensures DecideFor(RangeRow9.cfg, geo, RangeRow9.path, Some([52, 9, 1, 3])) == Continue
  {
    assert InScope("/private", ["/private"]);
    assert AnyRangeContains(SingleTriple, [52, 9, 1, 3]);
  }

  /** Allow, 52.9.1.3 equal to the second of three single addresses: passed through. */
  lemma RangeCase9(geo: Geo)
    ensures Outcome(RangeRow9, geo) == NextHandler
    ensures Passes(RangeRow9, geo)
  {
    PeerRow(RangeRow9, geo, [52, 9, 1, 3], "_");
    RangeDecision9(geo);
  }

  /** Allow, an address outside the range, but path / outside scope /private: passed through. */
  lemma RangeCase10(geo: Geo)
    ensures Outcome(RangeRow10, geo) == NextHandler
    ensures Passes(RangeRow10, geo)
  {
    assert !InScope("/", ["/private"]);
  }

  /** Row 11 of the range table: the verdict on its client address. */
  lemma RangeDecision11(geo: Geo)
    ensures DecideFor(RangeRow11.cfg, geo, RangeRow11.path, Some([52, 9, 1, 3])) == Deny
  {
    assert InScope("/private", ["/private"]);
    assert AnyRangeContains(SingleTriple, [52, 9, 1, 3]);
  }

  /** Block, 52.9.1.3 equal to the second of three single addresses, no block page: 403. */
  lemma RangeCase11(geo: Geo)
    ensures Outcome(RangeRow11, geo) == Response(StatusForbidden, "")
    ensures Passes(RangeRow11, geo)
  {
    PeerRow(RangeRow11, geo, [52, 9, 1, 3], "_");
    RangeDecision11(geo);
  }

  /** Row 1 of the forwarded-address table: the verdict on its client address. */
  lemma FwdDecision1(geo: Geo)
    ensures DecideFor(FwdRow1.cfg, geo, FwdRow1.path, Some([8, 8, 8, 8])) == Deny
  {
    assert InScope("/", ["/"]);
    assert AnyRangeContains([R8888], [8, 8, 8, 8]);
  }

  /** Block, forwarded 8.8.8.8 (listed) from peer 8.8.4.4 (not listed): 403. */
  lemma FwdForCase1(geo: Geo)
    ensures Outcome(FwdRow1, geo) == Response(StatusForbidden, "")
    ensures Passes(FwdRow1, geo)
  {
    ForwardedRow(FwdRow1, geo, [8, 8, 8, 8]);
    FwdDecision1(geo);
  }

  /** Row 2 of the forwarded-address table: the verdict on its client address. */
  lemma FwdDecision2(geo: Geo)
    ensures DecideFor(FwdRow2.cfg, geo, FwdRow2.path, Some([8, 8, 4, 4])) == Continue
  {
    assert InScope("/", ["/"]);
    assert !AnyRangeContains([R8888], [8, 8, 4, 4]);
  }

  /** Block, no forwarded header, peer 8.8.4.4 (not listed): passed through. */
  lemma FwdForCase2(geo: Geo)
    ensures Outcome(FwdRow2, geo) == NextHandler
    ensures Passes(FwdRow2, geo)
  {
    PeerRow(FwdRow2, geo, [8, 8, 4, 4], "12345");
    FwdDecision2(geo);
  }

  /** Row 3 of the forwarded-address table: the verdict on its client address. */
  lemma FwdDecision3(geo: Geo)
    ensures DecideFor(FwdRow3.cfg, geo, FwdRow3.path, Some([8, 8, 4, 4])) == Continue
  {
    assert InScope("/", ["/"]);
    assert !AnyRangeContains([R8888], [8, 8, 4, 4]);
  }

  /** Block, forwarded 8.8.4.4 (not listed) from peer 8.8.8.8 (listed): passed through. */
  lemma FwdForCase3(geo: Geo)
    ensures Outcome(FwdRow3, geo) == NextHandler
    ensures Passes(FwdRow3, geo)
  {
    ForwardedRow(FwdRow3, geo, [8, 8, 4, 4]);
    FwdDecision3(geo);
  }

  /** Row 4 of the forwarded-address table: the verdict on its client address. */
  lemma FwdDecision4(geo: Geo)
    ensures DecideFor(FwdRow4.cfg, geo, FwdRow4.path, Some([8, 8, 8, 8])) == Continue
  {
    assert InScope("/", ["/"]);
    assert AnyRangeContains([R8888], [8, 8, 8, 8]);
  }

  /** Allow, forwarded 8.8.8.8 (listed) from peer 8.8.4.4 (not listed): passed through. */
  lemma FwdForCase4(geo: Geo)
    ensures Outcome(FwdRow4, geo) == NextHandler
    ensures Passes(FwdRow4, geo)
  {
    ForwardedRow(FwdRow4, geo, [8, 8, 8, 8]);
    FwdDecision4(geo);
  }

  /** Row 5 of the forwarded-address table: the verdict on its client address. */
  lemma FwdDecision5(geo: Geo)
    ensures DecideFor(FwdRow5.cfg, geo, FwdRow5.path, Some([8, 8, 4, 4])) == Deny
  {
    assert InScope("/", ["/"]);
    assert !AnyRangeContains([R8888], [8, 8, 4, 4]);
  }

  /** Allow, no forwarded header, peer 8.8.4.4 (not listed): 403. */
  lemma FwdForCase5(geo: Geo)
    ensures Outcome(FwdRow5, geo) == Response(StatusForbidden, "")
    ensures Passes(FwdRow5, geo)
  {
    PeerRow(FwdRow5, geo, [8, 8, 4, 4], "12345");
    FwdDecision5(geo);
  }

  /** Row 6 of the forwarded-address table: the verdict on its client address. */
  lemma FwdDecision6(geo: Geo)
    ensures DecideFor(FwdRow6.cfg, geo, FwdRow6.path, Some([8, 8, 4, 4])) == Deny
  {
    assert InScope("/", ["/"]);
    assert !AnyRangeContains([R8888], [8, 8, 4, 4]);
  }

  /** Allow, forwarded 8.8.4.4 (not listed) from peer 8.8.8.8 (listed): 403. */
  lemma FwdForCase6(geo: Geo)
    ensures Outcome(FwdRow6, geo) == Response(StatusForbidden, "")
    ensures Passes(FwdRow6, geo)
  {
    ForwardedRow(FwdRow6, geo, [8, 8, 4, 4]);
    FwdDecision6(geo);
  }

  // TableRow and the XRows lemmas below model nothing of the tests: they are
  // substitution steps that keep the table proofs small for the solver.

  /** A row known to pass, found at position `i` of a table, passes there. */
  lemma TableRow(cases: seq<Scenario>, i: nat, sc: Scenario, geo: Geo)
    requires i < |cases| && cases[i] == sc && Passes(sc, geo)
    ensures Passes(cases[i], geo)
  {
  }

  /** The rows of the country table, by position. */
  lemma CountryCodeRows()
    ensures CountryCodeCases[0] == CountryRow1
    ensures CountryCodeCases[1] == CountryRow2
    ensures CountryCodeCases[2] == CountryRow3
    ensures CountryCodeCases[3] == CountryRow4
    ensures CountryCodeCases[4] == CountryRow5
    ensures CountryCodeCases[5] == CountryRow6
  {
  }

  /** Every row of the country table meets its expectation. */
  lemma CountryCodeTablePasses(geo: Geo)
    requires FixtureAgrees(geo)
    ensures forall i :: 0 <= i < |CountryCodeCases| ==> Passes(CountryCodeCases[i], geo)
  {
    CountryCodeRows();
    forall i | 0 <= i < |CountryCodeCases| ensures Passes(CountryCodeCases[i], geo) {
      if i == 0 { CountryCase1(geo); TableRow(CountryCodeCases, 0, CountryRow1, geo); }
      else if i == 1 { CountryCase2(geo); TableRow(CountryCodeCases, 1, CountryRow2, geo); }
      else if i == 2 { CountryCase3(geo); TableRow(CountryCodeCases, 2, CountryRow3, geo); }
      else if i == 3 { CountryCase4(geo); TableRow(CountryCodeCases, 3, CountryRow4, geo); }
      else if i == 4 { CountryCase5(geo); TableRow(CountryCodeCases, 4, CountryRow5, geo); }
      else { CountryCase6(geo); TableRow(CountryCodeCases, 5, CountryRow6, geo); }
    }
  }

  /** The rows of the range table, by position. */
  lemma RangeRows()
    ensures RangeCases[0] == RangeRow1
    ensures RangeCases[1] == RangeRow2
    ensures RangeCases[2] == RangeRow3
    ensures RangeCases[3] == RangeRow4
    ensures RangeCases[4] == RangeRow5
    ensures RangeCases[5] == RangeRow6
    ensures RangeCases[6] == RangeRow7
    ensures RangeCases[7] == RangeRow8
    ensures RangeCases[8] == RangeRow9
    ensures RangeCases[9] == RangeRow10
    ensures RangeCases[10] == RangeRow11
  {
  }

  /** Every row of the range table meets its expectation, whatever the geolocation database. */
  lemma RangeTablePasses(geo: Geo)
    ensures forall i :: 0 <= i < |RangeCases| ==> Passes(RangeCases[i], geo)
  {
    RangeRows();
    forall i | 0 <= i < |RangeCases| ensures Passes(RangeCases[i], geo) {
      if i == 0 { RangeCase1(geo); TableRow(RangeCases, 0, RangeRow1, geo); }
      else if i == 1 { RangeCase2(geo); TableRow(RangeCases, 1, RangeRow2, geo); }
      else if i == 2 { RangeCase3(geo); TableRow(RangeCases, 2, RangeRow3, geo); }
      else if i == 3 { RangeCase4(geo); TableRow(RangeCases, 3, RangeRow4, geo); }
      else if i == 4 { RangeCase5(geo); TableRow(RangeCases, 4, RangeRow5, geo); }
      else if i == 5 { RangeCase6(geo); TableRow(RangeCases, 5, RangeRow6, geo); }
      else if i == 6 { RangeCase7(geo); TableRow(RangeCases, 6, RangeRow7, geo); }
      else if i == 7 { RangeCase8(geo); TableRow(RangeCases, 7, RangeRow8, geo); }
      else if i == 8 { RangeCase9(geo); TableRow(RangeCases, 8, RangeRow9, geo); }
      else if i == 9 { RangeCase10(geo); TableRow(RangeCases, 9, RangeRow10, geo); }
      else { RangeCase11(geo); TableRow(RangeCases, 10, RangeRow11, geo); }
    }
  }

  /** The rows of the forwarded-address table, by position. */
  lemma ForwardedForRows()
    ensures ForwardedForCases[0] == FwdRow1
    ensures ForwardedForCases[1] == FwdRow2
    ensures ForwardedForCases[2] == FwdRow3
    ensures ForwardedForCases[3] == FwdRow4
    ensures ForwardedForCases[4] == FwdRow5
    ensures ForwardedForCases[5] == FwdRow6
  {
  }

  /** Every row of the forwarded-address table meets its expectation. */
  lemma ForwardedForTablePasses(geo: Geo)
    ensures forall i :: 0 <= i < |ForwardedForCases| ==> Passes(ForwardedForCases[i], geo)
  {
    ForwardedForRows();
    forall i | 0 <= i < |ForwardedForCases| ensures Passes(ForwardedForCases[i], geo) {
      if i == 0 { FwdForCase1(geo); TableRow(ForwardedForCases, 0, FwdRow1, geo); }
      else if i == 1 { FwdForCase2(geo); TableRow(ForwardedForCases, 1, FwdRow2, geo); }
      else if i == 2 { FwdForCase3(geo); TableRow(ForwardedForCases, 2, FwdRow3, geo); }
      else if i == 3 { FwdForCase4(geo); TableRow(ForwardedForCases, 3, FwdRow4, geo); }
      else if i == 4 { FwdForCase5(geo); TableRow(ForwardedForCases, 4, FwdRow5, geo); }
      else { FwdForCase6(geo); TableRow(ForwardedForCases, 5, FwdRow6, geo); }
    }
  }

  /** TestCountryCodes: the driver finds no failing row. */
  method TestCountryCodes(geo: Geo) returns (failed: Option<nat>)
    requires FixtureAgrees(geo)
    ensures failed.None?
  {
    CountryCodeTablePasses(geo);
    failed := RunTable(CountryCodeCases, geo);
  }

  /** TestRanges: the driver finds no failing row, whatever the geolocation database. */
  method TestRanges(geo: Geo) returns (failed: Option<nat>)
    ensures failed.None?
  {
    RangeTablePasses(geo);
    failed := RunTable(RangeCases, geo);
  }

  /** TestFwdForIPs: the driver finds no failing row. */
  method TestFwdForIPs(geo: Geo) returns (failed: Option<nat>)
    ensures failed.None?
  {
    ForwardedForTablePasses(geo);
    failed := RunTable(ForwardedForCases, geo);
  }
}
