/** The admission decision of `IPFilter.ServeHTTP`: the path-scope gate, range
    and country classification of the client address, the Allow/Block rule,
    and the response the middleware returns. */
module Filter {
  import opened Wrappers
  import opened Ipv4
  import opened Address

  datatype Rule = Allow | Block

  /** An inclusive interval of addresses; a single address is `Range(x, x)`. */
  datatype Range = Range(low: Ip, high: Ip)

  /** The one classification source a filter uses: country codes resolved
      through geolocation, or explicit address ranges. */
  datatype Source = Countries(codes: seq<string>) | Ranges(ranges: seq<Range>)

  /** `IPFConfig`: the configured path scopes, the block page's content if a
      block page is configured, the rule, and the classification source. */
  datatype Config = Config(pathScopes: seq<string>, blockPage: Option<string>, rule: Rule, source: Source)

  /** The geolocation lookup: the ISO country code of an address, None when the
      database has no entry for it. */
  type Geo = Ip -> Option<string>

  datatype Verdict = Continue | Deny

  datatype Response = Response(status: int, body: string)

  const StatusOK := 200
  const StatusForbidden := 403

  /** The request is in scope when some configured scope is a prefix of its path. */
  function InScope(path: string, scopes: seq<string>): (r: bool)
    ensures r <==> exists i :: 0 <= i < |scopes| && scopes[i] <= path
    decreases |scopes|
  {
    if scopes == [] then false
    else scopes[0] <= path || (assert forall i :: 1 <= i < |scopes| ==> scopes[i] == scopes[1..][i - 1];
                                InScope(path, scopes[1..]))
  }

  /** The address lies inside the range, bounds included, by byte-wise comparison. */
  predicate Contains(r: Range, ip: Ip) {
    Compare(r.low, ip) <= 0 && Compare(ip, r.high) <= 0
  }

  /** Whether any range of the list contains the address. */
  function AnyRangeContains(ranges: seq<Range>, ip: Ip): (r: bool)
    ensures r <==> exists i :: 0 <= i < |ranges| && Contains(ranges[i], ip)
    decreases |ranges|
  {
    if ranges == [] then false
    else Contains(ranges[0], ip) || (assert forall i :: 1 <= i < |ranges| ==> ranges[i] == ranges[1..][i - 1];
                                     AnyRangeContains(ranges[1..], ip))
  }

  /** Whether the client address matches the configured criteria. */
  function Matches(source: Source, geo: Geo, ip: Ip): bool {
    match source
    case Countries(codes) => geo(ip).Some? && geo(ip).value in codes
    case Ranges(ranges) => AnyRangeContains(ranges, ip)
  }

  /** The rule's truth table: Allow lets matching clients through, Block
      lets everyone else through. */
  function Admits(rule: Rule, matched: bool): bool {
    match rule
    case Allow => matched
    case Block => !matched
  }

  /** The decision for a request on `path` whose client address resolved to
      `ip` (None when it could not be resolved, which matches nothing). */
  function DecideFor(cfg: Config, geo: Geo, path: string, ip: Option<Ip>): Verdict {
    if !InScope(path, cfg.pathScopes) then Continue
    else
      var matched := match ip
        case None => false
        case Some(a) => Matches(cfg.source, geo, a);
      if Admits(cfg.rule, matched) then Continue else Deny
  }

  /** The decision for one request. */
  function Decide(cfg: Config, geo: Geo, req: Request): Verdict {
    DecideFor(cfg, geo, req.path, ClientIP(req))
  }

  /** The response for a verdict: the next handler's response on Continue;
      on Deny, the block page with status 200 when one is configured and
      otherwise status 403 with an empty body. */
  function Respond(cfg: Config, next: Response, v: Verdict): Response {
    match v
    case Continue => next
    case Deny =>
      match cfg.blockPage
      case Some(page) => Response(StatusOK, page)
      case None => Response(StatusForbidden, "")
  }

  /** What the middleware returns for a request. */
  function ServeHTTP(cfg: Config, geo: Geo, next: Response, req: Request): (r: Response)
    ensures !InScope(req.path, cfg.pathScopes) ==> r == next
    ensures Decide(cfg, geo, req) == Continue ==> r == next
    ensures Decide(cfg, geo, req) == Deny && cfg.blockPage.Some? ==> r == Response(StatusOK, cfg.blockPage.value)
    ensures Decide(cfg, geo, req) == Deny && cfg.blockPage.None? ==> r == Response(StatusForbidden, "")
  {
    Respond(cfg, next, Decide(cfg, geo, req))
  }

  // ---- Properties ----

  /** Out-of-scope requests pass through whatever the rule, source, geolocation and addresses. */
  lemma OutOfScopePassesThrough(cfg: Config, geo: Geo, next: Response, req: Request)
    requires forall i :: 0 <= i < |cfg.pathScopes| ==> !(cfg.pathScopes[i] <= req.path)
    ensures Decide(cfg, geo, req) == Continue
    ensures ServeHTTP(cfg, geo, next, req) == next
  {
  }

  /** Range containment is numeric comparison of the 32-bit values, bounds included. */
  lemma ContainsIsNumeric(r: Range, ip: Ip)
    ensures Contains(r, ip) <==> Value(r.low) <= Value(ip) <= Value(r.high)
  {
    CompareIsNumeric(r.low, ip);
    CompareIsNumeric(ip, r.high);
  }

  /** A single-address range contains that address and nothing else. */
  lemma SingleAddressRange(x: Ip, ip: Ip)
    ensures Contains(Range(x, x), ip) <==> ip == x
  {
    CompareIsNumeric(x, ip);
    CompareIsNumeric(ip, x);
  }

  /** Allow and Block are exact opposites for every in-scope request. */
  lemma AllowBlockDuality(cfg: Config, geo: Geo, req: Request)
    requires InScope(req.path, cfg.pathScopes)
    ensures Decide(cfg.(rule := Allow), geo, req) == Continue
        <==> Decide(cfg.(rule := Block), geo, req) == Deny
  {
  }

  /** A forwarded header makes the peer address irrelevant to the outcome. */
  lemma ForwardedHeaderPrecedence(cfg: Config, geo: Geo, next: Response, req: Request, otherPeer: string)
    requires req.fwdFor != ""
    ensures ServeHTTP(cfg, geo, next, req) == ServeHTTP(cfg, geo, next, req.(remoteAddr := otherPeer))
  {
    ForwardedOverridesPeer(req, otherPeer);
  }

  /** An in-scope request whose address cannot be resolved is unmatched:
      Allow denies it and Block lets it through. */
  lemma UnresolvedIsUnmatched(cfg: Config, geo: Geo, req: Request)
    requires InScope(req.path, cfg.pathScopes) && ClientIP(req).None?
    ensures Decide(cfg, geo, req) == if cfg.rule == Allow then Deny else Continue
  {
  }

  /** In country mode, an in-scope client resolved to country `c` is admitted
      exactly when membership of `c` in the codes agrees with the rule; a
      lookup miss counts as a country outside the set. */
  lemma CountryVerdict(cfg: Config, geo: Geo, req: Request, ip: Ip)
    requires cfg.source.Countries? && InScope(req.path, cfg.pathScopes) && ClientIP(req) == Some(ip)
    ensures geo(ip).None? ==> Decide(cfg, geo, req) == (if cfg.rule == Allow then Deny else Continue)
    ensures geo(ip).Some? && cfg.rule == Allow ==>
      (Decide(cfg, geo, req) == Continue <==> geo(ip).value in cfg.source.codes)
    ensures geo(ip).Some? && cfg.rule == Block ==>
      (Decide(cfg, geo, req) == Deny <==> geo(ip).value in cfg.source.codes)
  {
  }

  /** In range mode, an in-scope client at `ip` is denied under Block exactly
      when some range contains it, and under Allow exactly when none does. */
  lemma RangeVerdict(cfg: Config, geo: Geo, req: Request, ip: Ip)
    requires cfg.source.Ranges? && InScope(req.path, cfg.pathScopes) && ClientIP(req) == Some(ip)
    ensures cfg.rule == Block ==>
      (Decide(cfg, geo, req) == Deny <==> exists i :: 0 <= i < |cfg.source.ranges| && Contains(cfg.source.ranges[i], ip))
    ensures cfg.rule == Allow ==>
      (Decide(cfg, geo, req) == Deny <==> forall i :: 0 <= i < |cfg.source.ranges| ==> !Contains(cfg.source.ranges[i], ip))
  {
  }
}
