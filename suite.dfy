/** The suite API client (`Api` in src/lib/suite.ts), reduced to its suite
    ticket and suite access token caches. */
module Suite {
  import opened Results
  import opened Caches

  /** Lifetime of a suite ticket, in milliseconds: twenty minutes. */
  const TICKET_EXPIRES_IN: int := 1000 * 60 * 20
  /** Default lifetime of a suite access token: two hours less ten seconds. */
  const TOKEN_EXPIRES_IN: int := 1000 * 60 * 60 * 2 - 10000

  /** `this.getTicket` was never configured, so calling it throws. */
  datatype SuiteError = NoTicketHook

  /** `conf.token_expires_in || TOKEN_EXPIRES_IN`: a missing or zero lifetime
      falls back to the default. */
  function TokenLifetime(configured: Option<int>): (t: int)
    ensures configured.Some? && configured.value != 0 ==> t == configured.value
    ensures configured.None? || configured.value == 0 ==> t == 7190000
  {
    if configured.Some? && configured.value != 0 then configured.value else TOKEN_EXPIRES_IN
  }

  class Api {
    const suiteKey: string
    const suiteSecret: string
    const ticketExpiresIn: int
    const tokenExpiresIn: int
    const hasGetTicket: bool     // conf.getTicket was supplied
    const hasGetToken: bool      // conf.getToken was supplied
    const hasSaveToken: bool     // conf.saveToken was supplied
    var ticketCache: Cache
    var tokenCache: Option<Cache>
    var tokenLoads: nat                     // calls made to this.getToken
    var ticketRequests: seq<Option<string>> // suite_ticket sent with each get_suite_token request
    var savedTokens: seq<Cache>             // arguments of the calls made to conf.saveToken

    /** Nothing ever writes the ticket cache after construction. */
    ghost predicate Valid()
      reads this
    {
      ticketCache == Cache(None, 0) && ticketExpiresIn == TICKET_EXPIRES_IN
    }

    /** `new Api(conf)`. */
    constructor (suiteid: string, secret: string, tokenExpiresIn: Option<int>,
                 hasGetTicket: bool, hasGetToken: bool, hasSaveToken: bool)
      ensures Valid()
      ensures suiteKey == suiteid && suiteSecret == secret
      ensures this.tokenExpiresIn == TokenLifetime(tokenExpiresIn)
      ensures this.hasGetTicket == hasGetTicket && this.hasGetToken == hasGetToken
      ensures this.hasSaveToken == hasSaveToken
      ensures tokenCache == None && tokenLoads == 0 && ticketRequests == [] && savedTokens == []
    {
      suiteKey := suiteid;
      suiteSecret := secret;
      ticketExpiresIn := TICKET_EXPIRES_IN;
      this.tokenExpiresIn := TokenLifetime(tokenExpiresIn);
      this.hasGetTicket := hasGetTicket;
      this.hasGetToken := hasGetToken;
      this.hasSaveToken := hasSaveToken;
      ticketCache := Cache(None, 0);
      tokenCache := None;
      tokenLoads, ticketRequests, savedTokens := 0, [], [];
    }

    /** `getLatestTicket()` at time `now`; `fromHook` is what a configured
        `getTicket` resolves to. */
    function LatestTicket(now: int, fromHook: Option<Cache>): (r: Result<Option<Cache>, SuiteError>)
      reads this
      ensures ticketCache.expires > now ==> r == Ok(Some(ticketCache))
      ensures ticketCache.expires <= now ==> (r.Err? <==> !hasGetTicket)
      ensures ticketCache.expires <= now ==> r == (if hasGetTicket then Ok(fromHook) else Err(NoTicketHook))
    {
      if ticketCache.expires <= now then
        if hasGetTicket then Ok(fromHook) else Err(NoTicketHook)
      else
        Ok(Some(ticketCache))
    }

    /** What `this.getToken()` resolves to: the configured hook's value, or
        by default the current token cache. */
    function LoadToken(stored: Option<Cache>): (r: Option<Cache>)
      reads this
      ensures !hasGetToken ==> r == tokenCache
    {
      if hasGetToken then stored else tokenCache
    }

    /** The suite ticket `_get_access_token` sends, if it gets that far:
        `None` when `getTicket` throws or resolves `null`. */
    function TicketSent(now: int, fromHook: Option<Cache>): (r: Option<Option<string>>)
      reads this
      ensures r.Some? <==> LatestTicket(now, fromHook).Ok? && LatestTicket(now, fromHook).value.Some?
      ensures r.Some? ==> r.value == LatestTicket(now, fromHook).value.value.value
    {
      var t := LatestTicket(now, fromHook);
      if t.Ok? && t.value.Some? then Some(t.value.value.value) else None
    }

    /** `this.saveToken(token)`: the configured hook records it; the default
        writes it into the token cache. */
    method SaveToken(token: Cache)
      modifies this
      ensures hasSaveToken ==> savedTokens == old(savedTokens) + [token] && tokenCache == old(tokenCache)
      ensures !hasSaveToken ==> savedTokens == old(savedTokens) && tokenCache == Some(token)
      ensures ticketCache == old(ticketCache) && tokenLoads == old(tokenLoads)
      ensures ticketRequests == old(ticketRequests)
    {
      if hasSaveToken {
        savedTokens := savedTokens + [token];
      } else {
        tokenCache := Some(token);
      }
    }

    /** The refresh shared by both branches of `getLatestToken`: request a
        token with the latest suite ticket and cache and save the reply.
        `fetched` is the `suite_access_token` the request yields (`None`: it
        is rejected). */
    method Refresh(now: int, ticket: Option<Cache>, fetched: Option<string>) returns (r: Option<Cache>)
      modifies this
      ensures var sent := old(TicketSent(now, ticket));
        && ticketRequests == old(ticketRequests) + (if sent.Some? then [sent.value] else [])
        && (sent.Some? && fetched.Some? ==>
              r == Some(Cache(fetched, now + tokenExpiresIn)) && tokenCache == r
              && savedTokens == old(savedTokens) + (if hasSaveToken then [r.value] else []))
        && (sent.None? || fetched.None? ==>
              r == None && tokenCache == old(tokenCache) && savedTokens == old(savedTokens))
      ensures ticketCache == old(ticketCache) && tokenLoads == old(tokenLoads)
    {
      var sent := TicketSent(now, ticket);
      if sent.None? {
        return None;
      }
      ticketRequests := ticketRequests + [sent.value];
      if fetched.None? {
        return None;
      }
      var entry := Cache(fetched, now + tokenExpiresIn);
      tokenCache := Some(entry);
      SaveToken(entry);
      r := tokenCache;
    }

    /** `getLatestToken()` at time `now`. `stored` is what a configured
        `getToken` resolves to, `ticket` what a configured `getTicket`
        resolves to and `fetched` the token the request yields. */
    method GetLatestToken(now: int, stored: Option<Cache>, ticket: Option<Cache>, fetched: Option<string>)
      returns (r: Option<Cache>)
      modifies this
      decreases if tokenCache.None? then 1 else 0
      ensures var start := if old(tokenCache).Some? then old(tokenCache) else old(LoadToken(stored));
        var sent := old(TicketSent(now, ticket));
        && tokenLoads == old(tokenLoads) + (if old(tokenCache).None? then 1 else 0)
        && (start.Some? && start.value.expires > now ==>
              r == start && tokenCache == start
              && ticketRequests == old(ticketRequests) && savedTokens == old(savedTokens))
        && (start.None? || start.value.expires <= now ==>
              && ticketRequests == old(ticketRequests) + (if sent.Some? then [sent.value] else [])
              && (sent.Some? && fetched.Some? ==>
                    r == Some(Cache(fetched, now + tokenExpiresIn)) && tokenCache == r
                    && savedTokens == old(savedTokens) + (if hasSaveToken then [r.value] else []))
              && (sent.None? || fetched.None? ==>
                    r == None && tokenCache == start && savedTokens == old(savedTokens)))
      ensures ticketCache == old(ticketCache)
      ensures r.Some? ==> tokenCache == r
    {
      if tokenCache.None? {
        tokenLoads := tokenLoads + 1;
        var token := LoadToken(stored);
        if token.None? {
          r := Refresh(now, ticket, fetched);
          return;
        }
        tokenCache := token;
        r := GetLatestToken(now, stored, ticket, fetched);
      } else if tokenCache.value.expires <= now {
        r := Refresh(now, ticket, fetched);
      } else {
        r := tokenCache;
      }
    }
  }

  /** With the ticket cache never written, `getLatestTicket` at any time
      since the epoch always asks the configured `getTicket`. */
  lemma TicketAlwaysDelegates(api: Api, now: int, fromHook: Option<Cache>)
    requires api.Valid() && now >= 0
    ensures api.LatestTicket(now, fromHook) == (if api.hasGetTicket then Ok(fromHook) else Err(NoTicketHook))
  {
  }
}
