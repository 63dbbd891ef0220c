/** The enterprise API client (`Api` in src/lib/enterprise.ts), reduced to
    its jsapi-ticket cache and the URL signature built from it. */
module Enterprise {
  import opened Results
  import opened Strings
  import opened Caches

  /** The fields of a `get_jsapi_ticket` reply the cache uses; a `ticket` of
      `None` is a JSON `null`. */
  datatype TicketReply = TicketReply(ticket: Option<string>, expiresIn: int)

  /** What `getUrlSign` returns. */
  datatype UrlSign = UrlSign(signature: string, timeStamp: string, nonceStr: string)

  /** A plain JavaScript object: its keys in insertion order and the string
      form of each value. */
  datatype JsObject = JsObject(keys: seq<string>, values: map<string, string>) {
    predicate Valid() {
      && (forall i, j :: 0 <= i < j < |keys| ==> keys[i] != keys[j])
      && values.Keys == set k | k in keys
    }
  }

  /** `'' + args[k]`: an absent key reads as `undefined`. */
  function Field(values: map<string, string>, k: string): string {
    if k in values then values[k] else "undefined"
  }

  /** `ks.map(k => k + '=' + args[k]).join('&')`. */
  function JoinPairs(values: map<string, string>, ks: seq<string>): string {
    if ks == [] then ""
    else if |ks| == 1 then ks[0] + "=" + Field(values, ks[0])
    else ks[0] + "=" + Field(values, ks[0]) + "&" + JoinPairs(values, ks[1..])
  }

  /** `raw(args)`: `k=v` for each key in sorted order, joined by '&'. */
  function Raw(args: JsObject): (r: string)
    ensures args.keys == [] ==> r == ""
    ensures |args.keys| == 1 ==> r == args.keys[0] + "=" + Field(args.values, args.keys[0])
  {
    assert |args.keys| == 1 ==> args.keys[1..] == [];
    JoinPairs(args.values, Sort(args.keys))
  }

  /** `sign(ret)`: SHA-1 (lowercase hex) of `raw(ret)`. */
  function Sign(sha1Hex: string -> string, ret: JsObject): (s: string)
    ensures ret.keys == [] ==> s == sha1Hex("")
    ensures |ret.keys| == 1 ==> s == sha1Hex(ret.keys[0] + "=" + Field(ret.values, ret.keys[0]))
  {
    sha1Hex(Raw(ret))
  }

  function Show(v: Option<string>): string {
    if v.Some? then v.value else "null"
  }

  /** The string `getUrlSign` hashes, written out piece by piece. */
  function UrlSignString(nonce: string, ticket: Option<string>, timestamp: nat, url: string): string {
    "jsapi_ticket" + "=" + Show(ticket) + "&" + ("noncestr" + "=" + nonce + "&"
    + ("timestamp" + "=" + Decimal(timestamp) + "&" + ("url" + "=" + url)))
  }

  /** The object `getUrlSign` signs, keys in the order the source writes them. */
  function UrlSignFields(nonce: string, ticket: Option<string>, timestamp: nat, url: string): (o: JsObject)
    ensures o.Valid() && |o.keys| == 4
    ensures Field(o.values, "jsapi_ticket") == Show(ticket) && Field(o.values, "noncestr") == nonce
    ensures Field(o.values, "timestamp") == Decimal(timestamp) && Field(o.values, "url") == url
  {
    assert "jsapi_ticket"[0] != "noncestr"[0] && "jsapi_ticket"[0] != "timestamp"[0] && "jsapi_ticket"[0] != "url"[0];
    assert "noncestr"[0] != "timestamp"[0] && "noncestr"[0] != "url"[0] && "timestamp"[0] != "url"[0];
    JsObject(["noncestr", "jsapi_ticket", "timestamp", "url"],
             map["noncestr" := nonce, "jsapi_ticket" := Show(ticket),
                 "timestamp" := Decimal(timestamp), "url" := url])
  }

  lemma {:induction false} DistinctCount(s: seq<string>, x: string)
    requires forall i, j :: 0 <= i < j < |s| ==> s[i] != s[j]
    ensures multiset(s)[x] == if x in s then 1 else 0
  {
    if s != [] {
      DistinctCount(s[1..], x);
      assert s == [s[0]] + s[1..];
      assert s[0] !in s[1..];
    }
  }

  /** `raw` depends only on the keys and values, not on insertion order. */
  lemma RawOrderIndependent(a: JsObject, b: JsObject)
    requires a.Valid() && b.Valid() && a.values == b.values
    ensures Raw(a) == Raw(b)
  {
    forall x ensures multiset(a.keys)[x] == multiset(b.keys)[x] {
      DistinctCount(a.keys, x);
      DistinctCount(b.keys, x);
      assert x in a.keys <==> x in a.values.Keys;
      assert x in b.keys <==> x in b.values.Keys;
    }
    assert multiset(a.keys) == multiset(b.keys);
    SortPermutationInvariant(a.keys, b.keys);
  }

  /** The keys `getUrlSign` writes, in the order `sort()` puts them. */
  lemma UrlSignKeysSorted()
    ensures Sort(["noncestr", "jsapi_ticket", "timestamp", "url"])
         == ["jsapi_ticket", "noncestr", "timestamp", "url"]
  {
    var written := ["noncestr", "jsapi_ticket", "timestamp", "url"];
    var ordered := ["jsapi_ticket", "noncestr", "timestamp", "url"];
    assert Sorted(ordered) by {
      assert Below(ordered[0], ordered[1]) && Below(ordered[0], ordered[2]) && Below(ordered[0], ordered[3]);
      assert Below(ordered[1], ordered[2]) && Below(ordered[1], ordered[3]) && Below(ordered[2], ordered[3]);
    }
    assert multiset(ordered) == multiset(written);
    SortSorted(written);
    SortedUnique(Sort(written), ordered);
  }

  lemma JoinPairsFour(v: map<string, string>, k0: string, k1: string, k2: string, k3: string)
    ensures JoinPairs(v, [k0, k1, k2, k3])
         == k0 + "=" + Field(v, k0) + "&" + (k1 + "=" + Field(v, k1) + "&"
            + (k2 + "=" + Field(v, k2) + "&" + (k3 + "=" + Field(v, k3))))
  {
    assert [k0, k1, k2, k3][1..] == [k1, k2, k3] && [k1, k2, k3][1..] == [k2, k3] && [k2, k3][1..] == [k3];
    assert JoinPairs(v, [k2, k3]) == k2 + "=" + Field(v, k2) + "&" + (k3 + "=" + Field(v, k3));
  }

  /** `getUrlSign` signs exactly
      'jsapi_ticket=T&noncestr=N&timestamp=S&url=U'. */
  lemma UrlSignText(nonce: string, ticket: Option<string>, timestamp: nat, url: string)
    ensures Raw(UrlSignFields(nonce, ticket, timestamp, url)) == UrlSignString(nonce, ticket, timestamp, url)
  {
    var fields := UrlSignFields(nonce, ticket, timestamp, url);
    UrlSignKeysSorted();
    assert Raw(fields) == JoinPairs(fields.values, ["jsapi_ticket", "noncestr", "timestamp", "url"]);
    JoinPairsFour(fields.values, "jsapi_ticket", "noncestr", "timestamp", "url");
  }

  /** `data || {value: null, expires: 0}` after loading the stored ticket. */
  function LoadedOrEmpty(stored: Option<Cache>): (c: Cache)
    ensures stored.Some? ==> c == stored.value
    ensures stored.None? ==> c.value == None && c.expires == 0
  {
    if stored.Some? then stored.value else Cache(None, 0)
  }

  /** The entry a fetched reply becomes at time `now`. */
  function Refreshed(reply: TicketReply, now: int): (c: Cache)
    ensures c.value == reply.ticket
    ensures reply.expiresIn > 0 ==> c.expires > now
  {
    Cache(reply.ticket, now + reply.expiresIn * 1000)
  }

  class Api {
    const corpid: string
    const secret: string
    const hasGetJsApiTicket: bool    // conf.getJsApiTicket was supplied
    var jsapiTicketCache: Option<Cache>
    var loads: nat                    // calls made to getJsApiTicket
    var fetches: nat                  // calls made to _get_jsApi_ticket
    var savedReplies: seq<TicketReply>  // arguments of the calls made to saveJsApiTicket

    /** `new Api(conf)`: an empty cache; a missing `getJsApiTicket` or
        `saveJsApiTicket` becomes a function resolving `null`. */
    constructor (corpid: string, secret: string, hasGetJsApiTicket: bool)
      ensures this.corpid == corpid && this.secret == secret
      ensures this.hasGetJsApiTicket == hasGetJsApiTicket
      ensures jsapiTicketCache == None && loads == 0 && fetches == 0 && savedReplies == []
    {
      this.corpid := corpid;
      this.secret := secret;
      this.hasGetJsApiTicket := hasGetJsApiTicket;
      jsapiTicketCache := None;
      loads, fetches, savedReplies := 0, 0, [];
    }

    /** What `this.getJsApiTicket()` resolves to, given what the configured
        hook would give. */
    function LoadJsApiTicket(stored: Option<Cache>): (r: Option<Cache>)
      ensures !hasGetJsApiTicket ==> r == None
    {
      if hasGetJsApiTicket then stored else None
    }

    /** The entry `getLatestJsApiTicket` checks against the clock: the cache,
        or what loading fills an empty cache with. */
    function StartEntry(stored: Option<Cache>): (c: Cache)
      reads this
      ensures jsapiTicketCache.Some? ==> c == jsapiTicketCache.value
      ensures jsapiTicketCache.None? && (!hasGetJsApiTicket || stored.None?) ==> c == Cache(None, 0)
      ensures jsapiTicketCache.None? && hasGetJsApiTicket && stored.Some? ==> c == stored.value
    {
      if jsapiTicketCache.Some? then jsapiTicketCache.value else LoadedOrEmpty(LoadJsApiTicket(stored))
    }

    /** `getLatestJsApiTicket()` at time `now`. `stored` is what a configured
        `getJsApiTicket` resolves to and `fetched` what `_get_jsApi_ticket`
        resolves to (`None`: it rejects, and so does this call, with `r == None`). */
    method GetLatestJsApiTicket(now: int, stored: Option<Cache>, fetched: Option<TicketReply>)
      returns (r: Option<Cache>)
      modifies this
      decreases if jsapiTicketCache.None? then 1 else 0
      ensures var start := old(StartEntry(stored));
        && loads == old(loads) + (if old(jsapiTicketCache).None? then 1 else 0)
        && (start.expires > now ==>
              r == Some(start) && jsapiTicketCache == r
              && fetches == old(fetches) && savedReplies == old(savedReplies))
        && (start.expires <= now && fetched.Some? ==>
              r == Some(Refreshed(fetched.value, now)) && jsapiTicketCache == r
              && fetches == old(fetches) + 1 && savedReplies == old(savedReplies) + [fetched.value])
        && (start.expires <= now && fetched.None? ==>
              r == None && jsapiTicketCache == Some(start)
              && fetches == old(fetches) + 1 && savedReplies == old(savedReplies))
      ensures r.Some? ==> jsapiTicketCache == r
    {
      if jsapiTicketCache.None? {
        loads := loads + 1;
        var data := LoadJsApiTicket(stored);
        jsapiTicketCache := Some(LoadedOrEmpty(data));
        r := GetLatestJsApiTicket(now, stored, fetched);
      } else {
        if jsapiTicketCache.value.expires <= now {
          fetches := fetches + 1;
          if fetched.None? {
            return None;
          }
          jsapiTicketCache := Some(Refreshed(fetched.value, now));
          savedReplies := savedReplies + [fetched.value];
        }
        r := jsapiTicketCache;
      }
    }

    /** `getUrlSign(url)`. `nonce` stands for `createNonceStr()` and
        `timestamp` for the second `Date.now()`. */
    method GetUrlSign(url: string, now: int, stored: Option<Cache>, fetched: Option<TicketReply>,
                      nonce: string, timestamp: nat, sha1Hex: string -> string)
      returns (r: Option<UrlSign>)
      modifies this
      ensures var start := old(StartEntry(stored));
        var ticket := if start.expires > now || fetched.None? then start else Refreshed(fetched.value, now);
        && loads == old(loads) + (if old(jsapiTicketCache).None? then 1 else 0)
        && (r.None? <==> start.expires <= now && fetched.None?)
        && (start.expires > now ==>
              jsapiTicketCache == Some(start) && fetches == old(fetches) && savedReplies == old(savedReplies))
        && (start.expires <= now && fetched.Some? ==>
              jsapiTicketCache == Some(Refreshed(fetched.value, now))
              && fetches == old(fetches) + 1 && savedReplies == old(savedReplies) + [fetched.value])
        && (start.expires <= now && fetched.None? ==>
              jsapiTicketCache == Some(start) && fetches == old(fetches) + 1 && savedReplies == old(savedReplies))
        && (r.Some? ==>
              && jsapiTicketCache == Some(ticket)
              && r.value.signature == sha1Hex(UrlSignString(nonce, ticket.value, timestamp, url))
              && r.value.timeStamp == Decimal(timestamp)
              && r.value.nonceStr == nonce)
    {
      var data := GetLatestJsApiTicket(now, stored, fetched);
      if data.None? {
        return None;
      }
      var result := UrlSignFields(nonce, data.value.value, timestamp, url);
      var signature := Sign(sha1Hex, result);
      UrlSignText(nonce, data.value.value, timestamp, url);
      r := Some(UrlSign(signature, Decimal(timestamp), nonce));
    }
  }
}
