/** `CallBack(config, callback)`: the webhook dispatcher. A request is checked
    against its signature, decrypted and parsed, then either answers a URL
    challenge, stores a suite ticket and acknowledges it, or is handed to the
    application's handler together with a `reply` capability. */
module SuiteCallback {
  import opened Results
  import opened Buffers
  import opened Strings
  import opened Primitives
  import opened Crypto

  const DEFAULT_SUITE_ID: string := "suite4xxxxxxxxxxxxxxx"
  const DEFAULT_TICKET_EXPIRES_IN: int := 1000 * 60 * 20
  const INVALID_SIGNATURE: string := "Invalid signature"
  const UNAUTHORIZED: int := 401
  const SUCCESS: string := "success"

  /** Recognised options; `ticketExpiresIn` is `None` when unset and
      `suiteid` is "" when unset. */
  datatype Config = Config(
    token: string,
    encodingAESKey: string,
    suiteid: string,
    ticketExpiresIn: Option<int>,
    hasSaveTicket: bool)

  /** The parsed callback message; fields that JSON may omit are optional. */
  datatype Message = Message(
    eventType: Option<string>,
    random: Option<string>,
    suiteTicket: Option<string>,
    timeStamp: Option<string>)

  /** Query parameters `signature`, `timestamp`, `nonce` and body field `encrypt`. */
  datatype Request = Request(signature: string, timestamp: string, nonce: string, encrypt: string)

  datatype Response = Response(msgSignature: string, encrypt: string, timeStamp: string, nonce: string)

  /** The entry handed to `saveTicket`; `expires` is `None` where JavaScript
      computes `NaN`. */
  datatype TicketEntry = TicketEntry(value: Option<string>, expires: Option<int>)

  /** What a request that is not rejected can throw. */
  datatype Failure =
    | CryptFailure(error: CryptError)  // decrypt or encrypt threw
    | SyntaxError                       // JSON.parse threw
    | MissingText                       // Buffer.from(undefined): a challenge without `Random`

  /** What the dispatcher decides for one request. */
  datatype Decision =
    | Reject                                                     // 401 'Invalid signature'
    | Fatal(failure: Failure)                                    // an exception escapes
    | Challenge(response: Response)                              // echo `Random`
    | SaveTicket(entry: TicketEntry, ack: Result<Response, Failure>)  // save, then reply 'success'
    | Delegate(message: Message)                                 // the user callback runs

  predicate IsChallenge(eventType: Option<string>) {
    eventType == Some("check_update_suite_url") || eventType == Some("check_create_suite_url")
  }

  /** `genResponse(timestamp, nonce, text)`. */
  function GenResponse(crypt: Crypt, timestamp: string, nonce: string, text: string, random: seq<byte>)
    : (r: Result<Response, Failure>)
    requires |random| == 16
    ensures r.Ok? <==> crypt.Encrypt(text, random).Ok?
    ensures r.Ok? ==> r.value.timeStamp == timestamp && r.value.nonce == nonce
    ensures r.Ok? ==> r.value.encrypt == crypt.Encrypt(text, random).value
    ensures r.Ok? ==> r.value.msgSignature == crypt.GetSignature([timestamp, nonce, r.value.encrypt])
  {
    var encrypt := crypt.Encrypt(text, random);
    if encrypt.Err? then Err(CryptFailure(encrypt.error))
    else
      var msgSignature := crypt.GetSignature([timestamp, nonce, encrypt.value]);
      Ok(Response(msgSignature, encrypt.value, timestamp, nonce))
  }

  /** `{value: SuiteTicket, expires: parseInt(TimeStamp, 10) + ticketExpiresIn}`. */
  function TicketEntryOf(message: Message, ticketExpiresIn: int): (e: TicketEntry)
    ensures e.value == message.suiteTicket
    ensures e.expires.Some? <==> message.timeStamp.Some? && ParseInt(message.timeStamp.value).Some?
    ensures e.expires.Some? ==> e.expires.value - ticketExpiresIn == ParseInt(message.timeStamp.value).value
  {
    var parsed := if message.timeStamp.Some? then ParseInt(message.timeStamp.value) else None;
    TicketEntry(message.suiteTicket, if parsed.Some? then Some(parsed.value + ticketExpiresIn) else None)
  }

  /** What `CallBack` captures: the crypt instance, the effective ticket
      lifetime, whether `saveTicket` is configured, and `JSON.parse`. */
  datatype Handler = Handler(
    crypt: Crypt,
    ticketExpiresIn: int,
    hasSaveTicket: bool,
    parseJson: string -> Option<Message>)
  {
    /** The decision `koa2` and `express` share. */
    function Decide(req: Request, random: seq<byte>): (d: Decision)
      requires |random| == 16
      ensures d.Reject? <==> req.signature != crypt.GetSignature([req.timestamp, req.nonce, req.encrypt])
      ensures d.Challenge? ==> crypt.Decrypt(req.encrypt).Ok?
      ensures d.Challenge? ==>
        var message := parseJson(crypt.Decrypt(req.encrypt).value.message);
        message.Some? && IsChallenge(message.value.eventType) && message.value.random.Some?
        && Ok(d.response) == GenResponse(crypt, req.timestamp, req.nonce, message.value.random.value, random)
      ensures d.SaveTicket? ==> hasSaveTicket && crypt.Decrypt(req.encrypt).Ok?
      ensures d.SaveTicket? ==>
        var message := parseJson(crypt.Decrypt(req.encrypt).value.message);
        message.Some? && message.value.eventType == Some("suite_ticket")
        && d.entry == TicketEntryOf(message.value, ticketExpiresIn)
        && d.ack == GenResponse(crypt, req.timestamp, req.nonce, SUCCESS, random)
      ensures d.Delegate? ==>
        && crypt.Decrypt(req.encrypt).Ok?
        && parseJson(crypt.Decrypt(req.encrypt).value.message) == Some(d.message)
        && !IsChallenge(d.message.eventType)
        && !(hasSaveTicket && d.message.eventType == Some("suite_ticket"))
    {
      if req.signature != crypt.GetSignature([req.timestamp, req.nonce, req.encrypt]) then Reject
      else
        match crypt.Decrypt(req.encrypt)
        case Err(e) => Fatal(CryptFailure(e))
        case Ok(result) =>
          match parseJson(result.message)
          case None => Fatal(SyntaxError)
          case Some(message) =>
            if IsChallenge(message.eventType) then
              if message.random.None? then Fatal(MissingText)
              else
                match GenResponse(crypt, req.timestamp, req.nonce, message.random.value, random)
                case Err(f) => Fatal(f)
                case Ok(response) => Challenge(response)
            else if hasSaveTicket && message.eventType == Some("suite_ticket") then
              SaveTicket(TicketEntryOf(message, ticketExpiresIn),
                         GenResponse(crypt, req.timestamp, req.nonce, SUCCESS, random))
            else
              Delegate(message)
    }
  }

  /** The set-up part of `CallBack(config, callback)`: the app id falls back
      to 'suite4xxxxxxxxxxxxxxx' and the ticket lifetime to 20 minutes. */
  function NewHandler(config: Config, p: Primitives, parseJson: string -> Option<Message>)
    : (r: Result<Handler, CryptError>)
    ensures r.Ok? <==> NewCrypt(p, config.token, config.encodingAESKey, DEFAULT_SUITE_ID).Ok?
    ensures r.Ok? ==> r.value.crypt.Valid() && r.value.crypt.token == config.token
    ensures r.Ok? ==> r.value.crypt.id == if config.suiteid == "" then DEFAULT_SUITE_ID else config.suiteid
    ensures r.Ok? && (config.ticketExpiresIn == None || config.ticketExpiresIn == Some(0))
            ==> r.value.ticketExpiresIn == DEFAULT_TICKET_EXPIRES_IN
    ensures r.Ok? && config.ticketExpiresIn.Some? && config.ticketExpiresIn.value != 0
            ==> r.value.ticketExpiresIn == config.ticketExpiresIn.value
    ensures r.Ok? ==> r.value.hasSaveTicket == config.hasSaveTicket
    ensures r.Ok? ==> r.value.parseJson == parseJson
    ensures r.Ok? ==>
      r.value.crypt == NewCrypt(p, config.token, config.encodingAESKey,
                                if config.suiteid == "" then DEFAULT_SUITE_ID else config.suiteid).value
  {
    var id := if config.suiteid != "" then config.suiteid else DEFAULT_SUITE_ID;
    var crypt :- NewCrypt(p, config.token, config.encodingAESKey, id);
    var ticketExpiresIn :=
      if config.ticketExpiresIn.Some? && config.ticketExpiresIn.value != 0 then config.ticketExpiresIn.value
      else DEFAULT_TICKET_EXPIRES_IN;
    Ok(Handler(crypt, ticketExpiresIn, config.hasSaveTicket, parseJson))
  }

  // ---------------------------------------------------------------------------
  // The two host bindings

  /** What a host response ends up carrying. */
  datatype Body = NoBody | Text(text: string) | Json(response: Response)

  /** The `reply` function attached to the context: it closes over the crypt
      instance and the request's timestamp and nonce. */
  datatype Replier = Replier(crypt: Crypt, timestamp: string, nonce: string)

  /** A Koa context, reduced to the fields `koa2` assigns. */
  class KoaContext {
    var status: int
    var body: Body
    var reply: Option<Replier>

    constructor (status: int)
      ensures this.status == status && body == NoBody && reply == None
    {
      this.status := status;
      body := NoBody;
      reply := None;
    }

    /** `ctx.reply()`: the body becomes the signed, encrypted 'success'. */
    method Reply(random: seq<byte>) returns (thrown: Option<Failure>)
      requires reply.Some? && |random| == 16
      modifies this
      ensures status == old(status) && reply == old(reply)
      ensures var ack := GenResponse(reply.value.crypt, reply.value.timestamp, reply.value.nonce, SUCCESS, random);
        if ack.Ok? then body == Json(ack.value) && thrown == None
        else body == old(body) && thrown == Some(ack.error)
    {
      var ack := GenResponse(reply.value.crypt, reply.value.timestamp, reply.value.nonce, SUCCESS, random);
      if ack.Err? {
        return Some(ack.error);
      }
      body := Json(ack.value);
      thrown := None;
    }
  }

  /** An Express response, reduced to the calls `express` makes on it. */
  class ExpressResponse {
    var statusCode: int
    var sent: Body
    var reply: Option<Replier>

    constructor (statusCode: int)
      ensures this.statusCode == statusCode && sent == NoBody && reply == None
    {
      this.statusCode := statusCode;
      sent := NoBody;
      reply := None;
    }

    /** `res.reply()`: sends the signed, encrypted 'success' with `res.json`. */
    method Reply(random: seq<byte>) returns (thrown: Option<Failure>)
      requires reply.Some? && |random| == 16
      modifies this
      ensures statusCode == old(statusCode) && reply == old(reply)
      ensures var ack := GenResponse(reply.value.crypt, reply.value.timestamp, reply.value.nonce, SUCCESS, random);
        if ack.Ok? then sent == Json(ack.value) && thrown == None
        else sent == old(sent) && thrown == Some(ack.error)
    {
      var ack := GenResponse(reply.value.crypt, reply.value.timestamp, reply.value.nonce, SUCCESS, random);
      if ack.Err? {
        return Some(ack.error);
      }
      sent := Json(ack.value);
      thrown := None;
    }
  }

  /** The object `CallBack` returns. Besides the captured handler it records
      the calls it makes to its collaborators: every entry passed to
      `config.saveTicket` and every message passed to the user callback. */
  class Callback {
    const handler: Handler
    var savedTickets: seq<TicketEntry>
    var handlerCalls: seq<Message>

    constructor (handler: Handler)
      ensures this.handler == handler && savedTickets == [] && handlerCalls == []
    {
      this.handler := handler;
      savedTickets := [];
      handlerCalls := [];
    }

    /** `koa2(ctx, next)`. `thrown` is the exception the returned promise
        rejects with, if any. */
    method Koa2(ctx: KoaContext, req: Request, random: seq<byte>) returns (thrown: Option<Failure>)
      requires |random| == 16
      modifies this, ctx
      ensures var d := handler.Decide(req, random);
        && (d.Reject? ==> ctx.status == UNAUTHORIZED && ctx.body == Text(INVALID_SIGNATURE)
                          && ctx.reply == old(ctx.reply) && thrown == None)
        && (d.Fatal? ==> thrown == Some(d.failure) && ctx.status == old(ctx.status)
                         && ctx.body == old(ctx.body) && ctx.reply == old(ctx.reply))
        && (d.Challenge? ==> ctx.body == Json(d.response) && thrown == None
                             && ctx.status == old(ctx.status) && ctx.reply == old(ctx.reply))
        && (d.SaveTicket? ==> ctx.reply == Some(Replier(handler.crypt, req.timestamp, req.nonce))
                              && ctx.status == old(ctx.status)
                              && (if d.ack.Ok? then ctx.body == Json(d.ack.value) && thrown == None
                                  else ctx.body == old(ctx.body) && thrown == Some(d.ack.error)))
        && (d.Delegate? ==> ctx.reply == Some(Replier(handler.crypt, req.timestamp, req.nonce))
                            && ctx.status == old(ctx.status) && ctx.body == old(ctx.body) && thrown == None)
      ensures var d := handler.Decide(req, random);
        && savedTickets == old(savedTickets) + (if d.SaveTicket? then [d.entry] else [])
        && handlerCalls == old(handlerCalls) + (if d.Delegate? then [d.message] else [])
    {
      ghost var d := handler.Decide(req, random);
      var crypt := handler.crypt;
      if req.signature != crypt.GetSignature([req.timestamp, req.nonce, req.encrypt]) {
        ctx.status := UNAUTHORIZED;
        ctx.body := Text(INVALID_SIGNATURE);
        return None;
      }
      var result := crypt.Decrypt(req.encrypt);
      if result.Err? {
        return Some(CryptFailure(result.error));
      }
      var parsed := handler.parseJson(result.value.message);
      if parsed.None? {
        return Some(SyntaxError);
      }
      var message := parsed.value;
      if IsChallenge(message.eventType) {
        if message.random.None? {
          return Some(MissingText);
        }
        var response := GenResponse(crypt, req.timestamp, req.nonce, message.random.value, random);
        if response.Err? {
          return Some(response.error);
        }
        ctx.body := Json(response.value);
        thrown := None;
      } else {
        ctx.reply := Some(Replier(crypt, req.timestamp, req.nonce));
        if handler.hasSaveTicket && message.eventType == Some("suite_ticket") {
          savedTickets := savedTickets + [TicketEntryOf(message, handler.ticketExpiresIn)];
          thrown := ctx.Reply(random);
        } else {
          handlerCalls := handlerCalls + [message];
          thrown := None;
        }
      }
    }

    /** `express(req, res, next)`. `thrown` is the exception it throws, if any. */
    method Express(res: ExpressResponse, req: Request, random: seq<byte>) returns (thrown: Option<Failure>)
      requires |random| == 16
      modifies this, res
      ensures var d := handler.Decide(req, random);
        && (d.Reject? ==> res.statusCode == UNAUTHORIZED && res.sent == Text(INVALID_SIGNATURE)
                          && res.reply == old(res.reply) && thrown == None)
        && (d.Fatal? ==> thrown == Some(d.failure) && res.statusCode == old(res.statusCode)
                         && res.sent == old(res.sent) && res.reply == old(res.reply))
        && (d.Challenge? ==> res.sent == Json(d.response) && thrown == None
                             && res.statusCode == old(res.statusCode) && res.reply == old(res.reply))
        && (d.SaveTicket? ==> res.reply == Some(Replier(handler.crypt, req.timestamp, req.nonce))
                              && res.statusCode == old(res.statusCode)
                              && (if d.ack.Ok? then res.sent == Json(d.ack.value) && thrown == None
                                  else res.sent == old(res.sent) && thrown == Some(d.ack.error)))
        && (d.Delegate? ==> res.reply == Some(Replier(handler.crypt, req.timestamp, req.nonce))
                            && res.statusCode == old(res.statusCode) && res.sent == old(res.sent) && thrown == None)
      ensures var d := handler.Decide(req, random);
        && savedTickets == old(savedTickets) + (if d.SaveTicket? then [d.entry] else [])
        && handlerCalls == old(handlerCalls) + (if d.Delegate? then [d.message] else [])
    {
      ghost var d := handler.Decide(req, random);
      var crypt := handler.crypt;
      if req.signature != crypt.GetSignature([req.timestamp, req.nonce, req.encrypt]) {
        res.statusCode := UNAUTHORIZED;
        res.sent := Text(INVALID_SIGNATURE);
        return None;
      }
      var result := crypt.Decrypt(req.encrypt);
      if result.Err? {
        return Some(CryptFailure(result.error));
      }
      var parsed := handler.parseJson(result.value.message);
      if parsed.None? {
        return Some(SyntaxError);
      }
      var message := parsed.value;
      if IsChallenge(message.eventType) {
        if message.random.None? {
          return Some(MissingText);
        }
        var response := GenResponse(crypt, req.timestamp, req.nonce, message.random.value, random);
        if response.Err? {
          return Some(response.error);
        }
        res.sent := Json(response.value);
        thrown := None;
      } else {
        res.reply := Some(Replier(crypt, req.timestamp, req.nonce));
        if handler.hasSaveTicket && message.eventType == Some("suite_ticket") {
          savedTickets := savedTickets + [TicketEntryOf(message, handler.ticketExpiresIn)];
          thrown := res.Reply(random);
        } else {
          handlerCalls := handlerCalls + [message];
          thrown := None;
        }
      }
    }
  }

  // ---------------------------------------------------------------------------
  // Properties of the decision

  /** A response, sent back as a request with its own fields, passes the
      signature check, and its `encrypt` decrypts to the text with the app id. */
  lemma ResponseVerifies(h: Handler, timestamp: string, nonce: string, text: string, random: seq<byte>)
    requires Sound(h.crypt.prims) && |random| == 16
    requires |h.crypt.prims.utf8Encode(text)| < UINT32_LIMIT
    ensures GenResponse(h.crypt, timestamp, nonce, text, random).Ok?
    ensures var resp := GenResponse(h.crypt, timestamp, nonce, text, random).value;
      && h.crypt.Decrypt(resp.encrypt) == Ok(Decrypted(text, h.crypt.id))
      && !h.Decide(Request(resp.msgSignature, resp.timeStamp, resp.nonce, resp.encrypt), random).Reject?
  {
    EncryptDecrypt(h.crypt, text, random);
  }

  /** A wrong signature is rejected whatever the body holds: the outcome
      does not depend on decryption, parsing or the random bytes. */
  lemma RejectIgnoresPayload(h: Handler, req: Request, random: seq<byte>, parse: string -> Option<Message>, random': seq<byte>)
    requires |random| == 16 && |random'| == 16
    requires req.signature != h.crypt.GetSignature([req.timestamp, req.nonce, req.encrypt])
    ensures h.Decide(req, random) == Reject
    ensures h.(parseJson := parse).Decide(req, random') == Reject
  {
  }

  /** A challenge is answered with a response whose `encrypt` decrypts to
      the message's `Random`. */
  lemma ChallengeEchoesRandom(h: Handler, req: Request, random: seq<byte>)
    requires Sound(h.crypt.prims) && |random| == 16
    requires h.Decide(req, random).Challenge?
    ensures var rnd := h.parseJson(h.crypt.Decrypt(req.encrypt).value.message).value.random.value;
      h.crypt.Decrypt(h.Decide(req, random).response.encrypt) == Ok(Decrypted(rnd, h.crypt.id))
  {
    var rnd := h.parseJson(h.crypt.Decrypt(req.encrypt).value.message).value.random.value;
    ResponseVerifies(h, req.timestamp, req.nonce, rnd, random);
  }

  /** Once the signature, decryption and parsing succeed, the event type
      alone picks the branch. */
  lemma DecideByEventType(h: Handler, req: Request, random: seq<byte>, message: Message)
    requires |random| == 16
    requires req.signature == h.crypt.GetSignature([req.timestamp, req.nonce, req.encrypt])
    requires h.crypt.Decrypt(req.encrypt).Ok?
    requires h.parseJson(h.crypt.Decrypt(req.encrypt).value.message) == Some(message)
    ensures IsChallenge(message.eventType) && message.random.Some? &&
            GenResponse(h.crypt, req.timestamp, req.nonce, message.random.value, random).Ok?
            ==> h.Decide(req, random).Challenge?
    ensures IsChallenge(message.eventType) && message.random.None?
            ==> h.Decide(req, random) == Fatal(MissingText)
    ensures !IsChallenge(message.eventType) && h.hasSaveTicket && message.eventType == Some("suite_ticket")
            ==> h.Decide(req, random).SaveTicket?
    ensures !IsChallenge(message.eventType) && !(h.hasSaveTicket && message.eventType == Some("suite_ticket"))
            ==> h.Decide(req, random) == Delegate(message)
  {
  }

  /** The ticket-refresh example: 'TICKET1' stamped "1000" with the default
      lifetime is saved to expire at 1201000. */
  lemma TicketExample()
    ensures TicketEntryOf(Message(Some("suite_ticket"), None, Some("TICKET1"), Some("1000")), DEFAULT_TICKET_EXPIRES_IN)
            == TicketEntry(Some("TICKET1"), Some(1201000))
  {
    assert ParseInt("1000") == Some(1000) by {
      assert "1000" == Decimal(1000);
      ParseIntDecimal(1000);
    }
  }
}
