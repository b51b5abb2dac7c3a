/**
 * The web endpoints (main.py): adding a bot to the registry, showing and
 * saving a bot's configuration, and receiving webhook updates through a
 * per-token cache of bot clients and dispatchers.
 */
module WebServer {
  import opened Wrappers
  import opened JsonValue
  import opened Script
  import opened BotSetup

  /** The JSON body `/add-bot` answers with. */
  datatype AddResult = Added(message: string, webhook: string) | Failed(error: string)

  /** The HTML fragments `/edit-file` and `/save-file` answer with. */
  datatype Page = InvalidToken | DataFileMissing | Editor(doc: Document) | Saved | InvalidJson

  /** Some registry entry holds exactly this token. */
  predicate TokenRegistered(bots: map<string, BotRecord>, token: string) {
    exists name :: name in bots && bots[name].token == token
  }

  /** Inserting an entry registers its token and keeps every token registered before. */
  lemma RegisteredAfterAdd(bots: map<string, BotRecord>, name: string, token: string, other: string)
    requires name !in bots
    ensures TokenRegistered(bots[name := BotRecord(token)], token)
    ensures TokenRegistered(bots, other) ==> TokenRegistered(bots[name := BotRecord(token)], other)
  {
    var added := bots[name := BotRecord(token)];
    assert added[name].token == token;
    if TokenRegistered(bots, other) {
      var n :| n in bots && bots[n].token == other;
      assert added[n] == bots[n];
    }
  }

  /** The lookup of the registry entry whose token equals `token`, or nothing when no entry holds it. */
  method FindBotByToken(bots: map<string, BotRecord>, token: string) returns (info: Option<BotRecord>)
    ensures info.Some? <==> TokenRegistered(bots, token)
    ensures info.Some? ==> info.value == BotRecord(token)
  {
    var unseen := bots.Keys;
    while unseen != {}
      invariant unseen <= bots.Keys
      invariant forall name :: name in bots && name !in unseen ==> bots[name].token != token
      decreases unseen
    {
      var name :| name in unseen;
      if bots[name].token == token {
        return Some(bots[name]);
      }
      unseen := unseen - {name};
    }
    return None;
  }

  /** A client for one bot token. */
  class BotClient {
    const token: string

    constructor (token: string)
      ensures this.token == token
    {
      this.token := token;
    }
  }

  /** A dispatcher; it answers updates once the handlers of `BotSetup` are registered on it. */
  class Dispatcher {
    var ready: bool

    constructor ()
      ensures !ready
    {
      ready := false;
    }

    /** `setup_handlers(dp)`. */
    method SetupHandlers()
      modifies this
      ensures ready
    {
      ready := true;
    }

    /**
     * `feed_update`: the reply the registered handlers send, if any. A payload
     * that is not a valid update (`None`) raises, and the caller swallows it.
     */
    method FeedUpdate(bot: BotClient, update: Option<Incoming>) returns (reply: Option<string>)
      requires ready
      ensures update.None? ==> reply == None
      ensures update.Some? ==> reply == Reply(update.value)
    {
      if update.Some? {
        reply := Reply(update.value);
      } else {
        reply := None;
      }
    }
  }

  class Server {
    const store: Store
    /** The public base URL webhooks are registered under. */
    const publicUrl: string
    var dpDict: map<string, Dispatcher>
    var botDict: map<string, BotClient>

    /** Both caches know the same tokens, each client belongs to its token, and every cached dispatcher has its handlers. */
    ghost predicate Valid()
      reads this, dpDict.Values
    {
      && dpDict.Keys == botDict.Keys
      && (forall t :: t in botDict ==> botDict[t].token == t)
      && (forall t :: t in dpDict ==> dpDict[t].ready)
    }

    constructor (store: Store, publicUrl: string)
      ensures Valid()
      ensures this.store == store && this.publicUrl == publicUrl
      ensures dpDict == map[] && botDict == map[]
    {
      this.store := store;
      this.publicUrl := publicUrl;
      dpDict := map[];
      botDict := map[];
    }

    /**
     * `add_bot`. Missing or empty fields and an existing name are rejected
     * with nothing written. Otherwise the registry gains the entry and is saved,
     * a default configuration is written unless one exists for the bot id,
     * and only then is the webhook registered (`webhookError` is the error the
     * registration raised, if any); a failed registration does not undo the
     * writes.
     */
    method AddBot(botName: Option<string>, token: Option<string>, webhookError: Option<string>)
      returns (r: AddResult)
      modifies store
      ensures botName.None? || botName.value == "" || token.None? || token.value == "" ==>
        r == Failed("bot_name and token required") && unchanged(store)
      ensures botName.Some? && botName.value != "" && token.Some? && token.value != "" ==>
        var name, tok, bots := botName.value, token.value, old(store.LoadBots());
        if name in bots then
          r == Failed("Bot already exists") && unchanged(store)
        else
          && store.registry == Some(bots[name := BotRecord(tok)])
          && store.configs == (if GetBotId(tok) in old(store.configs) then old(store.configs)
                               else old(store.configs)[GetBotId(tok) := Dumped(ConfigJson("Hello! I am " + name + " 🤖"))])
          && r == (if webhookError.None? then Added(name + " added successfully", publicUrl + "/webhook/" + tok)
                   else Failed("Webhook setup failed: " + webhookError.value))
    {
      if botName.None? || botName.value == "" || token.None? || token.value == "" {
        return Failed("bot_name and token required");
      }
      var name, tok := botName.value, token.value;
      var bots := store.LoadBots();
      if name in bots {
        return Failed("Bot already exists");
      }
      bots := bots[name := BotRecord(tok)];
      store.SaveBots(bots);
      var botId := GetBotId(tok);
      if botId !in store.configs {
        store.WriteConfig(botId, Dumped(ConfigJson("Hello! I am " + name + " 🤖")));
      }
      var webhookUrl := publicUrl + "/webhook/" + tok;
      if webhookError.Some? {
        return Failed("Webhook setup failed: " + webhookError.value);
      }
      return Added(name + " added successfully", webhookUrl);
    }

    /** `edit_file`: the stored configuration of a registered token, or the error fragment saying why there is none. */
    method EditFile(token: string) returns (page: Page)
      ensures !TokenRegistered(store.LoadBots(), token) ==> page == InvalidToken
      ensures TokenRegistered(store.LoadBots(), token) && GetBotId(token) !in store.configs ==> page == DataFileMissing
      ensures TokenRegistered(store.LoadBots(), token) && GetBotId(token) in store.configs ==>
        page == Editor(store.configs[GetBotId(token)])
    {
      var bots := store.LoadBots();
      var validBot := FindBotByToken(bots, token);
      if validBot.None? {
        return InvalidToken;
      }
      var botId := GetBotId(token);
      if botId !in store.configs {
        return DataFileMissing;
      }
      return Editor(store.configs[botId]);
    }

    /**
     * `save_file`: for a registered token, overwrites the bot's configuration
     * with `content` when it parses as JSON (`parses`); an unknown token or
     * content that does not parse leaves every file as it was.
     */
    method SaveFile(token: string, content: string, parses: bool) returns (page: Page)
      modifies store
      ensures store.registry == old(store.registry)
      ensures page == if !TokenRegistered(old(store.LoadBots()), token) then InvalidToken
                      else if parses then Saved else InvalidJson
      ensures store.configs == if page == Saved then old(store.configs)[GetBotId(token) := Raw(content)]
                               else old(store.configs)
    {
      var bots := store.LoadBots();
      var validBot := FindBotByToken(bots, token);
      if validBot.None? {
        return InvalidToken;
      }
      var botId := GetBotId(token);
      if !parses {
        return InvalidJson;
      }
      store.WriteConfig(botId, Raw(content));
      return Saved;
    }

    /**
     * `telegram_webhook`: builds and caches a client and a dispatcher the
     * first time a token is seen, reuses them afterwards, feeds the update
     * through the dispatcher and answers ok whatever the feeding did.
     * Building happens outside the error handler: `buildFails` says that
     * building the client or the dispatcher for a new token raised (the
     * client refuses a malformed token), in which case the request fails
     * before anything is cached and no ok is returned.
     */
    method Webhook(token: string, update: Option<Incoming>, buildFails: bool) returns (ok: bool, reply: Option<string>)
      requires Valid()
      modifies this
      ensures Valid()
      ensures ok <==> token in old(dpDict) || !buildFails
      ensures !ok ==> dpDict == old(dpDict) && botDict == old(botDict) && reply == None
      ensures ok ==> token in dpDict && token in botDict
      ensures token in old(dpDict) ==> dpDict == old(dpDict) && botDict == old(botDict)
      ensures token !in old(dpDict) && ok ==>
        && fresh(dpDict[token]) && fresh(botDict[token])
        && dpDict == old(dpDict)[token := dpDict[token]]
        && botDict == old(botDict)[token := botDict[token]]
      ensures ok && update.None? ==> reply == None
      ensures ok && update.Some? ==> reply == Reply(update.value)
    {
      var bot: BotClient;
      var dp: Dispatcher;
      if token !in dpDict {
        if buildFails {
          return false, None;
        }
        bot := new BotClient(token);
        dp := new Dispatcher();
        dp.SetupHandlers();
        dpDict := dpDict[token := dp];
        botDict := botDict[token := bot];
      } else {
        bot := botDict[token];
        dp := dpDict[token];
      }
      reply := dp.FeedUpdate(bot, update);
      return true, reply;
    }
  }

  /**
   * The writes of `add_bot` are not undone when webhook registration fails,
   * so adding the same name again is refused even though the first attempt
   * reported failure.
   */
  method RetryAfterFailedWebhook(server: Server, name: string, token: string, error: string)
    returns (first: AddResult, second: AddResult)
    requires name != "" && token != "" && name !in server.store.LoadBots()
    modifies server.store
    ensures first == Failed("Webhook setup failed: " + error)
    ensures second == Failed("Bot already exists")
    ensures server.store.LoadBots() == old(server.store.LoadBots())[name := BotRecord(token)]
  {
    first := server.AddBot(Some(name), Some(token), Some(error));
    second := server.AddBot(Some(name), Some(token), None);
  }
}
