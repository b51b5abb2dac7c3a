/**
 * Shared helpers (script.py): the bot id derived from a token, and the
 * on-disk store holding the bot registry and one configuration document per
 * bot id.
 */
module Script {
  import opened Wrappers
  import opened Text
  import opened JsonValue

  /**
   * `get_bot_id`: the text before the first `:` of the token, or the whole
   * token when it has no `:`.
   */
  function GetBotId(token: string): (id: string)
    ensures id <= token
    ensures ':' !in id
    ensures |id| < |token| ==> token[|id|] == ':'
    ensures ':' !in token ==> id == token
  {
    if ':' in token then Split(token, ':')[0] else token
  }

  /** Taking the id of an id changes nothing. */
  lemma GetBotIdIdempotent(token: string)
    ensures GetBotId(GetBotId(token)) == GetBotId(token)
  {
  }

  /** The id is the only colon-free prefix of the token that ends at its first `:` or at its end. */
  lemma GetBotIdUnique(token: string, p: string)
    requires p <= token && ':' !in p && (|p| < |token| ==> token[|p|] == ':')
    ensures GetBotId(token) == p
  {
    var r := GetBotId(token);
    assert forall k :: 0 <= k < |p| ==> token[k] != ':';
    assert forall k :: 0 <= k < |r| ==> token[k] != ':';
    assert |r| == |p|;
  }

  /** The secret after the first `:` never affects the id. */
  lemma GetBotIdIgnoresSecret(id: string, secret: string)
    requires ':' !in id
    ensures GetBotId(id + ":" + secret) == id
  {
    GetBotIdUnique(id + ":" + secret, id);
  }

  lemma GetBotIdExample()
    ensures GetBotId("123456:ABCDEF") == "123456"
  {
    assert "123456:ABCDEF" == "123456" + ":" + "ABCDEF";
    GetBotIdIgnoresSecret("123456", "ABCDEF");
  }

  lemma GetBotIdNoColonExample()
    ensures GetBotId("no-colon-token") == "no-colon-token"
  {
    var t := "no-colon-token";
    assert forall k :: 0 <= k < |t| ==> t[k] != ':';
  }

  /** A registry entry: `{"token": token}`. */
  datatype BotRecord = BotRecord(token: string)

  /** A configuration file: written by `json.dump` of a document, or verbatim text from the edit form. */
  datatype Document = Dumped(value: Json) | Raw(text: string)

  /** `{"start_msg": startMsg, "commands": {}, "keywords": {}}`. */
  function ConfigJson(startMsg: string): Json {
    JObject(map["start_msg" := JString(startMsg), "commands" := JObject(map[]), "keywords" := JObject(map[])])
  }

  const DefaultStartMsg := "Hello! I am your bot 🤖"

  /**
   * The files the server keeps: the registry file (absent until first saved)
   * and the configuration file of each bot id.
   */
  class Store {
    var registry: Option<map<string, BotRecord>>
    var configs: map<string, Document>

    constructor ()
      ensures registry == None && configs == map[]
    {
      registry := None;
      configs := map[];
    }

    /** `load_bots`: the saved registry, or an empty one when none was ever saved. */
    function LoadBots(): (bots: map<string, BotRecord>)
      reads this
      ensures registry.None? ==> bots == map[]
      ensures registry.Some? ==> bots == registry.value
    {
      if registry.Some? then registry.value else map[]
    }

    /** `save_bots`: overwrites the registry file; a later `load_bots` returns what was saved. */
    method SaveBots(bots: map<string, BotRecord>)
      modifies this
      ensures registry == Some(bots) && configs == old(configs)
      ensures LoadBots() == bots
    {
      registry := Some(bots);
    }

    /** `load_bot_config`: the stored document for the id, or the default document when there is none. */
    function LoadBotConfig(botId: string): (doc: Document)
      reads this
      ensures botId !in configs ==> doc == Dumped(ConfigJson(DefaultStartMsg))
      ensures botId in configs ==> doc == configs[botId]
    {
      if botId in configs then configs[botId] else Dumped(ConfigJson(DefaultStartMsg))
    }

    /** Overwrites the configuration file of one bot id. */
    method WriteConfig(botId: string, doc: Document)
      modifies this
      ensures configs == old(configs)[botId := doc] && registry == old(registry)
      ensures LoadBotConfig(botId) == doc
    {
      configs := configs[botId := doc];
    }
  }
}
