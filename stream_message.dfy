/** The message-property envelope of the stream package: the MessageProperties record,
    its conversion to and from a flat string map (the attribute map of a broker
    message), its logger fields and its validators. */
module StreamMessage {
  import opened Wrappers
  import opened GoMap
  import opened GoTime
  import Strconv

  const StageWebhook := "webhook"

  // ---------------------------------------------------------------------------
  // Map keys

  /** The 22 keys of the property map, one per MessageProperties field. The map is
      keyed by this enumeration; `Name` gives the string each key is written as. */
  datatype Key =
    | RequestType | RoutingKey | WorkspaceID | UserID | SourceID | DestinationID
    | RequestIP | ReceivedAt | SourceJobRunID | SourceTaskRunID | TraceID
    | Compression | Encryption | EncryptionKeyID
    | SourceType | WebhookFailureReason | Stage
    | IsBot | BotName | BotURL | BotIsInvalidBrowser | NeedsBotEnrichment

  /** The string a key is written as in the map and in the logger fields. */
  function Name(k: Key): string
  {
    match k
    case RequestType => "requestType"
    case RoutingKey => "routingKey"
    case WorkspaceID => "workspaceID"
    case UserID => "userID"
    case SourceID => "sourceID"
    case DestinationID => "destinationID"
    case RequestIP => "requestIP"
    case ReceivedAt => "receivedAt"
    case SourceJobRunID => "sourceJobRunID"
    case SourceTaskRunID => "sourceTaskRunID"
    case TraceID => "traceID"
    case Compression => "compression"
    case Encryption => "encryption"
    case EncryptionKeyID => "encryptionKeyID"
    case SourceType => "sourceType"
    case WebhookFailureReason => "webhookFailureReason"
    case Stage => "stage"
    case IsBot => "isBot"
    case BotName => "botName"
    case BotURL => "botURL"
    case BotIsInvalidBrowser => "botIsInvalidBrowser"
    case NeedsBotEnrichment => "needsBotEnrichment"
  }

  lemma NameInjectiveAt(a: Key, b: Key)
    ensures Name(a) == Name(b) ==> a == b
  {
  }

  /** No two keys share a name, so a map keyed by names holds each key at most once. */
  lemma NameInjective()
    ensures forall a: Key, b: Key :: Name(a) == Name(b) ==> a == b
  {
    forall a: Key, b: Key
      ensures Name(a) == Name(b) ==> a == b
    {
      NameInjectiveAt(a, b);
    }
  }

  /** The keys every property map carries. */
  const BaseKeys: set<Key> := {
    RequestType, RoutingKey, WorkspaceID, UserID, SourceID, DestinationID, RequestIP,
    ReceivedAt, SourceJobRunID, SourceTaskRunID, TraceID, Compression, Encryption,
    EncryptionKeyID
  }

  /** The keys present only on the webhook stage. */
  const WebhookKeys: set<Key> := {SourceType, WebhookFailureReason, Stage}

  /** The keys present only for bot traffic. */
  const BotKeys: set<Key> := {IsBot, BotName, BotURL, BotIsInvalidBrowser, NeedsBotEnrichment}

  /** The keys of a property map, given whether it is on the webhook stage and whether
      it describes a bot. */
  function GroupKeys(webhook: bool, bot: bool): set<Key>
  {
    if webhook && bot then BaseKeys + WebhookKeys + BotKeys
    else if webhook then BaseKeys + WebhookKeys
    else if bot then BaseKeys + BotKeys
    else BaseKeys
  }

  /** Every key belongs to one of the three groups. */
  lemma KeyGroupsCover(k: Key)
    ensures k in BaseKeys || k in WebhookKeys || k in BotKeys
  {
  }

  /** No key belongs to two groups. */
  lemma KeyGroupsDisjoint()
    ensures BaseKeys !! WebhookKeys && BaseKeys !! BotKeys && WebhookKeys !! BotKeys
  {
  }

  // ---------------------------------------------------------------------------
  // The record

  datatype MessageProperties = MessageProperties(
    requestType: string,
    routingKey: string,
    workspaceID: string,
    sourceID: string,
    receivedAt: Time,
    requestIP: string,
    destinationID: string,
    userID: string,
    sourceJobRunID: string,
    sourceTaskRunID: string,
    traceID: string,
    sourceType: string,
    webhookFailureReason: string,
    stage: string,
    compression: string,
    encryption: string,
    encryptionKeyID: string,
    isBot: bool,
    botName: string,
    botURL: string,
    botIsInvalidBrowser: bool,
    needsBotEnrichment: bool)

  /** MessageProperties{}: every field at Go's zero value. */
  const ZeroProperties := MessageProperties(
    "", "", "", "", ZeroTime, "", "", "", "", "", "", "", "", "", "", "", "",
    false, "", "", false, false)

  /** A property map (Go's map[string]string of broker attributes), keyed by Key. */
  type PropertyMap = map<Key, string>

  // ---------------------------------------------------------------------------
  // Properties to map

  /** Whether `k` is written for `p`, key by key. */
  predicate Written(p: MessageProperties, k: Key)
  {
    match k
    case SourceType | WebhookFailureReason | Stage => p.stage == StageWebhook
    case IsBot | BotName | BotURL | BotIsInvalidBrowser | NeedsBotEnrichment => p.isBot
    case _ => true
  }

  /** The keys of the property map of `p`. */
  function EntryKeys(p: MessageProperties): set<Key>
  {
    set k: Key | Written(p, k)
  }

  /** The keys written for `p` are the base keys, the webhook keys on the webhook stage
      and the bot keys for bots. */
  lemma EntryKeysByGroup(p: MessageProperties)
    ensures EntryKeys(p) == GroupKeys(p.stage == StageWebhook, p.isBot)
  {
    forall k
      ensures k in EntryKeys(p) <==> k in GroupKeys(p.stage == StageWebhook, p.isBot)
    {
      KeyGroupsDisjoint();
      if k in BaseKeys {
        assert Written(p, k);
      } else if k in WebhookKeys {
        assert Written(p, k) == (p.stage == StageWebhook);
      } else {
        KeyGroupsCover(k);
        assert Written(p, k) == p.isBot;
      }
    }
  }

  /** Off the webhook stage no webhook key is written. */
  lemma WebhookKeysOutside(bot: bool)
    ensures SourceType !in GroupKeys(false, bot)
    ensures WebhookFailureReason !in GroupKeys(false, bot)
    ensures Stage !in GroupKeys(false, bot)
  {
  }

  /** Unless the message is from a bot no bot key is written. */
  lemma BotKeysOutside(webhook: bool)
    ensures IsBot !in GroupKeys(webhook, false)
    ensures BotName !in GroupKeys(webhook, false)
    ensures BotURL !in GroupKeys(webhook, false)
    ensures BotIsInvalidBrowser !in GroupKeys(webhook, false)
    ensures NeedsBotEnrichment !in GroupKeys(webhook, false)
  {
  }

  /** The text written under `k` when `k` is written: the field itself, receivedAt in
      the layout's text, isBot as "true" (it is only written for bots) and the other
      bot booleans as strconv tokens. */
  function EntryText(rfc3339Nano: Layout, p: MessageProperties, k: Key): string
  {
    match k
    case RequestType => p.requestType
    case RoutingKey => p.routingKey
    case WorkspaceID => p.workspaceID
    case UserID => p.userID
    case SourceID => p.sourceID
    case DestinationID => p.destinationID
    case RequestIP => p.requestIP
    case ReceivedAt => rfc3339Nano.format(p.receivedAt)
    case SourceJobRunID => p.sourceJobRunID
    case SourceTaskRunID => p.sourceTaskRunID
    case TraceID => p.traceID
    case Compression => p.compression
    case Encryption => p.encryption
    case EncryptionKeyID => p.encryptionKeyID
    case SourceType => p.sourceType
    case WebhookFailureReason => p.webhookFailureReason
    case Stage => p.stage
    case IsBot => "true"
    case BotName => p.botName
    case BotURL => p.botURL
    case BotIsInvalidBrowser => Strconv.FormatBool(p.botIsInvalidBrowser)
    case NeedsBotEnrichment => Strconv.FormatBool(p.needsBotEnrichment)
  }

  /** The entries of `keys`, each with its text. */
  function Entries(rfc3339Nano: Layout, p: MessageProperties, keys: set<Key>): PropertyMap
  {
    map k | k in keys :: EntryText(rfc3339Nano, p, k)
  }

  /** The property map of `p`: every key of EntryKeys(p) with its text. */
  function PropertiesMap(rfc3339Nano: Layout, p: MessageProperties): PropertyMap
  {
    Entries(rfc3339Nano, p, EntryKeys(p))
  }

  /** The map literal ToMapProperties starts from holds exactly the base entries. */
  lemma BaseEntriesLiteral(rfc3339Nano: Layout, p: MessageProperties)
    ensures Entries(rfc3339Nano, p, BaseKeys) == map[
      RequestType := p.requestType,
      RoutingKey := p.routingKey,
      WorkspaceID := p.workspaceID,
      UserID := p.userID,
      SourceID := p.sourceID,
      DestinationID := p.destinationID,
      RequestIP := p.requestIP,
      ReceivedAt := rfc3339Nano.format(p.receivedAt),
      SourceJobRunID := p.sourceJobRunID,
      SourceTaskRunID := p.sourceTaskRunID,
      TraceID := p.traceID,
      Compression := p.compression,
      Encryption := p.encryption,
      EncryptionKeyID := p.encryptionKeyID]
  {
  }

  /** Writing one more key adds its entry. */
  lemma EntriesInsert(rfc3339Nano: Layout, p: MessageProperties, keys: set<Key>, k: Key)
    ensures Entries(rfc3339Nano, p, keys + {k})
         == Entries(rfc3339Nano, p, keys)[k := EntryText(rfc3339Nano, p, k)]
  {
  }

  /** Inserting the three webhook entries one by one writes the webhook keys. */
  lemma WebhookEntriesInserted(rfc3339Nano: Layout, p: MessageProperties, keys: set<Key>)
    ensures Entries(rfc3339Nano, p, keys + WebhookKeys)
         == Entries(rfc3339Nano, p, keys)
              [SourceType := p.sourceType]
              [WebhookFailureReason := p.webhookFailureReason]
              [Stage := p.stage]
  {
  }

  /** Inserting the five bot entries one by one writes the bot keys. */
  lemma BotEntriesInserted(rfc3339Nano: Layout, p: MessageProperties, keys: set<Key>)
    ensures Entries(rfc3339Nano, p, keys + BotKeys)
         == Entries(rfc3339Nano, p, keys)
              [IsBot := "true"]
              [BotName := p.botName]
              [BotURL := p.botURL]
              [BotIsInvalidBrowser := Strconv.FormatBool(p.botIsInvalidBrowser)]
              [NeedsBotEnrichment := Strconv.FormatBool(p.needsBotEnrichment)]
  {
  }

  /** ToMapProperties: builds the base map, then inserts the webhook keys and the bot
      keys in place when their condition holds. */
  method ToMapProperties(rfc3339Nano: Layout, p: MessageProperties) returns (m: PropertyMap)
    ensures m == PropertiesMap(rfc3339Nano, p)
  {
    m := map[
      RequestType := p.requestType,
      RoutingKey := p.routingKey,
      WorkspaceID := p.workspaceID,
      UserID := p.userID,
      SourceID := p.sourceID,
      DestinationID := p.destinationID,
      RequestIP := p.requestIP,
      ReceivedAt := rfc3339Nano.format(p.receivedAt),
      SourceJobRunID := p.sourceJobRunID,
      SourceTaskRunID := p.sourceTaskRunID,
      TraceID := p.traceID,
      Compression := p.compression,
      Encryption := p.encryption,
      EncryptionKeyID := p.encryptionKeyID];
    BaseEntriesLiteral(rfc3339Nano, p);
    ghost var written := BaseKeys;
    if p.stage == StageWebhook {
      WebhookEntriesInserted(rfc3339Nano, p, written);
      m := m[SourceType := p.sourceType];
      m := m[WebhookFailureReason := p.webhookFailureReason];
      m := m[Stage := p.stage];
      written := written + WebhookKeys;
    }
    if p.isBot {
      BotEntriesInserted(rfc3339Nano, p, written);
      m := m[IsBot := "true"];
      m := m[BotName := p.botName];
      m := m[BotURL := p.botURL];
      m := m[BotIsInvalidBrowser := Strconv.FormatBool(p.botIsInvalidBrowser)];
      m := m[NeedsBotEnrichment := Strconv.FormatBool(p.needsBotEnrichment)];
      written := written + BotKeys;
    }
    assert written == GroupKeys(p.stage == StageWebhook, p.isBot);
    EntryKeysByGroup(p);
  }

  /** A property map holds the base keys, the webhook keys on the webhook stage and the
      bot keys for bots, and nothing else. */
  lemma PropertiesMapKeys(rfc3339Nano: Layout, p: MessageProperties)
    ensures PropertiesMap(rfc3339Nano, p).Keys == EntryKeys(p)
  {
  }

  /** Reading key `k` of a property map with Go's `m[k]`: the text of `k` when `k` is
      written, and "" otherwise. */
  lemma LookupPropertiesMap(rfc3339Nano: Layout, p: MessageProperties, k: Key)
    ensures Lookup(PropertiesMap(rfc3339Nano, p), k)
         == if k in EntryKeys(p) then EntryText(rfc3339Nano, p, k) else ""
  {
  }

  /** The 14 base keys are present whatever the field values. */
  lemma BaseKeysAlwaysPresent(rfc3339Nano: Layout, p: MessageProperties)
    ensures BaseKeys <= PropertiesMap(rfc3339Nano, p).Keys
  {
    PropertiesMapKeys(rfc3339Nano, p);
  }

  /** sourceType, webhookFailureReason and stage are present exactly on the webhook
      stage; any other stage, empty or not, is not written at all. */
  lemma WebhookKeysIffWebhookStage(rfc3339Nano: Layout, p: MessageProperties)
    ensures forall k :: k in WebhookKeys ==>
              (k in PropertiesMap(rfc3339Nano, p) <==> p.stage == StageWebhook)
  {
    PropertiesMapKeys(rfc3339Nano, p);
    KeyGroupsDisjoint();
  }

  /** The five bot keys are present exactly for bots. */
  lemma BotKeysIffBot(rfc3339Nano: Layout, p: MessageProperties)
    ensures forall k :: k in BotKeys ==> (k in PropertiesMap(rfc3339Nano, p) <==> p.isBot)
  {
    PropertiesMapKeys(rfc3339Nano, p);
    KeyGroupsDisjoint();
  }

  /** For bots, isBot is written as "true" and each bot boolean as exactly "true" or
      "false", according to its value. */
  lemma BotEntriesAreTokens(rfc3339Nano: Layout, p: MessageProperties)
    requires p.isBot
    ensures PropertiesMap(rfc3339Nano, p)[IsBot] == "true"
    ensures PropertiesMap(rfc3339Nano, p)[BotIsInvalidBrowser]
         == (if p.botIsInvalidBrowser then "true" else "false")
    ensures PropertiesMap(rfc3339Nano, p)[NeedsBotEnrichment]
         == (if p.needsBotEnrichment then "true" else "false")
  {
    LookupPropertiesMap(rfc3339Nano, p, IsBot);
    WrittenIsEntryKey(p, IsBot);
    LookupPropertiesMap(rfc3339Nano, p, BotIsInvalidBrowser);
    WrittenIsEntryKey(p, BotIsInvalidBrowser);
    LookupPropertiesMap(rfc3339Nano, p, NeedsBotEnrichment);
    WrittenIsEntryKey(p, NeedsBotEnrichment);
  }

  // ---------------------------------------------------------------------------
  // Map to properties

  /** Which conversion failed, with the text that failed it. */
  datatype DecodeError =
    | ReceivedAtError(text: string)
    | IsBotError(text: string)
    | BotIsInvalidBrowserError(text: string)
    | NeedsBotEnrichmentError(text: string)

  /** Go's (MessageProperties, error) pair. */
  datatype Decoded = Decoded(properties: MessageProperties, err: Option<DecodeError>)

  /** A bool property that defaults to false when empty or absent, and is otherwise
      read with strconv.ParseBool. */
  function OptionalBool(text: string): (r: Option<bool>)
    ensures r.Some? <==> text == "" || text in Strconv.TrueTokens || text in Strconv.FalseTokens
    ensures r == Some(true) <==> Strconv.ParseBool(text) == Some(true)
  {
    if text == "" then Some(false) else Strconv.ParseBool(text)
  }

  /** FromMapProperties: parses receivedAt, then isBot, then (only for bots) the two
      bot booleans, stopping at the first failure with the zero record; all other
      fields are plain lookups. */
  function FromMapProperties(rfc3339Nano: Layout, m: PropertyMap): (d: Decoded)
    ensures d.err.Some? ==> d.properties == ZeroProperties
    ensures d.err.None? ==> d.properties == Assemble(m, d.properties.receivedAt, d.properties.isBot,
                                                     d.properties.botIsInvalidBrowser, d.properties.needsBotEnrichment)
  {
    var receivedAtText := Lookup(m, ReceivedAt);
    var isBotText := Lookup(m, IsBot);
    var invalidBrowserText := Lookup(m, BotIsInvalidBrowser);
    var enrichmentText := Lookup(m, NeedsBotEnrichment);
    if rfc3339Nano.parse(receivedAtText).None? then
      Decoded(ZeroProperties, Some(ReceivedAtError(receivedAtText)))
    else if OptionalBool(isBotText).None? then
      Decoded(ZeroProperties, Some(IsBotError(isBotText)))
    else
      var isBot := OptionalBool(isBotText).value;
      if isBot && OptionalBool(invalidBrowserText).None? then
        Decoded(ZeroProperties, Some(BotIsInvalidBrowserError(invalidBrowserText)))
      else if isBot && OptionalBool(enrichmentText).None? then
        Decoded(ZeroProperties, Some(NeedsBotEnrichmentError(enrichmentText)))
      else
        Decoded(Assemble(m, rfc3339Nano.parse(receivedAtText).value, isBot,
                         isBot && OptionalBool(invalidBrowserText).value,
                         isBot && OptionalBool(enrichmentText).value), None)
  }

  /** The record FromMapProperties returns once its conversions succeeded: the
      converted values, the string fields read from the map, and the bot strings only
      for bots. */
  function Assemble(m: PropertyMap, receivedAt: Time, isBot: bool,
                    botIsInvalidBrowser: bool, needsBotEnrichment: bool): (p: MessageProperties)
    ensures p.receivedAt == receivedAt && p.isBot == isBot
    ensures p.botIsInvalidBrowser == botIsInvalidBrowser && p.needsBotEnrichment == needsBotEnrichment
    ensures p.botName == (if isBot then Lookup(m, BotName) else "")
    ensures p.botURL == (if isBot then Lookup(m, BotURL) else "")
    ensures && p.requestType == Lookup(m, RequestType) && p.routingKey == Lookup(m, RoutingKey)
            && p.workspaceID == Lookup(m, WorkspaceID) && p.sourceID == Lookup(m, SourceID)
            && p.requestIP == Lookup(m, RequestIP) && p.destinationID == Lookup(m, DestinationID)
            && p.userID == Lookup(m, UserID)
    ensures && p.sourceJobRunID == Lookup(m, SourceJobRunID) && p.sourceTaskRunID == Lookup(m, SourceTaskRunID)
            && p.traceID == Lookup(m, TraceID) && p.compression == Lookup(m, Compression)
            && p.encryption == Lookup(m, Encryption) && p.encryptionKeyID == Lookup(m, EncryptionKeyID)
    ensures && p.stage == Lookup(m, Stage) && p.sourceType == Lookup(m, SourceType)
            && p.webhookFailureReason == Lookup(m, WebhookFailureReason)
  {
    MessageProperties(
      requestType := Lookup(m, RequestType),
      routingKey := Lookup(m, RoutingKey),
      workspaceID := Lookup(m, WorkspaceID),
      sourceID := Lookup(m, SourceID),
      receivedAt := receivedAt,
      requestIP := Lookup(m, RequestIP),
      destinationID := Lookup(m, DestinationID),
      userID := Lookup(m, UserID),
      sourceJobRunID := Lookup(m, SourceJobRunID),
      sourceTaskRunID := Lookup(m, SourceTaskRunID),
      traceID := Lookup(m, TraceID),
      sourceType := Lookup(m, SourceType),
      webhookFailureReason := Lookup(m, WebhookFailureReason),
      stage := Lookup(m, Stage),
      compression := Lookup(m, Compression),
      encryption := Lookup(m, Encryption),
      encryptionKeyID := Lookup(m, EncryptionKeyID),
      isBot := isBot,
      botName := if isBot then Lookup(m, BotName) else "",
      botURL := if isBot then Lookup(m, BotURL) else "",
      botIsInvalidBrowser := botIsInvalidBrowser,
      needsBotEnrichment := needsBotEnrichment)
  }

  /** receivedAt is checked first: when it does not parse, nothing else is looked at
      and the result is the zero record with a receivedAt error; when it parses, no
      receivedAt error can arise. */
  lemma ReceivedAtFailsFirst(rfc3339Nano: Layout, m: PropertyMap)
    ensures rfc3339Nano.parse(Lookup(m, ReceivedAt)).None? ==>
      FromMapProperties(rfc3339Nano, m)
        == Decoded(ZeroProperties, Some(ReceivedAtError(Lookup(m, ReceivedAt))))
    ensures (FromMapProperties(rfc3339Nano, m).err.Some? &&
             FromMapProperties(rfc3339Nano, m).err.value.ReceivedAtError?)
        <==> rfc3339Nano.parse(Lookup(m, ReceivedAt)).None?
  {
  }

  /** An absent receivedAt reads as "", which RFC 3339 does not accept. */
  lemma AbsentReceivedAtFails(rfc3339Nano: Layout, m: PropertyMap)
    requires ReceivedAt !in m
    requires rfc3339Nano.parse("") == None
    ensures FromMapProperties(rfc3339Nano, m) == Decoded(ZeroProperties, Some(ReceivedAtError("")))
  {
  }

  /** isBot: a non-empty value that is not a bool token is an error; an empty or absent
      value means false. */
  lemma IsBotParsing(rfc3339Nano: Layout, m: PropertyMap)
    requires rfc3339Nano.parse(Lookup(m, ReceivedAt)).Some?
    ensures var d := FromMapProperties(rfc3339Nano, m);
      Lookup(m, IsBot) != "" && Strconv.ParseBool(Lookup(m, IsBot)).None? ==>
        d == Decoded(ZeroProperties, Some(IsBotError(Lookup(m, IsBot))))
    ensures var d := FromMapProperties(rfc3339Nano, m);
      Lookup(m, IsBot) == "" ==> d.err.None? && !d.properties.isBot
    ensures var d := FromMapProperties(rfc3339Nano, m);
      d.err.None? ==> (d.properties.isBot <==> Strconv.ParseBool(Lookup(m, IsBot)) == Some(true))
  {
  }

  /** When isBot reads as false, the bot fields come back empty and false and cannot
      cause an error, whatever the map holds under their keys. */
  lemma BotFieldsIgnoredUnlessBot(rfc3339Nano: Layout, m: PropertyMap)
    requires rfc3339Nano.parse(Lookup(m, ReceivedAt)).Some?
    requires OptionalBool(Lookup(m, IsBot)) == Some(false)
    ensures var d := FromMapProperties(rfc3339Nano, m);
      && d.err.None?
      && !d.properties.isBot && d.properties.botName == "" && d.properties.botURL == ""
      && !d.properties.botIsInvalidBrowser && !d.properties.needsBotEnrichment
  {
  }

  /** For bots, each bot boolean is read like isBot: on success it is true exactly when
      strconv.ParseBool reads its text as true ("1", "t", "T", "TRUE", "true" or "True"),
      and an empty or absent text means false. */
  lemma BotBooleansParsing(rfc3339Nano: Layout, m: PropertyMap)
    ensures var d := FromMapProperties(rfc3339Nano, m);
      d.err.None? && d.properties.isBot ==>
        && (d.properties.botIsInvalidBrowser <==> Strconv.ParseBool(Lookup(m, BotIsInvalidBrowser)) == Some(true))
        && (d.properties.needsBotEnrichment <==> Strconv.ParseBool(Lookup(m, NeedsBotEnrichment)) == Some(true))
  {
  }

  /** FromMapProperties succeeds exactly when receivedAt parses, isBot is empty or a
      bool token, and, for bots, each bot boolean is empty or a bool token. */
  lemma FromMapPropertiesSucceeds(rfc3339Nano: Layout, m: PropertyMap)
    ensures FromMapProperties(rfc3339Nano, m).err.None? <==>
      && rfc3339Nano.parse(Lookup(m, ReceivedAt)).Some?
      && OptionalBool(Lookup(m, IsBot)).Some?
      && (OptionalBool(Lookup(m, IsBot)) == Some(true) ==>
            OptionalBool(Lookup(m, BotIsInvalidBrowser)).Some? &&
            OptionalBool(Lookup(m, NeedsBotEnrichment)).Some?)
  {
  }

  // ---------------------------------------------------------------------------
  // Round trips

  /** A record that the map form represents without loss: the stage is "" or
      "webhook", the webhook-only fields are empty off the webhook stage, and the bot
      fields are empty and false unless the message is from a bot. */
  ghost predicate Encodable(p: MessageProperties)
  {
    && (p.stage == "" || p.stage == StageWebhook)
    && (p.stage != StageWebhook ==> p.sourceType == "" && p.webhookFailureReason == "")
    && (!p.isBot ==>
          p.botName == "" && p.botURL == "" && !p.botIsInvalidBrowser && !p.needsBotEnrichment)
  }

  /** The record a property map of `p` carries: the stage and the webhook-only fields
      survive only on the webhook stage, the bot fields only for bots, and receivedAt
      as the time its text parses back to. */
  function Carried(rfc3339Nano: Layout, p: MessageProperties, receivedAt: Time): MessageProperties
  {
    var webhook := p.stage == StageWebhook;
    p.(receivedAt := receivedAt,
       sourceType := if webhook then p.sourceType else "",
       webhookFailureReason := if webhook then p.webhookFailureReason else "",
       stage := if webhook then p.stage else "",
       botName := if p.isBot then p.botName else "",
       botURL := if p.isBot then p.botURL else "",
       botIsInvalidBrowser := p.isBot && p.botIsInvalidBrowser,
       needsBotEnrichment := p.isBot && p.needsBotEnrichment)
  }

  lemma WrittenIsEntryKey(p: MessageProperties, k: Key)
    ensures Written(p, k) <==> k in EntryKeys(p)
  {
  }

  /** `m` reads, key by key, as the property map of `p` does with Go's `m[k]`: each
      key written for `p` as its text, every other key as "". */
  ghost predicate ReadsAs(rfc3339Nano: Layout, p: MessageProperties, m: PropertyMap)
  {
    && BaseReadsAs(rfc3339Nano, p, m)
    && WebhookReadsAs(rfc3339Nano, p, m)
    && BotReadsAs(rfc3339Nano, p, m)
  }

  /** The base keys read as their fields, receivedAt as its layout text. */
  ghost predicate BaseReadsAs(rfc3339Nano: Layout, p: MessageProperties, m: PropertyMap)
  {
    && Lookup(m, RequestType) == p.requestType
    && Lookup(m, RoutingKey) == p.routingKey
    && Lookup(m, WorkspaceID) == p.workspaceID
    && Lookup(m, UserID) == p.userID
    && Lookup(m, SourceID) == p.sourceID
    && Lookup(m, DestinationID) == p.destinationID
    && Lookup(m, RequestIP) == p.requestIP
    && Lookup(m, ReceivedAt) == rfc3339Nano.format(p.receivedAt)
    && Lookup(m, SourceJobRunID) == p.sourceJobRunID
    && Lookup(m, SourceTaskRunID) == p.sourceTaskRunID
    && Lookup(m, TraceID) == p.traceID
    && Lookup(m, Compression) == p.compression
    && Lookup(m, Encryption) == p.encryption
    && Lookup(m, EncryptionKeyID) == p.encryptionKeyID
  }

  /** The webhook keys read as their fields on the webhook stage, and as "" otherwise. */
  ghost predicate WebhookReadsAs(rfc3339Nano: Layout, p: MessageProperties, m: PropertyMap)
  {
    && Lookup(m, SourceType) == (if p.stage == StageWebhook then p.sourceType else "")
    && Lookup(m, WebhookFailureReason) == (if p.stage == StageWebhook then p.webhookFailureReason else "")
    && Lookup(m, Stage) == (if p.stage == StageWebhook then p.stage else "")
  }

  /** The bot keys read as their texts for bots, and as "" otherwise. */
  ghost predicate BotReadsAs(rfc3339Nano: Layout, p: MessageProperties, m: PropertyMap)
  {
    && Lookup(m, IsBot) == (if p.isBot then "true" else "")
    && Lookup(m, BotName) == (if p.isBot then p.botName else "")
    && Lookup(m, BotURL) == (if p.isBot then p.botURL else "")
    && Lookup(m, BotIsInvalidBrowser) == (if p.isBot then Strconv.FormatBool(p.botIsInvalidBrowser) else "")
    && Lookup(m, NeedsBotEnrichment) == (if p.isBot then Strconv.FormatBool(p.needsBotEnrichment) else "")
  }

  // PropertiesMapReadsAs, split by key group so that each proof obligation stays small:
  // each lemma reads one group of keys of the property map with Go's `m[k]`.

  /** The identifier keys read as their fields. */
  lemma PropertiesMapReadsIdentifiers(rfc3339Nano: Layout, p: MessageProperties)
    ensures Lookup(PropertiesMap(rfc3339Nano, p), RequestType) == p.requestType
    ensures Lookup(PropertiesMap(rfc3339Nano, p), RoutingKey) == p.routingKey
    ensures Lookup(PropertiesMap(rfc3339Nano, p), WorkspaceID) == p.workspaceID
    ensures Lookup(PropertiesMap(rfc3339Nano, p), UserID) == p.userID
    ensures Lookup(PropertiesMap(rfc3339Nano, p), SourceID) == p.sourceID
    ensures Lookup(PropertiesMap(rfc3339Nano, p), DestinationID) == p.destinationID
    ensures Lookup(PropertiesMap(rfc3339Nano, p), RequestIP) == p.requestIP
  {
  }

  /** receivedAt reads as its layout text, and the run, trace and encryption keys as
      their fields. */
  lemma PropertiesMapReadsLineage(rfc3339Nano: Layout, p: MessageProperties)
    ensures Lookup(PropertiesMap(rfc3339Nano, p), ReceivedAt) == rfc3339Nano.format(p.receivedAt)
    ensures Lookup(PropertiesMap(rfc3339Nano, p), SourceJobRunID) == p.sourceJobRunID
    ensures Lookup(PropertiesMap(rfc3339Nano, p), SourceTaskRunID) == p.sourceTaskRunID
    ensures Lookup(PropertiesMap(rfc3339Nano, p), TraceID) == p.traceID
    ensures Lookup(PropertiesMap(rfc3339Nano, p), Compression) == p.compression
    ensures Lookup(PropertiesMap(rfc3339Nano, p), Encryption) == p.encryption
    ensures Lookup(PropertiesMap(rfc3339Nano, p), EncryptionKeyID) == p.encryptionKeyID
  {
  }

  /** The webhook keys read as their fields on the webhook stage, and as "" otherwise. */
  lemma PropertiesMapReadsWebhook(rfc3339Nano: Layout, p: MessageProperties)
    ensures Lookup(PropertiesMap(rfc3339Nano, p), SourceType) == (if p.stage == StageWebhook then p.sourceType else "")
    ensures Lookup(PropertiesMap(rfc3339Nano, p), WebhookFailureReason) == (if p.stage == StageWebhook then p.webhookFailureReason else "")
    ensures Lookup(PropertiesMap(rfc3339Nano, p), Stage) == (if p.stage == StageWebhook then p.stage else "")
  {
  }

  /** isBot, botName and botURL read as their texts for bots, and as "" otherwise. */
  lemma PropertiesMapReadsBotStrings(rfc3339Nano: Layout, p: MessageProperties)
    ensures Lookup(PropertiesMap(rfc3339Nano, p), IsBot) == (if p.isBot then "true" else "")
    ensures Lookup(PropertiesMap(rfc3339Nano, p), BotName) == (if p.isBot then p.botName else "")
    ensures Lookup(PropertiesMap(rfc3339Nano, p), BotURL) == (if p.isBot then p.botURL else "")
  {
  }

  /** The two bot booleans read as strconv tokens for bots, and as "" otherwise. */
  lemma PropertiesMapReadsBotBooleans(rfc3339Nano: Layout, p: MessageProperties)
    ensures Lookup(PropertiesMap(rfc3339Nano, p), BotIsInvalidBrowser) == (if p.isBot then Strconv.FormatBool(p.botIsInvalidBrowser) else "")
    ensures Lookup(PropertiesMap(rfc3339Nano, p), NeedsBotEnrichment) == (if p.isBot then Strconv.FormatBool(p.needsBotEnrichment) else "")
  {
  }

  /** The property map of `p` reads as the property map of `p`. */
  lemma PropertiesMapReadsAs(rfc3339Nano: Layout, p: MessageProperties)
    ensures ReadsAs(rfc3339Nano, p, PropertiesMap(rfc3339Nano, p))
  {
    PropertiesMapReadsIdentifiers(rfc3339Nano, p);
    PropertiesMapReadsLineage(rfc3339Nano, p);
    PropertiesMapReadsWebhook(rfc3339Nano, p);
    PropertiesMapReadsBotStrings(rfc3339Nano, p);
    PropertiesMapReadsBotBooleans(rfc3339Nano, p);
  }

  /** The record assembled from a map that reads as the property map of `p` is the
      carried record. */
  lemma AssembleReadsAs(rfc3339Nano: Layout, p: MessageProperties, m: PropertyMap, t: Time)
    requires ReadsAs(rfc3339Nano, p, m)
    ensures Assemble(m, t, p.isBot, p.isBot && p.botIsInvalidBrowser,
                     p.isBot && p.needsBotEnrichment) == Carried(rfc3339Nano, p, t)
  {
  }

  /** Parsing a map that reads as the property map of `p` fails exactly when the
      receivedAt text does not parse back, and otherwise gives the carried record. */
  lemma DecodeReadsAs(rfc3339Nano: Layout, p: MessageProperties, m: PropertyMap)
    requires ReadsAs(rfc3339Nano, p, m)
    ensures var d := FromMapProperties(rfc3339Nano, m);
      var parsed := rfc3339Nano.parse(rfc3339Nano.format(p.receivedAt));
      if parsed.None? then d.err == Some(ReceivedAtError(rfc3339Nano.format(p.receivedAt)))
      else d == Decoded(Carried(rfc3339Nano, p, parsed.value), None)
  {
    assert Strconv.ParseBool(Strconv.FormatBool(p.botIsInvalidBrowser)) == Some(p.botIsInvalidBrowser);
    assert Strconv.ParseBool(Strconv.FormatBool(p.needsBotEnrichment)) == Some(p.needsBotEnrichment);
    var parsed := rfc3339Nano.parse(rfc3339Nano.format(p.receivedAt));
    if parsed.Some? {
      AssembleReadsAs(rfc3339Nano, p, m, parsed.value);
    }
  }

  /** Parsing the property map of `p` fails exactly when its receivedAt text does not
      parse back, and otherwise gives the carried record. */
  lemma DecodePropertiesMap(rfc3339Nano: Layout, p: MessageProperties)
    ensures var d := FromMapProperties(rfc3339Nano, PropertiesMap(rfc3339Nano, p));
      var parsed := rfc3339Nano.parse(rfc3339Nano.format(p.receivedAt));
      if parsed.None? then d.err == Some(ReceivedAtError(rfc3339Nano.format(p.receivedAt)))
      else d == Decoded(Carried(rfc3339Nano, p, parsed.value), None)
  {
    PropertiesMapReadsAs(rfc3339Nano, p);
    DecodeReadsAs(rfc3339Nano, p, PropertiesMap(rfc3339Nano, p));
  }

  /** Record side: converting to a map and back gives the record again, without error,
      exactly when the record is Encodable and its receivedAt survives the layout. */
  lemma RecordRoundTrip(rfc3339Nano: Layout, p: MessageProperties)
    ensures FromMapProperties(rfc3339Nano, PropertiesMap(rfc3339Nano, p)) == Decoded(p, None)
        <==> Encodable(p) && RoundTrips(rfc3339Nano, p.receivedAt)
  {
    DecodePropertiesMap(rfc3339Nano, p);
  }

  /** `text` is one of the two strings strconv.FormatBool writes. */
  predicate IsFormattedBool(text: string)
  {
    text == "true" || text == "false"
  }

  /** A property map in the form ToMapProperties writes: exactly the base keys, plus
      the webhook keys iff its stage reads "webhook", plus the bot keys iff its isBot
      reads "true"; a canonical receivedAt; and, for bots, bot booleans written as
      "true" or "false". */
  ghost predicate WellFormedMap(rfc3339Nano: Layout, m: PropertyMap)
  {
    var webhook := Lookup(m, Stage) == StageWebhook;
    var bot := Lookup(m, IsBot) == "true";
    && m.Keys == GroupKeys(webhook, bot)
    && Canonical(rfc3339Nano, Lookup(m, ReceivedAt))
    && (bot ==>
          IsFormattedBool(Lookup(m, BotIsInvalidBrowser)) &&
          IsFormattedBool(Lookup(m, NeedsBotEnrichment)))
  }

  /** The record a well-formed map decodes to. */
  ghost function WellFormedRecord(rfc3339Nano: Layout, m: PropertyMap): MessageProperties
    requires WellFormedMap(rfc3339Nano, m)
  {
    var bot := Lookup(m, IsBot) == "true";
    Assemble(m, rfc3339Nano.parse(Lookup(m, ReceivedAt)).value, bot,
             bot && Lookup(m, BotIsInvalidBrowser) == "true",
             bot && Lookup(m, NeedsBotEnrichment) == "true")
  }

  /** A well-formed map decodes without error. */
  lemma WellFormedDecodes(rfc3339Nano: Layout, m: PropertyMap)
    requires WellFormedMap(rfc3339Nano, m)
    ensures FromMapProperties(rfc3339Nano, m) == Decoded(WellFormedRecord(rfc3339Nano, m), None)
  {
    var webhook := Lookup(m, Stage) == StageWebhook;
    if Lookup(m, IsBot) == "true" {
      assert Lookup(m, IsBot) == Strconv.FormatBool(true);
      assert Lookup(m, BotIsInvalidBrowser) == Strconv.FormatBool(Lookup(m, BotIsInvalidBrowser) == "true");
      assert Lookup(m, NeedsBotEnrichment) == Strconv.FormatBool(Lookup(m, NeedsBotEnrichment) == "true");
    } else {
      assert IsBot !in GroupKeys(webhook, false);
    }
  }

  lemma WellFormedReadsBase(rfc3339Nano: Layout, m: PropertyMap)
    requires WellFormedMap(rfc3339Nano, m)
    ensures BaseReadsAs(rfc3339Nano, WellFormedRecord(rfc3339Nano, m), m)
  {
  }

  lemma WellFormedReadsWebhook(rfc3339Nano: Layout, m: PropertyMap)
    requires WellFormedMap(rfc3339Nano, m)
    ensures WebhookReadsAs(rfc3339Nano, WellFormedRecord(rfc3339Nano, m), m)
  {
    var bot := Lookup(m, IsBot) == "true";
    if Lookup(m, Stage) != StageWebhook {
      WebhookKeysOutside(bot);
    }
  }

  lemma WellFormedReadsBot(rfc3339Nano: Layout, m: PropertyMap)
    requires WellFormedMap(rfc3339Nano, m)
    ensures BotReadsAs(rfc3339Nano, WellFormedRecord(rfc3339Nano, m), m)
  {
    var webhook := Lookup(m, Stage) == StageWebhook;
    if Lookup(m, IsBot) != "true" {
      BotKeysOutside(webhook);
    }
  }

  /** Two maps with the same keys that read as the property map of the same record
      are equal. */
  lemma ReadsAsUnique(rfc3339Nano: Layout, p: MessageProperties, m1: PropertyMap, m2: PropertyMap)
    requires ReadsAs(rfc3339Nano, p, m1) && ReadsAs(rfc3339Nano, p, m2)
    requires m1.Keys == m2.Keys
    ensures m1 == m2
  {
    forall k | k in m1
      ensures m1[k] == m2[k]
    {
      assert Lookup(m1, k) == Lookup(m2, k) by {
        // A case split on the key: each predicate of ReadsAs fixes the text of its keys.
        match k
          case RequestType =>
          case RoutingKey =>
          case WorkspaceID =>
          case UserID =>
          case SourceID =>
          case DestinationID =>
          case RequestIP =>
          case ReceivedAt =>
          case SourceJobRunID =>
          case SourceTaskRunID =>
          case TraceID =>
          case Compression =>
          case Encryption =>
          case EncryptionKeyID =>
          case SourceType =>
          case WebhookFailureReason =>
          case Stage =>
          case IsBot =>
          case BotName =>
          case BotURL =>
          case BotIsInvalidBrowser =>
          case NeedsBotEnrichment =>
      }
    }
  }

  /** A map that reads as the property map of `p`, with its keys, is well formed when
      p's receivedAt survives the layout. */
  lemma ReadsAsWellFormed(rfc3339Nano: Layout, p: MessageProperties, m: PropertyMap)
    requires ReadsAs(rfc3339Nano, p, m)
    requires m.Keys == GroupKeys(p.stage == StageWebhook, p.isBot)
    requires RoundTrips(rfc3339Nano, p.receivedAt)
    ensures WellFormedMap(rfc3339Nano, m)
  {
    assert Lookup(m, Stage) == StageWebhook <==> p.stage == StageWebhook;
    assert Lookup(m, IsBot) == "true" <==> p.isBot;
  }

  /** The receivedAt of a decoded record is what the map's receivedAt text parses to. */
  lemma DecodedReceivedAt(rfc3339Nano: Layout, m: PropertyMap)
    requires FromMapProperties(rfc3339Nano, m).err.None?
    ensures rfc3339Nano.parse(Lookup(m, ReceivedAt))
         == Some(FromMapProperties(rfc3339Nano, m).properties.receivedAt)
  {
  }

  /** A map that decodes and is written back unchanged is well formed. */
  lemma RewrittenIsWellFormed(rfc3339Nano: Layout, m: PropertyMap)
    requires FromMapProperties(rfc3339Nano, m).err.None?
    requires PropertiesMap(rfc3339Nano, FromMapProperties(rfc3339Nano, m).properties) == m
    ensures WellFormedMap(rfc3339Nano, m)
  {
    var p := FromMapProperties(rfc3339Nano, m).properties;
    DecodedReceivedAt(rfc3339Nano, m);
    PropertiesMapReadsAs(rfc3339Nano, p);
    PropertiesMapKeys(rfc3339Nano, p);
    EntryKeysByGroup(p);
    ReadsAsWellFormed(rfc3339Nano, p, m);
  }

  /** Map side: parsing a map and writing it back reproduces it, without error,
      exactly when the map is well formed. */
  lemma MapRoundTrip(rfc3339Nano: Layout, m: PropertyMap)
    ensures (FromMapProperties(rfc3339Nano, m).err.None? &&
             PropertiesMap(rfc3339Nano, FromMapProperties(rfc3339Nano, m).properties) == m)
        <==> WellFormedMap(rfc3339Nano, m)
  {
    var p := FromMapProperties(rfc3339Nano, m).properties;
    if WellFormedMap(rfc3339Nano, m) {
      WellFormedDecodes(rfc3339Nano, m);
      assert p == WellFormedRecord(rfc3339Nano, m);
      WellFormedReadsBase(rfc3339Nano, m);
      WellFormedReadsWebhook(rfc3339Nano, m);
      WellFormedReadsBot(rfc3339Nano, m);
      PropertiesMapReadsAs(rfc3339Nano, p);
      PropertiesMapKeys(rfc3339Nano, p);
      EntryKeysByGroup(p);
      ReadsAsUnique(rfc3339Nano, p, PropertiesMap(rfc3339Nano, p), m);
    }
    if FromMapProperties(rfc3339Nano, m).err.None? && PropertiesMap(rfc3339Nano, p) == m {
      RewrittenIsWellFormed(rfc3339Nano, m);
    }
  }

  // ---------------------------------------------------------------------------
  // Go's string-keyed map

  /** The map[string]string the Go functions take and return: its keys are strings,
      so it may carry keys that name no property. */
  type AttributeMap = map<string, string>

  /** The key a string names, if any. */
  function KeyNamed(s: string): (k: Option<Key>)
    ensures k.Some? ==> Name(k.value) == s
  {
    if s == "requestType" then Some(RequestType)
    else if s == "routingKey" then Some(RoutingKey)
    else if s == "workspaceID" then Some(WorkspaceID)
    else if s == "userID" then Some(UserID)
    else if s == "sourceID" then Some(SourceID)
    else if s == "destinationID" then Some(DestinationID)
    else if s == "requestIP" then Some(RequestIP)
    else if s == "receivedAt" then Some(ReceivedAt)
    else if s == "sourceJobRunID" then Some(SourceJobRunID)
    else if s == "sourceTaskRunID" then Some(SourceTaskRunID)
    else if s == "traceID" then Some(TraceID)
    else if s == "compression" then Some(Compression)
    else if s == "encryption" then Some(Encryption)
    else if s == "encryptionKeyID" then Some(EncryptionKeyID)
    else if s == "sourceType" then Some(SourceType)
    else if s == "webhookFailureReason" then Some(WebhookFailureReason)
    else if s == "stage" then Some(Stage)
    else if s == "isBot" then Some(IsBot)
    else if s == "botName" then Some(BotName)
    else if s == "botURL" then Some(BotURL)
    else if s == "botIsInvalidBrowser" then Some(BotIsInvalidBrowser)
    else if s == "needsBotEnrichment" then Some(NeedsBotEnrichment)
    else None
  }

  /** Every key's name names that key. */
  lemma KeyNamedName(k: Key)
    ensures KeyNamed(Name(k)) == Some(k)
  {
  }

  /** What the Go code reads from `attrs`: each key's text under its name. Keys that
      name no property are never read. */
  function PropertyMapOf(attrs: AttributeMap): (m: PropertyMap)
    ensures forall k :: Lookup(m, k) == Lookup(attrs, Name(k))
  {
    map k: Key | Name(k) in attrs :: attrs[Name(k)]
  }

  /** The map the Go code writes for property map `m`: each entry under its key's name. */
  function AttributesOf(m: PropertyMap): (attrs: AttributeMap)
    ensures attrs.Keys == set k | k in m :: Name(k)
    ensures forall k :: k in m ==> attrs[Name(k)] == m[k]
  {
    NameInjective();
    map k | k in m :: Name(k) := m[k]
  }

  /** Reading back the map written for `m` gives `m`. */
  lemma PropertyMapOfAttributes(m: PropertyMap)
    ensures PropertyMapOf(AttributesOf(m)) == m
  {
    var m' := PropertyMapOf(AttributesOf(m));
    forall k
      ensures k in m' <==> k in m
    {
      NameInjective();
    }
    forall k | k in m
      ensures m'[k] == m[k]
    {
      assert Lookup(m', k) == Lookup(AttributesOf(m), Name(k));
    }
  }

  /** Rewriting what was read from `attrs` gives `attrs` back exactly when every key of
      `attrs` names a property; any other key is dropped. */
  lemma AttributesOfPropertyMap(attrs: AttributeMap)
    ensures AttributesOf(PropertyMapOf(attrs)) == attrs <==> forall s :: s in attrs ==> KeyNamed(s).Some?
  {
    var m := PropertyMapOf(attrs);
    var a := AttributesOf(m);
    if forall s :: s in attrs ==> KeyNamed(s).Some? {
      forall s
        ensures s in a <==> s in attrs
      {
        if s in attrs {
          var k := KeyNamed(s).value;
          assert Lookup(m, k) == Lookup(attrs, Name(k));
          assert k in m;
        }
      }
      forall s | s in a
        ensures a[s] == attrs[s]
      {
        var k :| k in m && Name(k) == s;
        assert Lookup(m, k) == Lookup(attrs, Name(k));
      }
    }
    if a == attrs {
      forall s | s in attrs
        ensures KeyNamed(s).Some?
      {
        var k :| k in m && Name(k) == s;
        KeyNamedName(k);
      }
    }
  }

  /** The record side of the round trip holds for Go's string-keyed map just as for
      the property map: the written map is read back through the same keys. */
  lemma AttributeRecordRoundTrip(rfc3339Nano: Layout, p: MessageProperties)
    ensures FromMapProperties(rfc3339Nano, PropertyMapOf(AttributesOf(PropertiesMap(rfc3339Nano, p))))
         == Decoded(p, None)
        <==> Encodable(p) && RoundTrips(rfc3339Nano, p.receivedAt)
  {
    PropertyMapOfAttributes(PropertiesMap(rfc3339Nano, p));
    RecordRoundTrip(rfc3339Nano, p);
  }

  /** Map side on Go's string-keyed map: parsing `attrs` and writing the record back
      reproduces `attrs`, without error, exactly when every key of `attrs` names a
      property and the property map it holds is well formed. A map with any extra
      key never comes back whole. */
  lemma AttributeMapRoundTrip(rfc3339Nano: Layout, attrs: AttributeMap)
    ensures var d := FromMapProperties(rfc3339Nano, PropertyMapOf(attrs));
      (d.err.None? && AttributesOf(PropertiesMap(rfc3339Nano, d.properties)) == attrs)
        <==> (forall s :: s in attrs ==> KeyNamed(s).Some?)
             && WellFormedMap(rfc3339Nano, PropertyMapOf(attrs))
  {
    var m := PropertyMapOf(attrs);
    var d := FromMapProperties(rfc3339Nano, m);
    var written := PropertiesMap(rfc3339Nano, d.properties);
    MapRoundTrip(rfc3339Nano, m);
    AttributesOfPropertyMap(attrs);
    if d.err.None? && AttributesOf(written) == attrs {
      PropertyMapOfAttributes(written);
      assert written == m;
    }
  }

  // ---------------------------------------------------------------------------
  // Logger fields

  /** A logger field: a key with a string or a bool value. */
  datatype Field = StringField(key: Key, text: string) | BoolField(key: Key, flag: bool)

  /** The text a field's value takes in the property map. */
  function FieldText(f: Field): string
  {
    match f
    case StringField(_, text) => text
    case BoolField(_, flag) => Strconv.FormatBool(flag)
  }

  /** The field LoggerFields logs for key `k`: the bool fields as bools, every other
      key with the text the property map writes for it. */
  function LoggerField(rfc3339Nano: Layout, p: MessageProperties, k: Key): (f: Field)
    ensures f.key == k
  {
    match k
    case IsBot => BoolField(IsBot, p.isBot)
    case BotIsInvalidBrowser => BoolField(BotIsInvalidBrowser, p.botIsInvalidBrowser)
    case NeedsBotEnrichment => BoolField(NeedsBotEnrichment, p.needsBotEnrichment)
    case _ => StringField(k, EntryText(rfc3339Nano, p, k))
  }

  /** The keys LoggerFields logs on the webhook stage, in order. */
  const WebhookLogKeys: seq<Key> := [SourceType, WebhookFailureReason, Stage]

  /** The keys LoggerFields always logs, in order: the 14 base keys, then isBot. */
  const BaseLogKeys: seq<Key> := [
    RequestType, RoutingKey, WorkspaceID, UserID, SourceID, DestinationID, RequestIP,
    ReceivedAt, SourceJobRunID, SourceTaskRunID, TraceID, Compression, Encryption,
    EncryptionKeyID, IsBot]

  /** The keys LoggerFields logs for bots, in order. */
  const BotLogKeys: seq<Key> := [BotName, BotURL, BotIsInvalidBrowser, NeedsBotEnrichment]

  /** The keys logged for `p`, in order: the webhook keys first when on the webhook
      stage, then the base keys and isBot, then the bot keys for bots. */
  function LoggerKeys(p: MessageProperties): seq<Key>
  {
    (if p.stage == StageWebhook then WebhookLogKeys else [])
    + BaseLogKeys
    + (if p.isBot then BotLogKeys else [])
  }

  /** The fields of `keys`, one per key, in the same order. */
  function FieldsFor(rfc3339Nano: Layout, p: MessageProperties, keys: seq<Key>): seq<Field>
  {
    seq(|keys|, i requires 0 <= i < |keys| => LoggerField(rfc3339Nano, p, keys[i]))
  }

  /** The logger fields of `p`. */
  function LoggerFieldsOf(rfc3339Nano: Layout, p: MessageProperties): seq<Field>
  {
    FieldsFor(rfc3339Nano, p, LoggerKeys(p))
  }

  lemma FieldsForConcat(rfc3339Nano: Layout, p: MessageProperties, a: seq<Key>, b: seq<Key>)
    ensures FieldsFor(rfc3339Nano, p, a + b)
         == FieldsFor(rfc3339Nano, p, a) + FieldsFor(rfc3339Nano, p, b)
  {
  }

  lemma WebhookFieldsLiteral(rfc3339Nano: Layout, p: MessageProperties)
    ensures FieldsFor(rfc3339Nano, p, WebhookLogKeys)
         == [StringField(SourceType, p.sourceType),
             StringField(WebhookFailureReason, p.webhookFailureReason),
             StringField(Stage, p.stage)]
  {
  }

  lemma BaseFieldsLiteral(rfc3339Nano: Layout, p: MessageProperties)
    ensures FieldsFor(rfc3339Nano, p, BaseLogKeys)
         == [StringField(RequestType, p.requestType),
             StringField(RoutingKey, p.routingKey),
             StringField(WorkspaceID, p.workspaceID),
             StringField(UserID, p.userID),
             StringField(SourceID, p.sourceID),
             StringField(DestinationID, p.destinationID),
             StringField(RequestIP, p.requestIP),
             StringField(ReceivedAt, rfc3339Nano.format(p.receivedAt)),
             StringField(SourceJobRunID, p.sourceJobRunID),
             StringField(SourceTaskRunID, p.sourceTaskRunID),
             StringField(TraceID, p.traceID),
             StringField(Compression, p.compression),
             StringField(Encryption, p.encryption),
             StringField(EncryptionKeyID, p.encryptionKeyID),
             BoolField(IsBot, p.isBot)]
  {
  }

  lemma BotFieldsLiteral(rfc3339Nano: Layout, p: MessageProperties)
    ensures FieldsFor(rfc3339Nano, p, BotLogKeys)
         == [StringField(BotName, p.botName),
             StringField(BotURL, p.botURL),
             BoolField(BotIsInvalidBrowser, p.botIsInvalidBrowser),
             BoolField(NeedsBotEnrichment, p.needsBotEnrichment)]
  {
  }

  /** LoggerFields: appends the webhook fields on the webhook stage, then the base
      fields and isBot, then the bot fields for bots. */
  method LoggerFields(rfc3339Nano: Layout, p: MessageProperties) returns (fields: seq<Field>)
    ensures fields == LoggerFieldsOf(rfc3339Nano, p)
  {
    fields := [];
    if p.stage == StageWebhook {
      fields := fields + [
        StringField(SourceType, p.sourceType),
        StringField(WebhookFailureReason, p.webhookFailureReason),
        StringField(Stage, p.stage)];
      WebhookFieldsLiteral(rfc3339Nano, p);
    }
    fields := fields + [
      StringField(RequestType, p.requestType),
      StringField(RoutingKey, p.routingKey),
      StringField(WorkspaceID, p.workspaceID),
      StringField(UserID, p.userID),
      StringField(SourceID, p.sourceID),
      StringField(DestinationID, p.destinationID),
      StringField(RequestIP, p.requestIP),
      StringField(ReceivedAt, rfc3339Nano.format(p.receivedAt)),
      StringField(SourceJobRunID, p.sourceJobRunID),
      StringField(SourceTaskRunID, p.sourceTaskRunID),
      StringField(TraceID, p.traceID),
      StringField(Compression, p.compression),
      StringField(Encryption, p.encryption),
      StringField(EncryptionKeyID, p.encryptionKeyID),
      BoolField(IsBot, p.isBot)];
    BaseFieldsLiteral(rfc3339Nano, p);
    if p.isBot {
      fields := fields + [
        StringField(BotName, p.botName),
        StringField(BotURL, p.botURL),
        BoolField(BotIsInvalidBrowser, p.botIsInvalidBrowser),
        BoolField(NeedsBotEnrichment, p.needsBotEnrichment)];
      BotFieldsLiteral(rfc3339Nano, p);
    }
    ghost var w := if p.stage == StageWebhook then WebhookLogKeys else [];
    ghost var b := if p.isBot then BotLogKeys else [];
    FieldsForConcat(rfc3339Nano, p, w, BaseLogKeys);
    FieldsForConcat(rfc3339Nano, p, w + BaseLogKeys, b);
  }

  /** There are 15 logger fields always (the base fields and isBot), 3 more on the
      webhook stage and 4 more for bots. */
  lemma LoggerFieldsCount(rfc3339Nano: Layout, p: MessageProperties)
    ensures |LoggerFieldsOf(rfc3339Nano, p)|
         == 15 + (if p.stage == StageWebhook then 3 else 0) + (if p.isBot then 4 else 0)
  {
  }

  /** How each key group is written: the base keys always, the webhook keys on the
      webhook stage, the bot keys for bots. */
  lemma WrittenByGroup(p: MessageProperties, k: Key)
    ensures k in BaseKeys ==> Written(p, k)
    ensures k in WebhookKeys ==> (Written(p, k) <==> p.stage == StageWebhook)
    ensures k in BotKeys ==> (Written(p, k) <==> p.isBot)
  {
  }

  lemma WebhookLogKeysGroup()
    ensures forall k :: k in WebhookLogKeys <==> k in WebhookKeys
  {
  }

  lemma BaseLogKeysGroup()
    ensures forall k :: k in BaseLogKeys <==> k in BaseKeys || k == IsBot
  {
  }

  lemma BotLogKeysGroup()
    ensures forall k :: k in BotLogKeys <==> k in BotKeys && k != IsBot
  {
  }

  /** A key is logged exactly when it is written to the property map or is isBot. */
  lemma LoggedKeys(p: MessageProperties, k: Key)
    ensures k in LoggerKeys(p) <==> Written(p, k) || k == IsBot
  {
    WebhookLogKeysGroup();
    BaseLogKeysGroup();
    BotLogKeysGroup();
    WrittenByGroup(p, k);
    KeyGroupsCover(k);
  }

  /** A field is among the fields of `keys` exactly when its key is, and it is the
      field of its key. */
  lemma FieldsForMember(rfc3339Nano: Layout, p: MessageProperties, keys: seq<Key>, f: Field)
    ensures f in FieldsFor(rfc3339Nano, p, keys)
        <==> f.key in keys && f == LoggerField(rfc3339Nano, p, f.key)
  {
    var fs := FieldsFor(rfc3339Nano, p, keys);
    if f in fs {
      var i :| 0 <= i < |fs| && fs[i] == f;
      assert keys[i] == f.key;
    }
    if f.key in keys && f == LoggerField(rfc3339Nano, p, f.key) {
      var i :| 0 <= i < |keys| && keys[i] == f.key;
      assert fs[i] == f;
    }
  }

  /** The logged fields are exactly the fields of the keys written to the property
      map, plus the isBot field. */
  lemma LoggedFields(rfc3339Nano: Layout, p: MessageProperties, f: Field)
    ensures f in LoggerFieldsOf(rfc3339Nano, p)
        <==> (Written(p, f.key) || f.key == IsBot) && f == LoggerField(rfc3339Nano, p, f.key)
  {
    FieldsForMember(rfc3339Nano, p, LoggerKeys(p), f);
    LoggedKeys(p, f.key);
  }

  /** A field agrees with map `m`: when its key is in `m` it carries the map's text, and
      the only field that may be missing from `m` is isBot = false. */
  ghost predicate FieldAgrees(m: PropertyMap, f: Field)
  {
    && (f.key in m ==> m[f.key] == FieldText(f))
    && (f.key !in m ==> f == BoolField(IsBot, false))
  }

  /** The field of a logged key agrees with the property map. */
  lemma LoggerFieldAgrees(rfc3339Nano: Layout, p: MessageProperties, k: Key)
    requires Written(p, k) || k == IsBot
    ensures FieldAgrees(PropertiesMap(rfc3339Nano, p), LoggerField(rfc3339Nano, p, k))
  {
    WrittenIsEntryKey(p, k);
  }

  /** The logger fields and the property map agree: every field whose key is in the
      map carries the map's text, and the only field missing from the map is
      isBot = false. */
  lemma LoggerFieldsAgreeWithMap(rfc3339Nano: Layout, p: MessageProperties)
    ensures forall f :: f in LoggerFieldsOf(rfc3339Nano, p) ==>
              FieldAgrees(PropertiesMap(rfc3339Nano, p), f)
  {
    forall f | f in LoggerFieldsOf(rfc3339Nano, p)
      ensures FieldAgrees(PropertiesMap(rfc3339Nano, p), f)
    {
      LoggedFields(rfc3339Nano, p, f);
      LoggerFieldAgrees(rfc3339Nano, p, f.key);
    }
  }

  // ---------------------------------------------------------------------------
  // Validation

  /** Why a validator rejects properties: the encryption option's error, the required
      fields that are not set (in declaration order), or an error of another option. */
  datatype ValidationError =
    | EncryptionKeyIDRequired
    | RequiredFieldsMissing(fields: seq<Key>)
    | OptionError(reason: string)

  /** A validator option, run on the properties before the required-field check. */
  type PropertiesOption = MessageProperties -> Outcome<ValidationError>

  /** The keys of the fields the struct validator requires, in declaration order. */
  const RequiredKeys: seq<Key> := [RequestType, RoutingKey, WorkspaceID, SourceID, ReceivedAt, RequestIP]

  /** Whether the field of required key `k` holds a non-zero value: a non-empty string,
      or a receivedAt other than the zero time. Keys that are not required count as set. */
  predicate IsSet(p: MessageProperties, k: Key)
  {
    match k
    case RequestType => p.requestType != ""
    case RoutingKey => p.routingKey != ""
    case WorkspaceID => p.workspaceID != ""
    case SourceID => p.sourceID != ""
    case ReceivedAt => p.receivedAt != ZeroTime
    case RequestIP => p.requestIP != ""
    case _ => true
  }

  /** The keys of `keys` whose fields are not set, in the same order. */
  function Unset(p: MessageProperties, keys: seq<Key>): (unset: seq<Key>)
    ensures forall k :: k in unset <==> k in keys && !IsSet(p, k)
    ensures |unset| <= |keys|
  {
    if keys == [] then []
    else
      assert forall k :: k in keys <==> k == keys[0] || k in keys[1..];
      (if IsSet(p, keys[0]) then [] else [keys[0]]) + Unset(p, keys[1..])
  }

  /** The required fields that are not set: the list is empty exactly when the five
      required strings are non-empty and receivedAt is not the zero time, and it names
      exactly the required fields that are zero. */
  function MissingRequiredFields(p: MessageProperties): (missing: seq<Key>)
    ensures forall k :: k in missing <==> k in RequiredKeys && !IsSet(p, k)
    ensures missing == [] <==>
      && p.requestType != "" && p.routingKey != "" && p.workspaceID != ""
      && p.sourceID != "" && p.receivedAt != ZeroTime && p.requestIP != ""
  {
    var missing := Unset(p, RequiredKeys);
    assert missing != [] ==> missing[0] in RequiredKeys && !IsSet(p, missing[0]);
    assert forall k :: k in RequiredKeys ==>
      k == RequestType || k == RoutingKey || k == WorkspaceID || k == SourceID || k == ReceivedAt || k == RequestIP;
    assert RequestType in RequiredKeys && RoutingKey in RequiredKeys && WorkspaceID in RequiredKeys;
    assert SourceID in RequiredKeys && ReceivedAt in RequiredKeys && RequestIP in RequiredKeys;
    assert missing == [] ==>
      RequestType !in missing && RoutingKey !in missing && WorkspaceID !in missing &&
      SourceID !in missing && ReceivedAt !in missing && RequestIP !in missing;
    missing
  }

  /** The required-field check of the struct validator: it passes exactly when every
      required field is set, and otherwise names the required fields that are not. */
  function CheckRequired(p: MessageProperties): (r: Outcome<ValidationError>)
    ensures r.Pass? <==>
      && p.requestType != "" && p.routingKey != "" && p.workspaceID != ""
      && p.sourceID != "" && p.receivedAt != ZeroTime && p.requestIP != ""
    ensures r.Fail? ==>
      && r.error.RequiredFieldsMissing? && r.error.fields != []
      && forall k :: k in r.error.fields <==> k in RequiredKeys && !IsSet(p, k)
  {
    var missing := MissingRequiredFields(p);
    if missing == [] then Pass else Fail(RequiredFieldsMissing(missing))
  }

  /** The check behind WithEncryptionPropertiesValidator. */
  function CheckEncryption(p: MessageProperties): Outcome<ValidationError>
  {
    if p.encryption != "" && p.encryptionKeyID == "" then Fail(EncryptionKeyIDRequired) else Pass
  }

  /** WithEncryptionPropertiesValidator: an option that fails exactly when an encryption
      is set without a key ID. */
  function WithEncryptionPropertiesValidator(): (option: PropertiesOption)
    ensures forall p :: option(p).Fail? <==> p.encryption != "" && p.encryptionKeyID == ""
    ensures forall p :: option(p).Fail? ==> option(p).error == EncryptionKeyIDRequired
  {
    CheckEncryption
  }

  /** What the validator of NewMessagePropertiesValidator(options...) returns for `p`:
      the outcome of the first option that fails, and the required-field check when
      every option passes. */
  function Validated(options: seq<PropertiesOption>, p: MessageProperties): (r: Outcome<ValidationError>)
    ensures r.Fail? <==> (exists j :: 0 <= j < |options| && options[j](p).Fail?) || CheckRequired(p).Fail?
  {
    if options == [] then CheckRequired(p)
    else if options[0](p).Fail? then options[0](p)
    else
      assert forall j :: 0 <= j < |options[1..]| ==> options[1..][j] == options[j + 1];
      Validated(options[1..], p)
  }

  /** When every option passes, the required-field check decides. */
  lemma {:induction false} AllOptionsPass(options: seq<PropertiesOption>, p: MessageProperties)
    requires forall k :: 0 <= k < |options| ==> options[k](p).Pass?
    ensures Validated(options, p) == CheckRequired(p)
  {
    if options != [] {
      assert forall k :: 0 <= k < |options[1..]| ==> options[1..][k] == options[k + 1];
      AllOptionsPass(options[1..], p);
    }
  }

  /** The first option that fails decides, before any required-field check. */
  lemma {:induction false} FirstFailingOptionWins(options: seq<PropertiesOption>, p: MessageProperties, k: nat)
    requires k < |options| && options[k](p).Fail?
    requires forall j :: 0 <= j < k ==> options[j](p).Pass?
    ensures Validated(options, p) == options[k](p)
  {
    if k > 0 {
      assert forall j :: 0 <= j < k - 1 ==> options[1..][j] == options[j + 1];
      FirstFailingOptionWins(options[1..], p, k - 1);
    }
  }

  /** A validator fails whenever one of its options fails, whatever the required
      fields hold: with the outcome of that option or of an earlier one. */
  lemma {:induction false} FailingOptionFails(options: seq<PropertiesOption>, p: MessageProperties, k: nat)
    requires k < |options| && options[k](p).Fail?
    ensures exists j :: 0 <= j <= k && Validated(options, p) == options[j](p)
  {
    if !options[0](p).Fail? {
      assert options[1..][k - 1] == options[k];
      FailingOptionFails(options[1..], p, k - 1);
      var j :| 0 <= j <= k - 1 && Validated(options[1..], p) == options[1..][j](p);
      assert Validated(options, p) == options[j + 1](p);
    }
  }

  /** Properties with an encryption but no key ID are rejected for the key ID by a
      validator built with WithEncryptionPropertiesValidator, even when required
      fields are missing. */
  lemma EncryptionCheckedBeforeRequired(p: MessageProperties)
    requires p.encryption != "" && p.encryptionKeyID == ""
    ensures Validated([WithEncryptionPropertiesValidator()], p) == Fail(EncryptionKeyIDRequired)
  {
  }

  /** The validator returned by NewMessagePropertiesValidator(options...), applied to
      `p`: runs the options in order, returns the first failure, and runs the
      required-field check only when every option passes. */
  method ValidateMessageProperties(options: seq<PropertiesOption>, p: MessageProperties)
    returns (r: Outcome<ValidationError>)
    ensures r == Validated(options, p)
  {
    var i := 0;
    while i < |options|
      invariant 0 <= i <= |options|
      invariant forall j :: 0 <= j < i ==> options[j](p).Pass?
    {
      var outcome := options[i](p);
      if outcome.Fail? {
        FirstFailingOptionWins(options, p, i);
        return outcome;
      }
      i := i + 1;
    }
    AllOptionsPass(options, p);
    r := CheckRequired(p);
  }
}
