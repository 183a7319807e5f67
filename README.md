# rudder-schemas in Dafny: message properties, webhook properties, partition migrations

This project models three pieces of the Go package set of `rudder-schemas` and
proves their contracts:

- **Message-property codec** (`go/stream/message.go`), in `stream_message.dfy`,
  module `StreamMessage`. It models the `MessageProperties` record and the two
  conversions between it and a broker message's flat attribute map.
  - `ToMapProperties` always writes 14 base keys. It adds the 3 webhook keys
    only when `Stage == "webhook"`. It adds the 5 bot keys only when `IsBot`.
  - `FromMapProperties` parses the map back. It stops early with the zero
    record and an error when `receivedAt` does not parse. It does the same for
    a malformed `isBot`, and, for bots only, a malformed bot boolean.
  - The file also models the logger fields, the encryption option, and the
    properties validator. The validator runs its options in order before the
    required-field check.
- **Webhook-property codec** (`go/stream/webhook_message.go`), in
  `stream_webhook.dfy`, module `StreamWebhook`. It is a five-field record
  converted to and from a string map, and it never fails.
- **Partition migration records** (`go/cluster/migration.go`), in
  `cluster_migration.dfy`, module `ClusterMigration`. It covers the migration
  and job status values, the distinct source and target nodes of a
  migration's jobs, and the three acknowledgement constructors.

Support modules:
- `wrappers.dfy` holds `Option` and `Outcome`. `Outcome` stands for Go's nil or
  non-nil `error`.
- `go_runtime.dfy` holds what the core uses from Go's standard library:
  - `GoMap.Lookup` is `m[k]` with the zero-value default.
  - `Strconv` models `strconv.FormatBool`, and `strconv.ParseBool` as its
    documented token table.
  - `GoTime` holds a time value and an RFC 3339 text layout.

How the model is put together:
- Time formatting and parsing (Go's `time.RFC3339Nano`) are a parameter,
  `rfc3339Nano: GoTime.Layout`. It is a pair of functions the model does not
  interpret. No lemma assumes that the layout round-trips. Each lemma that
  needs it states it as a hypothesis: `GoTime.Canonical` for a text, or
  `GoTime.RoundTrips` for a time.
- Inside `StreamMessage`, a property map is keyed by an enumeration `Key` of
  the 22 property keys. `Name` gives the string each key is written as.
  Go's `map[string]string` is `AttributeMap`. `PropertyMapOf` gives what the
  Go code reads from such a map. `AttributesOf` gives what it writes.
  `AttributeMapRoundTrip` states the map-side round trip on string-keyed maps.
  It shows that any extra key is dropped.
- `FromMapProperties` returns `Decoded(properties, err)`, which mirrors Go's
  `(MessageProperties, error)` pair. On every error path the properties are
  the zero record.
- `ToMapProperties`, `LoggerFields`, and the validator loop of
  `NewMessagePropertiesValidator` change local state step by step. They are
  methods, proved against the functions `PropertiesMap`, `LoggerFieldsOf`, and
  `Validated`. The lemmas state their properties on those functions.

`go/cluster/migration_test.go` uses names that `go/cluster/migration.go` does
not define. The model follows `migration.go`:
- `migration.go` has a plain `AckKey` string field on the migration
  (line 21) and on both commands (lines 68, 86). The tests use an
  `AckKeyPrefix` field and an `AckKey(name)` method instead.
- The router command in `migration.go` is `ReloadRouterCommand` (line 85), and
  its ack carries only `NodeName`. The tests name it `ReloadSrcRouterCommand`.

The Go tests in `go/stream/message_test.go` differ from `go/stream/message.go`
in three places. The model follows `message.go` in each:
- `go/stream/message_test.go:310` passes an option to `NewMessageValidator`,
  which takes none.
- `go/stream/message_test.go:326` expects different error text from
  `go/stream/message.go:234`.
- The logger-field tests leave out the `isBot` field, but
  `go/stream/message.go:107` always adds it.

## Model

| member | source | states |
|---|---|---|
| `StreamMessage.NameInjective` | go/stream/message.go:17-38 | the 22 map key strings are pairwise distinct |
| `StreamMessage.EntryKeysByGroup` | go/stream/message.go:181-208 | the keys written for a record are the base keys, plus the webhook keys iff the stage is "webhook", plus the bot keys iff isBot |
| `StreamMessage.ToMapProperties` | go/stream/message.go:180-210 | building the base map and then inserting the gated keys in place yields exactly the property map of the record |
| `StreamMessage.PropertiesMapKeys` | go/stream/message.go:180-210 | the property map's key set is exactly the keys written for the record |
| `StreamMessage.BaseKeysAlwaysPresent` | go/stream/message.go:181-196 | the 14 base keys are present whatever the field values |
| `StreamMessage.WebhookKeysIffWebhookStage` | go/stream/message.go:197-201 | sourceType, webhookFailureReason and stage are present iff Stage == "webhook"; any other stage is not written at all |
| `StreamMessage.BotKeysIffBot` | go/stream/message.go:202-208 | the five bot keys are present iff IsBot |
| `StreamMessage.BotEntriesAreTokens` | go/stream/message.go:202-208 | for bots, isBot is written "true" and both bot booleans exactly "true" or "false" by value |
| `StreamMessage.LookupPropertiesMap` | go/stream/message.go:180-210 | reading any key of the written map gives its text when written and "" otherwise |
| `Strconv.ParseBool` | go/stream/message.go:128 | strconv.ParseBool reads exactly 1, t, T, TRUE, true, True as true and 0, f, F, FALSE, false, False as false; anything else, "" included, is an error |
| `Strconv.FormatBool` | go/stream/message.go:206-207 | strconv.FormatBool writes "true" or "false", and ParseBool reads it back to the same bool |
| `StreamMessage.OptionalBool` | go/stream/message.go:127-132 | an optional bool text reads as a bool exactly when it is empty or a strconv token, and as true exactly when ParseBool reads it as true; the empty text is false |
| `StreamMessage.Assemble` | go/stream/message.go:152-176 | the assembled record keeps the parsed receivedAt and bot booleans, takes every string field (stage, sourceType and webhookFailureReason included, whatever the stage) from the map under its own key, and takes botName and botURL from the map for bots and leaves them empty otherwise |
| `StreamMessage.FromMapProperties` | go/stream/message.go:118-177 | every error result carries the zero record; every successful result is the record assembled from the map with its parsed receivedAt and bot booleans |
| `StreamMessage.ReceivedAtFailsFirst` | go/stream/message.go:119-122 | an unparsable receivedAt yields the zero record and a receivedAt error before anything else is read; a receivedAt error arises iff receivedAt does not parse |
| `StreamMessage.AbsentReceivedAtFails` | go/stream/message.go:119-122 | an absent receivedAt is read as "" and fails when the layout rejects "" |
| `StreamMessage.IsBotParsing` | go/stream/message.go:124-132 | a non-empty isBot that is not a bool token is an error; empty or absent isBot means false; on success isBot is true iff its text parses as true |
| `StreamMessage.BotBooleansParsing` | go/stream/message.go:137-150 | on success for a bot, botIsInvalidBrowser and needsBotEnrichment are each true exactly when strconv.ParseBool reads their text as true |
| `StreamMessage.BotFieldsIgnoredUnlessBot` | go/stream/message.go:134-151 | when isBot reads false, the bot fields come back empty and false with no error, whatever the map holds |
| `StreamMessage.FromMapPropertiesSucceeds` | go/stream/message.go:118-151 | parsing succeeds iff receivedAt parses, isBot is empty or a bool token, and, for bots, both bot booleans are empty or bool tokens |
| `StreamMessage.DecodePropertiesMap` | go/stream/message.go:118-210 | parsing a written map fails only on the receivedAt text, and otherwise gives the record with non-webhook stage fields and non-bot fields cleared |
| `StreamMessage.RecordRoundTrip` | go/stream/message.go:118-210 | FromMap(ToMap(p)) == p without error iff the stage is "" or "webhook", webhook-only fields are empty off that stage, bot fields are empty unless IsBot, and receivedAt survives the layout |
| `StreamMessage.MapRoundTrip` | go/stream/message.go:118-210 | ToMap(FromMap(m)) == m without error iff m has exactly the base keys, the webhook keys iff stage reads "webhook", the bot keys iff isBot reads "true", a canonical receivedAt, and "true"/"false" bot booleans |
| `StreamMessage.KeyNamed` | go/stream/message.go:17-38 | a string names at most one key, the one written under it |
| `StreamMessage.PropertyMapOf` | go/stream/message.go:118-177 | what the Go code reads from a string-keyed map under each key is the map's value for that key's name |
| `StreamMessage.AttributesOf` | go/stream/message.go:180-210 | the string-keyed map written holds each entry under its key's name and no other key |
| `StreamMessage.PropertyMapOfAttributes` | go/stream/message.go:118-210 | reading back the string-keyed map written for a property map gives that property map |
| `StreamMessage.AttributesOfPropertyMap` | go/stream/message.go:118-210 | rewriting what was read from a string-keyed map reproduces it iff every key names a property |
| `StreamMessage.AttributeRecordRoundTrip` | go/stream/message.go:118-210 | the record-side round trip through Go's string-keyed map holds under the same conditions as RecordRoundTrip |
| `StreamMessage.AttributeMapRoundTrip` | go/stream/message.go:118-210 | the map-side round trip on Go's string-keyed map holds iff every key names a property and the map is well formed; a map with an extra key never comes back whole |
| `StreamMessage.LoggerField` | go/stream/message.go:93-113 | each logger field carries the key it was made for |
| `StreamMessage.LoggerFields` | go/stream/message.go:81-115 | appending webhook fields, base fields with isBot, then bot fields yields exactly the logger fields of the record |
| `StreamMessage.LoggerFieldsCount` | go/stream/message.go:81-115 | there are 15 fields always (14 base fields and isBot), 3 more iff Stage == "webhook" and 4 more iff IsBot |
| `StreamMessage.LoggedKeys` | go/stream/message.go:81-115 | a key is logged iff it is written to the property map or is isBot |
| `StreamMessage.LoggedFields` | go/stream/message.go:81-115 | the logged fields are exactly the fields of the written keys plus the isBot field |
| `StreamMessage.LoggerFieldsAgreeWithMap` | go/stream/message.go:81-115 | every logged field whose key is in the property map carries the map's text; the only field missing from the map is isBot = false |
| `StreamMessage.Unset` | go/stream/message.go:51-57 | the unset list holds exactly the listed keys whose fields are zero |
| `StreamMessage.MissingRequiredFields` | go/stream/message.go:51-57 | the missing-field list names exactly the required fields (RequestType, RoutingKey, WorkspaceID, SourceID, ReceivedAt, RequestIP) that are zero, and is empty iff the five strings are non-empty and receivedAt is not the zero time |
| `StreamMessage.CheckRequired` | go/stream/message.go:51-57 | the required-field check passes iff every required field is set, and otherwise names exactly the unset required fields |
| `StreamMessage.WithEncryptionPropertiesValidator` | go/stream/message.go:231-238 | the option fails exactly when Encryption is non-empty and EncryptionKeyID is empty |
| `StreamMessage.Validated` | go/stream/message.go:219-229 | the validator fails iff some option fails or the required-field check fails |
| `StreamMessage.AllOptionsPass` | go/stream/message.go:219-229 | when every option passes, the required-field check decides |
| `StreamMessage.FirstFailingOptionWins` | go/stream/message.go:219-229 | the first failing option's error is returned, before any required-field check |
| `StreamMessage.FailingOptionFails` | go/stream/message.go:219-229 | if any option fails, the validator fails with that option's error or an earlier one's, whatever the required fields hold |
| `StreamMessage.EncryptionCheckedBeforeRequired` | go/stream/message.go:219-238 | with the encryption option, encryption without a key ID is reported even when required fields are missing |
| `StreamMessage.ValidateMessageProperties` | go/stream/message.go:219-229 | the option loop with early return computes exactly the validator's outcome |
| `StreamWebhook.SharedKeyNames` | go/stream/webhook_message.go:8-12 | sourceType and stage are the same key strings as in the message map; "reason" is not a message-map key |
| `StreamWebhook.FromWebhookMapProperties` | go/stream/webhook_message.go:28-36 | the record read from a map, written back, holds each webhook key's value from the map, "" for an absent key, and no other key |
| `StreamWebhook.ToWebhookMapProperties` | go/stream/webhook_message.go:39-47 | the written map has exactly the keys workspaceID, sourceID, sourceType, reason and stage, whatever the field values |
| `StreamWebhook.HasRequiredProperties` | go/stream/webhook_message.go:19-25 | a record is valid iff every key of its written map carries a non-empty value |
| `StreamWebhook.WebhookMapHasExactlyFiveKeys` | go/stream/webhook_message.go:39-47 | the written map has exactly those five keys, and so five entries |
| `StreamWebhook.WebhookRecordRoundTrip` | go/stream/webhook_message.go:28-47 | FromWebhookMap(ToWebhookMap(p)) == p for every record |
| `StreamWebhook.WebhookMapRoundTrip` | go/stream/webhook_message.go:28-47 | ToWebhookMap(FromWebhookMap(m)) == m iff m's key set is exactly the five webhook keys |
| `StreamWebhook.MissingWebhookProperties` | go/stream/webhook_message.go:19-25 | the missing properties are among the five webhook keys |
| `StreamWebhook.RequiredPropertiesIffNoneMissing` | go/stream/webhook_message.go:19-25 | a record is valid iff no property is empty, and a key is missing iff the written map carries "" for it |
| `StreamWebhook.ValidRecordFromMap` | go/stream/webhook_message.go:19-36 | a record read from a map is valid iff the map has a non-empty value for every webhook key |
| `ClusterMigration.PartitionMigrationStatusRoundTrip` | go/cluster/migration.go:7-13 | each migration status string reads back as its status and as no other |
| `ClusterMigration.PartitionMigrationStatusStringInjective` | go/cluster/migration.go:7-13 | distinct migration statuses have distinct strings |
| `ClusterMigration.PartitionMigrationJobStatusRoundTrip` | go/cluster/migration.go:102-106 | each job status string reads back as its job status and as no other |
| `ClusterMigration.PartitionMigrationJobStatusStringInjective` | go/cluster/migration.go:102-106 | distinct job statuses have distinct strings |
| `ClusterMigration.Distinct` | go/cluster/migration.go:33-48 | the result holds exactly the elements of its input, with no duplicates |
| `ClusterMigration.PartitionMigration.SourceNodes` | go/cluster/migration.go:32-39 | every job's source node is in the result, every element is some job's source node, and none occurs twice |
| `ClusterMigration.PartitionMigration.TargetNodes` | go/cluster/migration.go:41-48 | every job's target node is in the result, every element is some job's target node, and none occurs twice |
| `ClusterMigration.NoJobsNoNodes` | go/cluster/migration.go:33-48 | a migration with no jobs has no source and no target nodes |
| `ClusterMigration.SourceAndTargetNode` | go/cluster/migration.go:32-48 | a node that is a source in one job and a target in another is in both results |
| `ClusterMigration.SourcesOfJobsFromNodeZero` | go/cluster/migration_test.go:44-47 | jobs (0→1), (0→2) have source set {0} |
| `ClusterMigration.TargetsOfJobsFromNodeZero` | go/cluster/migration_test.go:49-52 | jobs (0→1), (0→2) have target set {1, 2} |
| `ClusterMigration.PartitionMigration.Ack` | go/cluster/migration.go:50-56 | the ack carries exactly the given node index and node name; the migration is a value and is unchanged |
| `ClusterMigration.ReloadGatewayCommand.Ack` | go/cluster/migration.go:71-76 | the ack carries exactly the given node index and node name |
| `ClusterMigration.ReloadRouterCommand.Ack` | go/cluster/migration.go:89-93 | the ack carries exactly the given node name, and nothing else |

## Left out

- Time: `time.Parse` and `Time.Format` with RFC 3339 (section 5.6, with up to nine fractional digits) are a parameter that the model does not interpret. The round-trip is a hypothesis in each lemma that needs it, not a fact. A `Time` is reduced to whole Unix seconds, nanoseconds within the second (0 to 999999999) and a zone offset. The zero time is 0001-01-01T00:00:00Z.
- JSON marshalling, struct tags and `omitempty` are not modelled. They are library serialisation, not logic of these files.
- `go-playground/validator` is not modelled. "required" is a non-empty string or a non-zero time, and error messages are a list of field keys, not the library's text.
- `NewMessageValidator` and `NewWebhookMessageValidator` check the whole message, and their `Payload` (a `json.RawMessage`) is opaque. Only the property rules are modelled: `MissingRequiredFields` and `StreamWebhook.HasRequiredProperties`.
- `NewMessagePropertiesValidator` options: each option is a pure function of the properties. A Go option gets the properties by address and could change the properties before later options or the required check see them. That is not modelled.
- `LoggerFields`: a `logger.Field` is a key with a string or bool value. The field constructors of `rudder-go-kit` are not modelled.
- The capacity hints `messagePropertiesDefaultSize` and `messagePropertiesStageWebhookSize` are not modelled. They only size allocations.
- `StreamWebhook.FromWebhookMapProperties` returns the record alone, because its Go `error` result is always nil.
- `ClusterMigration.PartitionMigration.SourceNodes`: `lo.Keys` returns map keys in an unspecified order, and the model fixes one order. The contracts speak only of membership and duplicates, so they hold for every order.
- `ClusterMigration.PartitionMigration.TargetNodes`: the same holds as for `SourceNodes`. The model fixes one order, and the contracts speak only of membership and duplicates.
- `Jobs` is a slice of `*PartitionMigrationJobHeader` in Go. A nil entry would make `SourceNodes` and `TargetNodes` panic, but the model's jobs are values and cannot be nil. Go's `int` (32 or 64 bits by platform) is unbounded `int`, which is harmless because no arithmetic is done on node indices.
- The acks are returned as `*Ack` addresses in Go. The model returns them as values.
- The status types are open string types in Go, so any string converts to them. The model has closed enumerations with their string encodings.
- There are no status transitions. The migration code declares the statuses only, so no state machine is modelled.
- `AckKey(name)`, `AckKeyPrefix` and `ReloadSrcRouterCommand` are not modelled. They appear only in `go/cluster/migration_test.go`, and `go/cluster/migration.go` does not define them. Neither file defines a `Clone` for a migration or a job header, so none is modelled.
