/** The webhook-message envelope of the stream package: five string properties and
    their conversion to and from a flat string map. Unlike the message properties,
    this map is keyed by the key strings, so a map may hold keys that are not
    webhook keys. */
module StreamWebhook {
  import opened GoMap
  import StreamMessage

  // ---------------------------------------------------------------------------
  // Map keys

  const WorkspaceIDKey := "workspaceID"
  const SourceIDKey := "sourceID"
  const SourceTypeKey := "sourceType"
  /** The failure reason is written as "reason" here, not as "webhookFailureReason". */
  const ReasonKey := "reason"
  const StageKey := "stage"

  /** The five keys of a webhook property map. */
  const WebhookMapKeys: set<string> := {WorkspaceIDKey, SourceIDKey, SourceTypeKey, ReasonKey, StageKey}

  /** The keys shared with the message-property map are written the same way there. */
  lemma SharedKeyNames()
    ensures WorkspaceIDKey == StreamMessage.Name(StreamMessage.WorkspaceID)
    ensures SourceIDKey == StreamMessage.Name(StreamMessage.SourceID)
    ensures SourceTypeKey == StreamMessage.Name(StreamMessage.SourceType)
    ensures StageKey == StreamMessage.Name(StreamMessage.Stage)
    ensures forall k :: StreamMessage.Name(k) != ReasonKey
  {
  }

  // ---------------------------------------------------------------------------
  // Record and conversions

  datatype WebhookMessageProperties = WebhookMessageProperties(
    workspaceID: string,
    sourceID: string,
    sourceType: string,
    reason: string,
    stage: string)

  /** FromWebhookMapProperties: each field is the map's text for its key, or "" when
      the key is absent. It never fails, so the model returns the record alone. */
  function FromWebhookMapProperties(m: map<string, string>): (p: WebhookMessageProperties)
    ensures ToWebhookMapProperties(p) == map k | k in WebhookMapKeys :: Lookup(m, k)
  {
    WebhookMessageProperties(
      Lookup(m, WorkspaceIDKey),
      Lookup(m, SourceIDKey),
      Lookup(m, SourceTypeKey),
      Lookup(m, ReasonKey),
      Lookup(m, StageKey))
  }

  /** ToWebhookMapProperties: a map literal of the five keys, whatever the field
      values. */
  function ToWebhookMapProperties(p: WebhookMessageProperties): (m: map<string, string>)
    ensures m.Keys == WebhookMapKeys
  {
    map[
      WorkspaceIDKey := p.workspaceID,
      SourceIDKey := p.sourceID,
      SourceTypeKey := p.sourceType,
      ReasonKey := p.reason,
      StageKey := p.stage]
  }

  /** The map always holds exactly the five webhook keys, whatever the field values. */
  lemma WebhookMapHasExactlyFiveKeys(p: WebhookMessageProperties)
    ensures ToWebhookMapProperties(p).Keys == WebhookMapKeys
    ensures |ToWebhookMapProperties(p)| == 5
  {
    assert |WebhookMapKeys| == 5;
  }

  /** Reading a map back yields every field: the record side of the round trip. */
  lemma WebhookRecordRoundTrip(p: WebhookMessageProperties)
    ensures FromWebhookMapProperties(ToWebhookMapProperties(p)) == p
  {
  }

  /** The map side of the round trip holds exactly for the maps with the five
      webhook keys and no other. */
  lemma WebhookMapRoundTrip(m: map<string, string>)
    ensures ToWebhookMapProperties(FromWebhookMapProperties(m)) == m <==> m.Keys == WebhookMapKeys
  {
    var m' := ToWebhookMapProperties(FromWebhookMapProperties(m));
    WebhookMapHasExactlyFiveKeys(FromWebhookMapProperties(m));
    if m.Keys == WebhookMapKeys {
      forall k | k in m
        ensures m'[k] == m[k]
      {
      }
    }
  }

  // ---------------------------------------------------------------------------
  // Validation

  /** The struct validator's rule for webhook messages: all five properties are
      required, so none may be empty. */
  function HasRequiredProperties(p: WebhookMessageProperties): (valid: bool)
    ensures valid <==> forall k :: k in WebhookMapKeys ==> ToWebhookMapProperties(p)[k] != ""
  {
    p.workspaceID != "" && p.sourceID != "" && p.sourceType != "" && p.reason != "" && p.stage != ""
  }

  /** The keys whose properties are empty. */
  function MissingWebhookProperties(p: WebhookMessageProperties): (missing: set<string>)
    ensures missing <= WebhookMapKeys
  {
    (if p.workspaceID == "" then {WorkspaceIDKey} else {})
    + (if p.sourceID == "" then {SourceIDKey} else {})
    + (if p.sourceType == "" then {SourceTypeKey} else {})
    + (if p.reason == "" then {ReasonKey} else {})
    + (if p.stage == "" then {StageKey} else {})
  }

  /** The properties are valid exactly when no key is missing, and a key is missing
      exactly when the map written for the record carries "" for it. */
  lemma RequiredPropertiesIffNoneMissing(p: WebhookMessageProperties)
    ensures HasRequiredProperties(p) <==> MissingWebhookProperties(p) == {}
    ensures forall k :: k in MissingWebhookProperties(p) <==>
              k in WebhookMapKeys && ToWebhookMapProperties(p)[k] == ""
  {
    var missing := MissingWebhookProperties(p);
    if !HasRequiredProperties(p) {
      if p.workspaceID == "" { assert WorkspaceIDKey in missing; }
      else if p.sourceID == "" { assert SourceIDKey in missing; }
      else if p.sourceType == "" { assert SourceTypeKey in missing; }
      else if p.reason == "" { assert ReasonKey in missing; }
      else { assert StageKey in missing; }
    }
  }

  /** A map read back as a valid record carries a non-empty text for every webhook key. */
  lemma ValidRecordFromMap(m: map<string, string>)
    ensures HasRequiredProperties(FromWebhookMapProperties(m)) <==>
      forall k :: k in WebhookMapKeys ==> k in m && m[k] != ""
  {
    var p := FromWebhookMapProperties(m);
    if HasRequiredProperties(p) {
      forall k | k in WebhookMapKeys
        ensures k in m && m[k] != ""
      {
      }
    } else {
      assert exists k :: k in WebhookMapKeys && Lookup(m, k) == "";
    }
  }
}
