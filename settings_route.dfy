/** The server's per-user settings collection and its two routes:
    `GET /:userId` and the authorised create-or-merge `POST /:userId`. */
module SettingsRoute {
  import opened Json

  /** A user's id (a database object id in the server). */
  type UserId = nat

  /** One stored settings document. */
  datatype Record = Record(settings: map<string, Value>, apiKeys: map<string, Value>, updatedAt: int)

  /** The settings defaults the document schema fills in for a new user. */
  const SchemaDefaults: map<string, Value> := map[
    "font" := Str("sans-serif"),
    "fontSize" := Num(16.0),
    "letterSpacing" := Num(0.12),
    "wordSpacing" := Num(0.16),
    "lineSpacing" := Num(1.5),
    "textColor" := Str("#000000"),
    "backgroundColor" := Str("#f8f8f8"),
    "rewriteEnabled" := Bool(true),
    "textToSpeechEnabled" := Bool(true),
    "aiModel" := Str("gpt-4o"),
    "simplificationLevel" := Str("medium"),
    "phoneticsEnabled" := Bool(false)
  ]

  /** The document created for a user who has just registered. */
  function DefaultRecord(now: int): (r: Record)
    ensures r.settings == SchemaDefaults && r.apiKeys == map[] && r.updatedAt == now
  {
    Record(SchemaDefaults, map[], now)
  }

  datatype GetReply = Found(record: Record) | NotFound | GetFailed
  {
    function Status(): nat
    {
      match this
      case Found(_) => 200
      case NotFound => 404
      case GetFailed => 500
    }
  }

  datatype PostReply = Unauthorized(message: string) | Saved(settings: map<string, Value>) | PostFailed
  {
    function Status(): nat
    {
      match this
      case Unauthorized(_) => 401
      case Saved(_) => 200
      case PostFailed => 500
    }
  }

  /** What the authentication middleware decided before the route ran:
      refused with its own 401 message, or passed with the token's user id. */
  datatype Gate = Refused(message: string) | Passed(id: UserId)

  const NotOwnSettings := "Unauthorized: You can only update your own settings"

  /** `{...old, ...new}` when the request provides a part, the stored part
      otherwise. */
  function MergeProvided(stored: map<string, Value>, provided: Option<map<string, Value>>): (r: map<string, Value>)
    ensures provided.None? ==> r == stored
    ensures provided.Some? ==> r == Merge(stored, provided.value)
  {
    if provided.Some? then Merge(stored, provided.value) else stored
  }

  /** The document a POST leaves for its user: a new one from the request's
      parts (or `{}` each), with the schema defaults filled in under the
      provided settings, or the stored one with each provided part merged
      in. */
  function Posted(existing: Option<Record>, settings: Option<map<string, Value>>,
                  apiKeys: Option<map<string, Value>>, now: int): (r: Record)
    ensures existing.None? ==>
      r.settings == Merge(SchemaDefaults, if settings.Some? then settings.value else map[]) &&
      r.apiKeys == (if apiKeys.Some? then apiKeys.value else map[])
    ensures existing.Some? ==>
      r.settings == MergeProvided(existing.value.settings, settings) &&
      r.apiKeys == MergeProvided(existing.value.apiKeys, apiKeys)
    ensures r.updatedAt == now
  {
    match existing
    case None => Record(Merge(SchemaDefaults, if settings.Some? then settings.value else map[]),
                        if apiKeys.Some? then apiKeys.value else map[], now)
    case Some(rec) => Record(MergeProvided(rec.settings, settings), MergeProvided(rec.apiKeys, apiKeys), now)
  }

  /** The two parts are merged independently: what a POST does to the
      settings does not depend on its API keys, and the other way round. */
  lemma PartsIndependent(existing: Option<Record>, s1: Option<map<string, Value>>, s2: Option<map<string, Value>>,
                         k1: Option<map<string, Value>>, k2: Option<map<string, Value>>, now: int)
    ensures Posted(existing, s1, k1, now).settings == Posted(existing, s1, k2, now).settings
    ensures Posted(existing, s1, k1, now).apiKeys == Posted(existing, s2, k1, now).apiKeys
  {
  }

  /** With a stored document, request keys override, stored keys the
      request does not mention are kept, and no key is dropped. */
  lemma MergeKeepsStoredKeys(rec: Record, settings: map<string, Value>, k: string)
    requires k in rec.settings
    ensures k in Posted(Some(rec), Some(settings), None, 0).settings
    ensures k !in settings ==> Posted(Some(rec), Some(settings), None, 0).settings[k] == rec.settings[k]
  {
  }

  /** The settings collection. */
  class SettingsCollection {
    var records: map<UserId, Record>

    constructor (initial: map<UserId, Record>)
      ensures records == initial
    {
      records := initial;
    }

    /** `GET /:userId`: the stored document, 404 when there is none; a
        database failure answers 500. Nothing changes. */
    method Get(userId: UserId, dbFails: bool) returns (r: GetReply)
      ensures dbFails ==> r == GetFailed
      ensures !dbFails ==> (r == NotFound <==> userId !in records)
      ensures !dbFails && userId in records ==> r == Found(records[userId])
      ensures r.Status() == 404 <==> !dbFails && userId !in records
    {
      if dbFails {
        return GetFailed;
      }
      if userId !in records {
        return NotFound;
      }
      r := Found(records[userId]);
    }

    /** `POST /:userId` behind the auth middleware: only the
        user themself may write; the document is created or merged and
        saved, and the reply carries the saved settings. A database failure
        answers 500 and saves nothing. Other users' documents never change. */
    method Post(userId: UserId, gate: Gate, settings: Option<map<string, Value>>,
                apiKeys: Option<map<string, Value>>, now: int, dbFails: bool) returns (r: PostReply)
      modifies this
      ensures gate.Refused? ==> r == Unauthorized(gate.message) && records == old(records)
      ensures gate.Passed? && gate.id != userId ==> r == Unauthorized(NotOwnSettings) && records == old(records)
      ensures gate == Passed(userId) && dbFails ==> r == PostFailed && records == old(records)
      ensures gate == Passed(userId) && !dbFails ==>
        var existing := if userId in old(records) then Some(old(records)[userId]) else None;
        records == old(records)[userId := Posted(existing, settings, apiKeys, now)] &&
        r == Saved(records[userId].settings)
      ensures forall u :: u != userId ==> (u in records <==> u in old(records))
      ensures forall u :: u in old(records) && u != userId ==> records[u] == old(records)[u]
    {
      if gate.Refused? {
        return Unauthorized(gate.message);
      }
      if gate.id != userId {
        return Unauthorized(NotOwnSettings);
      }
      if dbFails {
        return PostFailed;
      }
      var userSettings: Record;
      if userId !in records {
        userSettings := Record(Merge(SchemaDefaults, if settings.Some? then settings.value else map[]),
                               if apiKeys.Some? then apiKeys.value else map[], now);
      } else {
        userSettings := records[userId];
        if settings.Some? {
          userSettings := userSettings.(settings := Merge(userSettings.settings, settings.value));
        }
        if apiKeys.Some? {
          userSettings := userSettings.(apiKeys := Merge(userSettings.apiKeys, apiKeys.value));
        }
        userSettings := userSettings.(updatedAt := now);
      }
      records := records[userId := userSettings];
      r := Saved(userSettings.settings);
    }
  }
}
