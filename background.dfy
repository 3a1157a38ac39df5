/** The extension's background controller: the one authoritative settings
    record, the enabled flag and the API keys, kept in step with the
    key-value store, the open tabs and the settings server. */
module Background {
  import opened Json

  /** Keys of the extension's key-value store. */
  const SettingsKey := "dyslexiaSettings"
  const EnabledKey := "extensionEnabled"
  const ApiKeysKey := "apiKeys"

  /** The settings a fresh background process starts from. */
  const DefaultSettings: map<string, Value> := map[
    "font" := Str("sans-serif"),
    "fontSize" := Num(16.0),
    "letterSpacing" := Num(0.12),
    "wordSpacing" := Num(0.16),
    "lineSpacing" := Num(1.5),
    "textColor" := Str("#000000"),
    "backgroundColor" := Str("#f8f8f8"),
    "rewriteEnabled" := Bool(true),
    "textToSpeechEnabled" := Bool(true),
    "aiModel" := Str("gpt-4o"),
    "simplificationLevel" := Str("medium"),
    "phoneticsEnabled" := Bool(false),
    "userId" := Null
  ]

  /** A message the background sends to a tab's content script. */
  datatype TabMessage =
    | UpdateSettings(settings: map<string, Value>)
    | ToggleExtension(enabled: bool)

  /** An open tab: whether a content script listens in it, and the messages
      its content script has been sent. */
  datatype Tab = Tab(id: nat, hasListener: bool, inbox: seq<TabMessage>)

  /** One send to one tab: a tab without a content script rejects the
      message, and the rejection is swallowed. */
  function Deliver(t: Tab, m: TabMessage): Tab
  {
    if t.hasListener then t.(inbox := t.inbox + [m]) else t
  }

  /** The tabs after one fan-out of `m` over the snapshot `tabs`. */
  function Delivered(tabs: seq<Tab>, m: TabMessage): (r: seq<Tab>)
    ensures |r| == |tabs|
    ensures forall i :: 0 <= i < |tabs| ==> r[i] == Deliver(tabs[i], m)
  {
    seq(|tabs|, i requires 0 <= i < |tabs| => Deliver(tabs[i], m))
  }

  /** What one send does to a tab: a tab with a listener receives exactly
      `m` at the end of its inbox, any other tab is left as it was; the
      tab's identity and listener never change. */
  lemma DeliverEffect(t: Tab, m: TabMessage)
    ensures Deliver(t, m).id == t.id && Deliver(t, m).hasListener == t.hasListener
    ensures t.hasListener ==> Deliver(t, m).inbox == t.inbox + [m]
    ensures !t.hasListener ==> Deliver(t, m) == t
  {
  }

  /** A tab without a content script does not affect delivery to the others:
      leaving it out of the snapshot gives every other tab the same result. */
  lemma {:induction false} SilentTabIrrelevant(tabs: seq<Tab>, k: nat, m: TabMessage)
    requires k < |tabs| && !tabs[k].hasListener
    ensures Delivered(tabs, m)[k] == tabs[k]
    ensures Delivered(tabs[..k] + tabs[k + 1..], m) == Delivered(tabs, m)[..k] + Delivered(tabs, m)[k + 1..]
  {
    var without := tabs[..k] + tabs[k + 1..];
    var lhs := Delivered(without, m);
    var rhs := Delivered(tabs, m)[..k] + Delivered(tabs, m)[k + 1..];
    assert |lhs| == |rhs|;
    forall i | 0 <= i < |lhs|
      ensures lhs[i] == rhs[i]
    {
      if i < k {
        assert without[i] == tabs[i];
      } else {
        assert without[i] == tabs[i + 1];
      }
    }
  }

  /** A request body that `saveSettingsToServer` POSTs to the settings
      server for `userId`. */
  datatype Push = Push(userId: Value, settings: map<string, Value>)

  /** What a `fetch` came back with: it threw (network failure, or a body
      that is not JSON), or it resolved with an ok flag and a parsed body. */
  datatype HttpOutcome = Threw(message: string) | Replied(ok: bool, body: Value)

  /** `message.enabled !== undefined ? message.enabled : !extensionEnabled` */
  function NextEnabled(requested: Option<bool>, current: bool): (r: bool)
    ensures requested.Some? ==> r == requested.value
    ensures requested.None? ==> r != current
  {
    if requested.Some? then requested.value else !current
  }

  /** Two bare toggles restore the flag. */
  lemma ToggleTwiceRestores(current: bool)
    ensures NextEnabled(None, NextEnabled(None, current)) == current
  {
  }

  /** Whether the settings the server returned are adopted: only an ok
      response whose `settings` field is truthy is. */
  predicate AdoptsServerSettings(outcome: HttpOutcome)
  {
    outcome.Replied? && outcome.ok && Truthy(Field(outcome.body, "settings"))
  }

  /** The local settings after `fetchUserSettings` came back with `outcome`:
      the server's keys override the local ones, the local keys the server
      did not send are kept. */
  function FetchedSettings(local: map<string, Value>, outcome: HttpOutcome): (r: map<string, Value>)
    ensures !AdoptsServerSettings(outcome) ==> r == local
    ensures AdoptsServerSettings(outcome) ==>
      var remote := SpreadOf(Field(outcome.body, "settings"));
      r.Keys == local.Keys + remote.Keys &&
      (forall k :: k in remote ==> r[k] == remote[k]) &&
      (forall k :: k in local && k !in remote ==> r[k] == local[k])
  {
    if AdoptsServerSettings(outcome) then Merge(local, SpreadOf(Field(outcome.body, "settings")))
    else local
  }

  /** The answer to a `login` message. */
  datatype LoginResult = LoggedIn(userId: Value) | LoginFailed(error: Value)

  /** The answer to a `logout` message. */
  datatype LogoutResult = LoggedOut | LogoutFailed(error: string)

  /** What a request to the language model is for. */
  datatype Purpose = Rewrite | Simplify | Phonetic

  datatype Strength = Low | Medium | High

  /** The system prompt of a request, named by what it asks for (the
      prompt texts themselves are not modelled). */
  datatype Instruction = LevelInstruction(purpose: Purpose, strength: Strength) | SyllableInstruction

  /** The system prompt chosen for `purpose` at simplification `level`. */
  function SystemPrompt(purpose: Purpose, level: Value): (r: Instruction)
    ensures purpose == Phonetic <==> r == SyllableInstruction
    ensures purpose != Phonetic ==> r.LevelInstruction? && r.purpose == purpose
    ensures purpose != Phonetic ==> (r.strength == Low <==> level == Str("low"))
    ensures purpose != Phonetic ==> (r.strength == High <==> level == Str("high"))
  {
    match purpose
    case Phonetic => SyllableInstruction
    case _ =>
      var strength := match level
        case Str("low") => Low
        case Str("high") => High
        case _ => Medium;
      LevelInstruction(purpose, strength)
  }

  /** Every level other than `'low'` and `'high'` (absent, misspelt or not
      a string) falls back to the medium prompt. */
  lemma OtherLevelsAreMedium(purpose: Purpose, level: Value)
    requires purpose != Phonetic && level != Str("low") && level != Str("high")
    ensures SystemPrompt(purpose, level) == LevelInstruction(purpose, Medium)
  {
  }

  /** A chat-completion request to the language model. */
  datatype AiRequest = AiRequest(apiKey: Value, model: Value, system: Instruction, user: string)

  datatype AiResult = Prepared(request: AiRequest) | Rejected(error: string)

  const NoKeyError := "No OpenAI API key available. Please add your API key in the settings."

  const SyllableLead := "Provide syllable breakdowns for the following text. Respond with a JSON object only, no explanations: \""

  /** The user prompt: the text itself, or for syllable breakdowns the text
      wrapped in an instruction to answer with JSON only. */
  function UserPrompt(text: string, purpose: Purpose): (r: string)
    ensures purpose != Phonetic ==> r == text
    ensures purpose == Phonetic ==>
      |r| == |SyllableLead| + |text| + 1 && r[..|SyllableLead|] == SyllableLead &&
      r[|SyllableLead|..|r| - 1] == text && r[|r| - 1] == '"'
  {
    if purpose == Phonetic then SyllableLead + text + "\"" else text
  }

  /** The request `processTextWithOpenAI` sends, or its failure before
      any request when no OpenAI key is stored. */
  function PrepareAiRequest(text: string, model: Value, level: Value, purpose: Purpose, apiKeys: map<string, Value>): (r: AiResult)
    ensures r.Rejected? <==> !Truthy(Get(apiKeys, "openai"))
    ensures r.Rejected? ==> r.error == NoKeyError
    ensures r.Prepared? ==>
      r.request.apiKey == apiKeys["openai"] && r.request.model == model &&
      r.request.system == SystemPrompt(purpose, level) && r.request.user == UserPrompt(text, purpose)
  {
    var key := Get(apiKeys, "openai");
    if !Truthy(key) then Rejected(NoKeyError)
    else Prepared(AiRequest(key, model, SystemPrompt(purpose, level), UserPrompt(text, purpose)))
  }

  /** The message of the TypeError thrown by reading property `key` of
      `null`, in the wording of the V8 engine. */
  function NullReadMessage(key: string): string
  {
    "Cannot read properties of null (reading '" + key + "')"
  }

  /** The background process: its in-memory state and the parts of the
      browser and the network it acts on. */
  class Controller {
    var settings: map<string, Value>
    var enabled: bool
    var apiKeys: map<string, Value>
    /** chrome.storage.sync */
    var store: map<string, Value>
    /** the open tabs, in the order tab queries list them */
    var tabs: seq<Tab>
    /** every settings POST made to the server, oldest first */
    var pushes: seq<Push>

    /** A start of the background process over the given store and open
        tabs. Only an install or update event goes on to `loadSettings` and
        `checkLoginStatus`; any other start keeps these defaults. */
    constructor (store0: map<string, Value>, tabs0: seq<Tab>)
      ensures settings == DefaultSettings && !enabled && apiKeys == map[]
      ensures store == store0 && tabs == tabs0 && pushes == []
    {
      settings := DefaultSettings;
      enabled := false;
      apiKeys := map[];
      store := store0;
      tabs := tabs0;
      pushes := [];
    }

    /** `loadSettings`, run on install or update.
        Adopt stored settings wholesale if any, else write the current ones;
        adopt the stored enabled flag if any, else write the current one;
        adopt stored API keys only when present. */
    method LoadSettings()
      modifies this`settings, this`enabled, this`apiKeys, this`store
      ensures store.Keys == old(store).Keys + {SettingsKey, EnabledKey}
      ensures Get(old(store), SettingsKey).Obj? ==>
        settings == old(store)[SettingsKey].fields && store[SettingsKey] == old(store)[SettingsKey]
      ensures !Get(old(store), SettingsKey).Obj? ==>
        settings == old(settings) && store[SettingsKey] == Obj(old(settings))
      ensures Get(old(store), EnabledKey) != Undefined ==>
        enabled == Truthy(old(store)[EnabledKey]) && store[EnabledKey] == old(store)[EnabledKey]
      ensures Get(old(store), EnabledKey) == Undefined ==> enabled == old(enabled) && store[EnabledKey] == Bool(old(enabled))
      ensures apiKeys == if Get(old(store), ApiKeysKey).Obj? then old(store)[ApiKeysKey].fields else old(apiKeys)
      ensures forall k :: k in old(store) && k != SettingsKey && k != EnabledKey ==> store[k] == old(store)[k]
    {
      var data := store;
      var stored := Get(data, SettingsKey);
      if stored.Obj? {
        settings := stored.fields;
      } else {
        store := store[SettingsKey := Obj(settings)];
      }
      if Get(data, EnabledKey) != Undefined {
        enabled := Truthy(data[EnabledKey]);
      } else {
        store := store[EnabledKey := Bool(enabled)];
      }
      var keys := Get(data, ApiKeysKey);
      if keys.Obj? {
        apiKeys := keys.fields;
      }
    }

    /** `updateAllTabs` and the toggle fan-out: send `m` to every tab of a
        snapshot of the open tabs; a tab without a content script does not
        stop the others from receiving it. */
    method Broadcast(m: TabMessage)
      modifies this`tabs
      ensures tabs == Delivered(old(tabs), m)
    {
      var snapshot := tabs;
      var i := 0;
      while i < |snapshot|
        invariant 0 <= i <= |snapshot| && |tabs| == |snapshot|
        invariant forall j :: 0 <= j < i ==> tabs[j] == Deliver(snapshot[j], m)
        invariant forall j :: i <= j < |snapshot| ==> tabs[j] == snapshot[j]
      {
        if snapshot[i].hasListener {
          tabs := tabs[i := snapshot[i].(inbox := snapshot[i].inbox + [m])];
        }
        i := i + 1;
      }
    }

    /** `saveSettingsToServer`: POST the settings for their `userId`; no
        request at all without a truthy `userId`. A failed request is only
        logged. */
    method SaveSettingsToServer(s: map<string, Value>)
      modifies this`pushes
      ensures Truthy(Get(s, "userId")) ==> pushes == old(pushes) + [Push(s["userId"], s)]
      ensures !Truthy(Get(s, "userId")) ==> pushes == old(pushes)
    {
      if !Truthy(Get(s, "userId")) {
        return;
      }
      pushes := pushes + [Push(s["userId"], s)];
    }

    /** The `toggleExtension` message: adopt an explicit value, else negate;
        persist, tell every tab, and answer with the new state. */
    method HandleToggle(requested: Option<bool>) returns (reply: bool)
      modifies this`enabled, this`store, this`tabs
      ensures enabled == NextEnabled(requested, old(enabled))
      ensures reply == enabled
      ensures store == old(store)[EnabledKey := Bool(enabled)]
      ensures tabs == Delivered(old(tabs), ToggleExtension(enabled))
    {
      enabled := NextEnabled(requested, enabled);
      store := store[EnabledKey := Bool(enabled)];
      Broadcast(ToggleExtension(enabled));
      reply := enabled;
    }

    /** The `getStatus` message: the current flag and settings, read only. */
    method HandleGetStatus() returns (isEnabled: bool, current: map<string, Value>)
      ensures isEnabled == enabled && current == settings
    {
      isEnabled, current := enabled, settings;
    }

    /** The `updateSettings` message: merge the update over the settings,
        persist exactly the merged record, push it to the server when a user
        is logged in, and send it to every tab. */
    method HandleUpdateSettings(update: map<string, Value>)
      modifies this`settings, this`store, this`tabs, this`pushes
      ensures settings == Merge(old(settings), update)
      ensures store == old(store)[SettingsKey := Obj(settings)]
      ensures Truthy(Get(settings, "userId")) ==> pushes == old(pushes) + [Push(settings["userId"], settings)]
      ensures !Truthy(Get(settings, "userId")) ==> pushes == old(pushes)
      ensures tabs == Delivered(old(tabs), UpdateSettings(settings))
    {
      settings := Merge(settings, update);
      store := store[SettingsKey := Obj(settings)];
      if Truthy(Get(settings, "userId")) {
        SaveSettingsToServer(settings);
      }
      Broadcast(UpdateSettings(settings));
    }

    /** `fetchUserSettings`: on an ok answer carrying settings, merge them
        over the local ones, persist and broadcast; otherwise change nothing. */
    method FetchUserSettings(outcome: HttpOutcome)
      modifies this`settings, this`store, this`tabs
      ensures settings == FetchedSettings(old(settings), outcome)
      ensures AdoptsServerSettings(outcome) ==>
        store == old(store)[SettingsKey := Obj(settings)] &&
        tabs == Delivered(old(tabs), UpdateSettings(settings))
      ensures !AdoptsServerSettings(outcome) ==> store == old(store) && tabs == old(tabs)
    {
      if outcome.Replied? && outcome.ok {
        var remote := Field(outcome.body, "settings");
        if Truthy(remote) {
          settings := Merge(settings, SpreadOf(remote));
          store := store[SettingsKey := Obj(settings)];
          Broadcast(UpdateSettings(settings));
        }
      }
    }

    /** `checkLoginStatus` at install time: when the server reports a
        logged-in user, record the id (in memory only) and fetch that
        user's settings. */
    method CheckLoginStatus(status: HttpOutcome, fetched: HttpOutcome)
      modifies this`settings, this`store, this`tabs
      ensures
        if status.Replied? && status.ok && Truthy(Field(status.body, "isLoggedIn")) &&
           Truthy(Field(status.body, "userId")) then
          var uid := Field(status.body, "userId");
          settings == FetchedSettings(old(settings)[ "userId" := uid], fetched) &&
          (AdoptsServerSettings(fetched) ==>
             store == old(store)[SettingsKey := Obj(settings)] &&
             tabs == Delivered(old(tabs), UpdateSettings(settings))) &&
          (!AdoptsServerSettings(fetched) ==> store == old(store) && tabs == old(tabs))
        else
          settings == old(settings) && store == old(store) && tabs == old(tabs)
    {
      if status.Replied? && status.ok {
        var uid := Field(status.body, "userId");
        if Truthy(Field(status.body, "isLoggedIn")) && Truthy(uid) {
          settings := settings["userId" := uid];
          FetchUserSettings(fetched);
        }
      }
    }

    /** The `login` message: on success record and persist the user id
        BEFORE fetching that user's settings; on a non-ok answer report the
        server's message or 'Login failed'; on any thrown error report it.
        A `null` body makes the field read itself throw, in either branch.
        Failures change nothing. */
    method HandleLogin(login: HttpOutcome, fetched: HttpOutcome) returns (r: LoginResult)
      modifies this`settings, this`store, this`tabs
      ensures login.Threw? ==> r == LoginFailed(Str(login.message))
      ensures login.Replied? && !login.ok ==>
        r == LoginFailed(if login.body == Null then Str(NullReadMessage("message"))
                         else Or(Field(login.body, "message"), Str("Login failed")))
      ensures login.Replied? && login.ok && login.body == Null ==> r == LoginFailed(Str(NullReadMessage("userId")))
      ensures r.LoginFailed? ==> settings == old(settings) && store == old(store) && tabs == old(tabs)
      ensures login.Replied? && login.ok && login.body != Null ==>
        var uid := Field(login.body, "userId");
        var withUser := old(settings)["userId" := uid];
        r == LoggedIn(uid) &&
        settings == FetchedSettings(withUser, fetched) &&
        (AdoptsServerSettings(fetched) ==>
           store == old(store)[SettingsKey := Obj(settings)] &&
           tabs == Delivered(old(tabs), UpdateSettings(settings))) &&
        (!AdoptsServerSettings(fetched) ==>
           store == old(store)[SettingsKey := Obj(withUser)] && tabs == old(tabs))
    {
      match login
      case Threw(message) =>
        r := LoginFailed(Str(message));
      case Replied(ok, body) =>
        if body == Null {
          r := LoginFailed(Str(NullReadMessage(if ok then "userId" else "message")));
          return;
        }
        if !ok {
          r := LoginFailed(Or(Field(body, "message"), Str("Login failed")));
          return;
        }
        var uid := Field(body, "userId");
        settings := settings["userId" := uid];
        store := store[SettingsKey := Obj(settings)];
        FetchUserSettings(fetched);
        r := LoggedIn(uid);
    }

    /** The `logout` message: once the logout request resolves (whatever its
        status), clear and persist the user id; if it throws, change nothing. */
    method HandleLogout(outcome: HttpOutcome) returns (r: LogoutResult)
      modifies this`settings, this`store
      ensures outcome.Threw? ==> r == LogoutFailed(outcome.message) && settings == old(settings) && store == old(store)
      ensures outcome.Replied? ==>
        r == LoggedOut && settings == old(settings)["userId" := Null] &&
        store == old(store)[SettingsKey := Obj(settings)]
    {
      if outcome.Threw? {
        r := LogoutFailed(outcome.message);
        return;
      }
      settings := settings["userId" := Null];
      store := store[SettingsKey := Obj(settings)];
      r := LoggedOut;
    }

    /** The `simplifyText` message: the message's model and level, or else
        the settings' ones, for a simplification request. */
    method SimplifyRequest(text: string, model: Value, level: Value) returns (r: AiResult)
      ensures r.Rejected? <==> !Truthy(Get(apiKeys, "openai"))
      ensures r.Rejected? ==> r.error == NoKeyError
      ensures r.Prepared? ==>
        r.request.apiKey == Get(apiKeys, "openai") &&
        r.request.model == Or(model, Get(settings, "aiModel")) &&
        r.request.system == SystemPrompt(Simplify, Or(level, Get(settings, "simplificationLevel"))) &&
        r.request.user == text
    {
      r := PrepareAiRequest(text, Or(model, Get(settings, "aiModel")),
                            Or(level, Get(settings, "simplificationLevel")), Simplify, apiKeys);
    }

    /** The `getPhoneticTranscription` message: a syllable request with the
        fixed model 'gpt-3.5-turbo', whatever the settings say. */
    method PhoneticRequest(text: string) returns (r: AiResult)
      ensures r.Rejected? <==> !Truthy(Get(apiKeys, "openai"))
      ensures r.Rejected? ==> r.error == NoKeyError
      ensures r.Prepared? ==>
        r.request.apiKey == Get(apiKeys, "openai") &&
        r.request.model == Str("gpt-3.5-turbo") && r.request.system == SyllableInstruction &&
        r.request.user == UserPrompt(text, Phonetic)
    {
      r := PrepareAiRequest(text, Str("gpt-3.5-turbo"), Str("medium"), Phonetic, apiKeys);
    }
  }

  /** `saveApiKey` in the popup writes the key to the store only. The
      background reads the stored keys in `loadSettings` and nowhere else,
      and only the install or update event runs that: a key saved while the
      background is running (here, right after an install with no stored
      keys) never reaches it: every simplification is refused, or goes on
      using the key stored earlier. */
  method SaveKeyThenSimplify(store0: map<string, Value>, tabs0: seq<Tab>, key: string,
                             text: string, model: Value, level: Value) returns (r: AiResult)
    ensures !Get(store0, ApiKeysKey).Obj? ==> r == Rejected(NoKeyError)
    ensures Get(store0, ApiKeysKey).Obj? && r.Prepared? ==>
      r.request.apiKey == Get(store0[ApiKeysKey].fields, "openai")
  {
    var c := new Controller(store0, tabs0);
    c.LoadSettings();
    c.store := c.store[ApiKeysKey := Obj(map["openai" := Str(key)])];
    r := c.SimplifyRequest(text, model, level);
  }

  /** The evidently intended behaviour: the keys are read from the store
      before they are used, so a non-empty key saved in the popup is the
      key the request carries. */
  method SaveKeyThenLoadedSimplify(store0: map<string, Value>, tabs0: seq<Tab>, key: string,
                                   text: string, model: Value, level: Value) returns (r: AiResult)
    ensures key != "" ==> r.Prepared? && r.request.apiKey == Str(key) && r.request.user == text
    ensures key == "" ==> r == Rejected(NoKeyError)
  {
    var c := new Controller(store0, tabs0);
    c.store := c.store[ApiKeysKey := Obj(map["openai" := Str(key)])];
    c.LoadSettings();
    r := c.SimplifyRequest(text, model, level);
  }
}
