# Dyslexia Text Reader: settings synchronisation, modelled in Dafny

This project models the parts of the Dyslexia Text Reader browser extension and
its sync server that follow statable rules:

- The **background controller** holds the authoritative settings record, the
  enabled flag and the API keys (`background.dfy`, class
  `Background.Controller`). Each message handler is one atomic step:
  `toggleExtension`, `getStatus`, `updateSettings`, `login`, `logout`,
  `simplifyText` and `getPhoneticTranscription`. The steps the install or
  update event runs (`loadSettings`, then `checkLoginStatus` and the
  `fetchUserSettings` it calls) are modelled too. Any other start of the
  background keeps the hard-coded defaults, and API keys saved later are
  never read (see "## Findings").
  Each step updates:
  - the key-value store (`dyslexiaSettings`, `extensionEnabled`, `apiKeys`);
  - a snapshot of open tabs, each with a listener flag and an inbox;
  - a log of the settings the controller pushes to the server.
- The **content subscriber** of one tab (`content.dfy`, class
  `Content.Subscriber`) holds:
  - its own enabled flag and settings;
  - the page's style element and overlay element, each either absent or
    present once.

  It also has the pure helpers behind the font mapping, the whitespace split,
  the long-word filter, word cleaning and syllable annotation.
- The **server settings collection** (`settings_route.dfy`) is a map from user id
  to `{settings, apiKeys, updatedAt}`. It is read by `GET /:userId`. It is
  written by an authorised create-or-merge `POST /:userId`.
- The **server user registry** (`auth_route.dfy`) holds the validation and
  lookup rules of `/register`, `/login`, `/logout` and `/status`. The registry
  receives the following as functions, because their code is not part of this
  model:
  - password hashing;
  - password comparison;
  - token signing;
  - token verification.

JavaScript values are `Json.Value`. It has `Undefined`, `Null`, booleans, opaque
numbers, strings and objects. `Json.Truthy` is JavaScript truthiness.
`Json.Merge(a, b)` is the spread `{...a, ...b}`, which is the right-biased map
union `a + b`.

Network and storage results are parameters of the operations:
- `HttpOutcome` is a fetch that threw, or an ok flag with a parsed body;
- `PhoneticOutcome` is the background's answer to a syllable request;
- `dbFails` marks a database error on the server;
- `now` is the clock.

Where a write to the store or a message to a tab is enough, the operation
records it in the model's state.

Three facts about the code shape the model:
- `loginUser` has no offline or local-credential fallback. It reports
  `success: false` on any failure.
- The enabled flag starts as `false`.
- The background has no `checkLoginStatus` message handler. The popup sends
  that action, and nothing answers it.

## Model

| member | source | states |
|---|---|---|
| Json.Merge | dyslexia_friendly_extension/background.js:181 | the spread merge keeps every key of both sides; keys of the update take its value; all other keys keep the old value |
| Json.MergeSequential | dyslexia_friendly_extension/background.js:181 | two updates in a row equal one merge of the defaults with the last-write-wins union of the updates |
| Json.MergeIdempotent | dyslexia_friendly_extension/background.js:181 | re-sending the same update changes nothing further |
| Background.Controller.constructor | dyslexia_friendly_extension/background.js:2-18 | a new process starts with the default settings (`userId` null), disabled, and with no API keys |
| Background.Controller.LoadSettings | dyslexia_friendly_extension/background.js:49-72 | stored settings replace the in-memory settings wholesale, else the current settings are written; a stored enabled flag that is not `undefined` is adopted, else `false` is kept and written; API keys are replaced only when stored; other store keys are untouched |
| Background.Delivered | dyslexia_friendly_extension/background.js:122-133 | the fan-out result has one tab per snapshot tab, and each tab is exactly that tab after one delivery |
| Background.DeliverEffect | dyslexia_friendly_extension/background.js:125-130 | a tab with a listener gets the message appended to its inbox; a tab without one is unchanged; no tab changes id or listener |
| Background.SilentTabIrrelevant | dyslexia_friendly_extension/background.js:128-130 | a tab without a content script gets nothing, and dropping it from the snapshot changes nothing for any other tab |
| Background.Controller.Broadcast | dyslexia_friendly_extension/background.js:122-133 | sending to every tab of the snapshot leaves exactly the delivered tabs; failed deliveries are swallowed |
| Background.NextEnabled | dyslexia_friendly_extension/background.js:159 | an explicit value is adopted; otherwise the flag is negated |
| Background.ToggleTwiceRestores | dyslexia_friendly_extension/background.js:159 | two bare toggles restore the original flag |
| Background.Controller.HandleToggle | dyslexia_friendly_extension/background.js:158-176 | the new flag is persisted, broadcast to every tab and returned as the reply |
| Background.Controller.HandleGetStatus | dyslexia_friendly_extension/background.js:177-178 | read only; answers the current flag and the current settings |
| Background.Controller.HandleUpdateSettings | dyslexia_friendly_extension/background.js:179-194 | settings become the merge; exactly the merged record is persisted; it is pushed to the server only when `userId` is truthy; it is broadcast to every tab |
| Background.Controller.SaveSettingsToServer | dyslexia_friendly_extension/background.js:278-293 | there is no request without a truthy `userId`; otherwise one request carrying the settings, whose failure changes nothing |
| Background.FetchedSettings | dyslexia_friendly_extension/background.js:104-108 | only an ok response with truthy `settings` changes anything; then server keys override local keys, and local-only keys are kept |
| Background.Controller.FetchUserSettings | dyslexia_friendly_extension/background.js:97-119 | when the server settings are adopted, the result is persisted and broadcast; otherwise settings, store and tabs are all unchanged |
| Background.Controller.CheckLoginStatus | dyslexia_friendly_extension/background.js:75-94 | only an ok status saying logged in with a truthy id sets `userId`, in memory and not persisted, and then fetches that user's settings; anything else changes nothing |
| Background.Controller.HandleLogin | dyslexia_friendly_extension/background.js:441-471 | success sets `userId`, persists it before the fetch and answers `LoggedIn(userId)`; a non-ok reply answers the server's message or 'Login failed'; a `null` body in either branch fails with the TypeError of the field read; a thrown error answers its message; failures change nothing |
| Background.Controller.HandleLogout | dyslexia_friendly_extension/background.js:473-489 | once the request resolves, with any status, `userId` becomes null and is persisted; if it throws, nothing changes |
| Background.SystemPrompt | dyslexia_friendly_extension/background.js:355-384 | rewrite and simplify pick the low prompt exactly for level 'low', the high prompt exactly for 'high', and the medium prompt otherwise; syllable requests pick the syllable prompt |
| Background.OtherLevelsAreMedium | dyslexia_friendly_extension/background.js:366-368 | any level other than 'low' and 'high' gets the medium prompt |
| Background.UserPrompt | dyslexia_friendly_extension/background.js:393-398 | the text itself, or for syllable requests the fixed lead, the text and a closing quote |
| Background.PrepareAiRequest | dyslexia_friendly_extension/background.js:348-407 | fails with the no-key message exactly when there is no truthy `openai` key, before any request; otherwise the request carries that key, the model, the chosen prompt and the user prompt |
| Background.Controller.SimplifyRequest | dyslexia_friendly_extension/background.js:207-209 | refused with the no-key message exactly when the in-memory keys have no truthy `openai` key; otherwise the request carries that key, and the message's model and level when truthy, else the settings' ones, with the simplify prompts |
| Background.Controller.PhoneticRequest | dyslexia_friendly_extension/background.js:223-225 | refused exactly without a truthy in-memory `openai` key; otherwise syllable requests carry that key and always use 'gpt-3.5-turbo' and the syllable prompt |
| Content.GetFontFamily | dyslexia_friendly_extension/content.js:132-144 | total: the three named fonts map to their families, and every other value maps to 'sans-serif' (all four as if-and-only-if) |
| Content.WordLength | dyslexia_friendly_extension/content.js:206 | the longest whitespace-free prefix: no whitespace before it, whitespace right after it |
| Content.SkipSpaces | dyslexia_friendly_extension/content.js:206 | drops exactly the leading run of whitespace |
| Content.SplitWs | dyslexia_friendly_extension/content.js:206 | `split(/\s+/)` gives at least one field, and no field contains whitespace |
| Content.SplitWsInteriorNonEmpty | dyslexia_friendly_extension/content.js:206 | every field but the first and the last is non-empty, because the separator is `\s+` and not `\s` |
| Content.EmptyFirstField | dyslexia_friendly_extension/content.js:206 | an empty first field, followed by more fields, appears only when the text starts with whitespace |
| Content.Separators | dyslexia_friendly_extension/content.js:206 | the runs the split cuts at, each non-empty and all whitespace |
| Content.SplitWsReassembles | dyslexia_friendly_extension/content.js:206 | there is one fewer separator than fields, and the fields with the separators between them give back the text exactly; with the non-empty interior fields, the separators are never adjacent, so the fields are the maximal non-whitespace runs, in order |
| Content.SplitJoin | dyslexia_friendly_extension/content.js:206-215 | splitting words joined by spaces gives the same words back, for non-empty whitespace-free words |
| Content.LongWords | dyslexia_friendly_extension/content.js:207 | keeps exactly the words longer than four characters |
| Content.LongWordsAppend | dyslexia_friendly_extension/content.js:207 | the filter keeps order, because it distributes over concatenation |
| Content.PhoneticRequestCarriesLongWords | dyslexia_friendly_extension/content.js:206-216 | a request is made exactly when some word is longer than four characters, and its text splits back into exactly those words in order |
| Content.CleanWord | dyslexia_friendly_extension/content.js:225 | the cleaned word is no longer than the word and has only lower-case ASCII letters and digits |
| Content.CleanWordOfChar | dyslexia_friendly_extension/content.js:225 | an ASCII letter or digit becomes its lower case, and any other character is dropped |
| Content.CleanWordAppend | dyslexia_friendly_extension/content.js:225 | cleaning works character by character: a concatenation cleans to the concatenation of the cleaned parts |
| Content.CleanWordKeepsClean | dyslexia_friendly_extension/content.js:225 | an already clean word is left unchanged |
| Content.CleanWordIdempotent | dyslexia_friendly_extension/content.js:225 | cleaning twice is cleaning once |
| Content.Lookup | dyslexia_friendly_extension/content.js:220-227 | a key of an object reply gives its value; anything else, including a raw-text reply, gives `undefined` |
| Content.PieceFor | dyslexia_friendly_extension/content.js:225-234 | each word is shown as itself, and is annotated exactly when its cleaned form is longer than four characters and has a truthy breakdown |
| Content.AnnotateWords | dyslexia_friendly_extension/content.js:224-235 | the loop gives one piece per word, in order, each piece as `PieceFor` says |
| Content.AddPhoneticTranscription | dyslexia_friendly_extension/content.js:204-250 | the request is the long words or nothing; no long words, a failed send or an unusable reply show the text unchanged; otherwise every word appears once, in order, annotated as `PieceFor` says |
| Content.RuleFor | dyslexia_friendly_extension/content.js:88-98 | the style rule uses the mapped font family, and the colours come from the settings |
| Content.Applied | dyslexia_friendly_extension/content.js:78-116 | the style element exists with the current rule; an existing overlay is kept; a missing overlay is created exactly when the background is not '#ffffff', and with that colour |
| Content.Removed | dyslexia_friendly_extension/content.js:119-129 | neither element is left |
| Content.ApplyIdempotent | dyslexia_friendly_extension/content.js:80-102 | applying twice adds nothing |
| Content.RemoveIdempotent | dyslexia_friendly_extension/content.js:119-129 | removing is a no-op on a page without the elements |
| Content.ToggleOffOnRestores | dyslexia_friendly_extension/content.js:12-18 | disabling then enabling gives the clean-page styling, and restores any page that had it |
| Content.Subscriber.constructor | dyslexia_friendly_extension/content.js:2-3 | a new tab starts disabled, with no settings and no elements |
| Content.Subscriber.LoadSettings | dyslexia_friendly_extension/content.js:48-75 | stored settings are adopted; otherwise the content defaults, without `userId`, are adopted and written |
| Content.Subscriber.ApplyDyslexiaStyles | dyslexia_friendly_extension/content.js:78-116 | the page becomes `Applied` of the old page |
| Content.Subscriber.RemoveDyslexiaStyles | dyslexia_friendly_extension/content.js:119-129 | the page becomes `Removed` of the old page |
| Content.Subscriber.HandleToggle | dyslexia_friendly_extension/content.js:12-19 | the flag becomes the message value, and afterwards the style element exists exactly when enabled |
| Content.Subscriber.HandleUpdateSettings | dyslexia_friendly_extension/content.js:20-25 | the settings are replaced wholesale with no merge; styles are re-applied only when enabled, and otherwise the page is unchanged |
| Content.Subscriber.HandleGetStatus | dyslexia_friendly_extension/content.js:32-33 | answers the tab's flag |
| Content.Subscriber.OnStartupStatus | dyslexia_friendly_extension/content.js:39-44 | the start-up reply can switch the flag on, never off, and styles are applied only when it does |
| Content.Subscriber.ReadTextAloud | dyslexia_friendly_extension/content.js:147-158 | the text, or else the selection, is sent exactly when non-empty and text-to-speech is enabled |
| Content.Subscriber.SimplifyText | dyslexia_friendly_extension/content.js:161-182 | the text, or else the selection, is sent exactly when non-empty and rewriting is enabled, with the settings' level and model |
| SettingsRoute.DefaultRecord | server/models/Settings.js:9-68 | a new user's document has the schema defaults, no API keys and the current time |
| SettingsRoute.MergeProvided | server/routes/settings.js:47-60 | a provided part is merged over the stored part; an absent part leaves the stored part untouched |
| SettingsRoute.Posted | server/routes/settings.js:37-63 | without a record, create one from the request's parts or `{}` each, with the schema defaults under the provided settings; with one, merge each provided part independently; the timestamp is set |
| SettingsRoute.PartsIndependent | server/routes/settings.js:47-60 | the settings result does not depend on the API keys sent, and the other way round |
| SettingsRoute.MergeKeepsStoredKeys | server/routes/settings.js:47-52 | stored keys survive a settings merge and keep their value unless the request overrides them |
| SettingsRoute.SettingsCollection.Get | server/routes/settings.js:7-23 | read only; returns the record, 404 exactly when there is none, and 500 on a database error |
| SettingsRoute.SettingsCollection.Post | server/routes/settings.js:26-77 | a refusal by the middleware, or a different user's id, gives 401 and no change; otherwise the user's record becomes `Posted`, the reply carries the saved settings, and other users' records are unchanged |
| AuthRoute.Logout | server/routes/auth.js:108-111 | always 200 with the success message, and the cookie is cleared |
| AuthRoute.Registry.Register | server/routes/auth.js:9-53 | a missing field gives 400; a database failure gives 500, since the duplicate lookup is a database call too; otherwise a username or email already taken gives 400; none of these inserts anything; success adds exactly one user and one default settings record under a new id, answers 201 with that id, and keeps usernames and emails unique |
| AuthRoute.Registry.Login | server/routes/auth.js:56-105 | 'All fields are required' exactly when a field is missing; a database failure gives 500; an unknown user and a wrong password give the same 'Invalid credentials'; a user with that name whose password matches gets success with their id, username and email and the token signed over them; read only |
| AuthRoute.Registry.Status | server/routes/auth.js:114-145 | never fails; logged in exactly when a token is present, it verifies, its user exists and there was no error, and then it reports that user's fields |
| AuthRoute.Registry.LoginThenStatus | server/routes/auth.js:94-139 | when tokens verify to what was signed, a status check with the token from a successful login reports the same user, and with the right password that is the user registered under the name |
| Background.SaveKeyThenSimplify | dyslexia_friendly_extension/background.js:21-23 | as written: after an install with no stored keys, a key the popup then saves to the store is never read, and a simplification is refused with the no-key message; with keys stored before, the old key keeps being used |
| Background.SaveKeyThenLoadedSimplify | dyslexia_friendly_extension/background.js:49-72 | corrected: with the stored keys read before use, a non-empty saved key is the key the request carries, and an empty one is refused |

## Left out

- `Json.Value` is not the whole of JavaScript. Numbers are opaque reals with no
  NaN; `NaN` truthiness is not modelled. A spread of a string, which copies its
  characters under index keys, is treated as `{}`.
- Stored values that this code never writes are not modelled with their exact
  JavaScript effect:
  - a truthy non-object `dyslexiaSettings` or `apiKeys` is ignored;
  - a non-boolean `extensionEnabled` is adopted as its truthiness.
- `Json.Value` has no arrays, although `JSON.parse` of a reply can give one.
  An array reply is modelled like a raw-text reply: it has no fields.
- `Content.Lookup` does not see properties inherited through the JavaScript
  prototype chain. In the source, a lookup finds an inherited property, and
  annotates the word, when the cleaned word is the name of one of these:
  - on an object reply, and on a number or boolean reply (which is
    truthy, so it is used), `constructor`;
  - on a raw-text reply, `constructor`, `length`, or any all-lower-case
    `String.prototype` method of five letters or more. These are `anchor`,
    `blink`, `concat`, `fixed`, `fontcolor`, `fontsize`, `includes`,
    `italics`, `match`, `normalize`, `repeat`, `replace`, `search`, `slice`,
    `small`, `split`, `strike`, `substr` and `substring`;
  - on an array reply, `length` and the all-lower-case `Array.prototype`
    methods of five letters or more, such as `concat`, `every`, `filter`,
    `reduce`, `reverse`, `shift`, `slice`, `splice`, `unshift` and `values`.
- `Content.LongWords` counts the word length in Unicode characters. JavaScript
  counts UTF-16 code units, so the two differ for characters outside the Basic
  Multilingual Plane.
- The annotated markup is kept as a sequence of pieces, not as its HTML text.
  The HTML indentation is left out.
- The source puts each word and its breakdown into `innerHTML` without
  escaping them. A whitespace-free word that is itself markup, such as an
  `<img>` tag with an `onerror` handler, is therefore interpreted by the
  browser. The model does not capture this: a `Piece` always shows its word
  as text.
- The prompt texts are represented by the `Instruction` they select, not by
  their wording.
- The foreign calls are inputs or are left out:
  - the OpenAI HTTP call and the `JSON.parse` of its answer;
  - `chrome.tts`;
  - the context menus (`updateContextMenu`, the click handler);
  - `chrome.scripting.executeScript` and `processTextForDyslexia`;
  - DOM range and selection replacement (`replaceSelectedText`);
  - the keyboard shortcuts.
- The `register` and `readText` message handlers are not modelled. `register`
  only forwards to the server route, and `readText` only calls `chrome.tts`.
- Asynchronous interleaving between contexts is not modelled. Each handler is
  one atomic step. Races between stale server pushes are not modelled, and
  `updateAllTabs` is taken to read the settings at the time of the call.
- The auth middleware (`server/middleware/auth.js`) is the `Gate` input of
  `SettingsRoute.SettingsCollection.Post`. It is either refused, with the
  middleware's message, or passed, with the token's user id.
- Database ids are natural numbers drawn from a counter. In the source, the
  database generates object ids, and a path id that is not an object id gives
  a cast error (500).
- The settings collection holds at most one document per user. The database
  could hold several.
- Only the schema's defaults are modelled. They are filled in when `/register`
  creates a document and when `POST /:userId` creates one. The schema also
  drops unknown setting keys when saving and casts value types; neither is
  modelled.
- `AuthRoute.Registry.Register` treats a failure after the user is saved but
  before the settings document is saved as saving nothing.
- `Background.Controller.HandleLogin` answers a truthy non-string `message` of
  a failed login as the value itself. The source passes it through
  `new Error(...)`, which turns it into a string, such as "5" or
  "[object Object]". Number formatting is not modelled.
- A user of the `/register` and `/login` routes is modelled with an empty
  string for a missing field. Non-string request values are not modelled.
- The `/profile` route is not modelled, because it is not part of the
  synchronisation rules.
- The popup UI (`popup.js`) and the debug pages are not modelled.

## Findings

| source | as written | input that shows it | evidently intended | confidence | as-written member | corrected member |
|---|---|---|---|---|---|---|
| dyslexia_friendly_extension/background.js:21-23 | the background reads the stored API keys only in `loadSettings`, which only the install or update event runs; the popup's `saveApiKey` (dyslexia_friendly_extension/popup.js:398-405) writes them to the store only | install with no stored keys; save an OpenAI key in the popup; ask for a simplification | the saved key is read before it is used | not executed; high | Background.SaveKeyThenSimplify | Background.SaveKeyThenLoadedSimplify |

The corrected member reads the stored keys again before the request. Elsewhere
in the model, a start of the background is the constructor followed by
`LoadSettings`. The handlers of `Background.Controller` work on whichever state
that start leaves.
