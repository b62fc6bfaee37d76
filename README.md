# MultiAiApp client core, modelled in Dafny

MultiAiApp sends one prompt to four AI chat providers (ChatGPT, Gemini,
Claude, Perplexity) through a backend and shows each provider's answer, or
error, as it arrives. This project models the sequential logic under the
SwiftUI layer:

- **Conversation log** (`ChatManager.dfy`, `Messages.dfy`): the `Message` /
  `AIResponse` / `AIPlatform` values, and the `ChatManager` class, which holds
  `messages` and `isProcessing`. `SendMessage` appends the user message and a
  placeholder with one loading slot per platform. `UpdateResponse` replaces
  one platform's slot in place. `FetchResponses` applies the task results one
  by one, in the order they arrive, and then clears `isProcessing`. The main
  theorem (`AllArrivedSettles`, `ArrivalOrderIrrelevant`) says that once every
  platform has reported, every slot is settled by its own platform's result,
  and the final log is the same for every arrival order.
- **Backend protocol** (`ApiManager.dfy`, `BackendConfig.dfy`, `Json.dfy`,
  `Urls.dfy`): the service name per platform and the endpoint strings. It
  covers the request that is built and how a reply is classified: content,
  `apiError`, `invalidResponse`, `parsingError`, or an error passed through
  from the transport or the JSON serializer. It also covers the health and
  services probes, which never fail, and `APIError.errorDescription`. JSON is
  an abstract datatype. A reply is given as input: the optional HTTP status
  and the outcome of parsing its body.
- **Settings** (`Settings.dfy`): the `SettingsManager` class. Its published
  fields sit over a key-value store (`UserDefaults`), modelled as a map in
  which a missing bool reads as false. The pure functions `Load` and `Save`
  specify `loadSettings` and `saveSettings`. The file also covers the URL
  fallback, reset by build mode, `clearAndSetURL`, and URL validation over
  an abstract parsed URL (an optional scheme and an optional host).

The `#if DEBUG` switch is the parameter `debug`. Clocks are parameters
(`Timestamp`). The network is a parameter (`Reply`). Foundation's
`URL(string:)` is a parameter (`Option<ParsedUrl>`).

Two facts of the code shape the model:

- `SettingsManager.backendURL` is never read by `APIManager`, which always
  uses `BackendConfig.apiURL`. So the request URL depends only on the build
  mode.
- The per-provider enabled flags are never read by `ChatManager`, which
  always fans out to `AIPlatform.allCases`. So every exchange has four slots.

Two details of the code differ from what a reader might expect, and the
model follows the code:

- A failure is any status other than exactly 200, not "non-2xx".
- A 200 reply whose body is not JSON propagates the serializer's own error,
  because the code uses `try` there and not `try?`. It does not become
  `parsingError`.

## Model

| member | source | states |
|---|---|---|
| `Messages.RawValue` | MultiAiApp/Models/Message.swift:34-38 | every platform has a non-empty display name; `RawValueInjective` shows they are distinct |
| `Messages.IconName` | MultiAiApp/Models/Message.swift:40-47 | every platform has a non-empty icon name; `IconNameInjective` shows they are distinct |
| `Messages.AllCases` | MultiAiApp/Models/Message.swift:34-38 | `allCases` has four entries, pairwise distinct, starting with ChatGPT and ending with Perplexity |
| `Messages.AllCasesComplete` | MultiAiApp/Models/Message.swift:34-38 | every platform occurs in `allCases` |
| `Messages.RawValueInjective` | MultiAiApp/Models/Message.swift:34-38 | distinct platforms have distinct raw values |
| `Messages.IconNameInjective` | MultiAiApp/Models/Message.swift:40-47 | `iconName` is defined for every platform, and distinct platforms get distinct icons |
| `Messages.MakeResponse` | MultiAiApp/Models/Message.swift:26-31 | the `AIResponse` initialiser stores its arguments; the defaults are content "", loading, no error |
| `Messages.Pending` | MultiAiApp/Models/Message.swift:26-31 | a slot built with only a platform is loading, with empty content and no error |
| `Messages.MakeMessage` | MultiAiApp/Models/Message.swift:11-16 | the `Message` initialiser stores content, `isUser` and timestamp as given; `responses` defaults to empty |
| `BackendConfig.Contains` | MultiAiApp/Config/BackendConfig.swift:41-43 | substring test: true exactly when `sub` occurs at some index of `s` |
| `BackendConfig.BaseURL` | MultiAiApp/Config/BackendConfig.swift:17-27 | the base URL is a plain `http://` address, and the debug and release builds use different servers |
| `BackendConfig.ApiURL` | MultiAiApp/Config/BackendConfig.swift:31-33 | `apiURL` is on the base server: it strictly extends `baseURL` |
| `BackendConfig.HealthURL` | MultiAiApp/Config/BackendConfig.swift:35-37 | `healthURL` is on the base server: it strictly extends `baseURL` |
| `BackendConfig.GetServiceURL` | MultiAiApp/Config/BackendConfig.swift:45-47 | every chat route lies under `apiURL` |
| `BackendConfig.GetServicesURL` | MultiAiApp/Config/BackendConfig.swift:49-51 | the services listing lies under `apiURL` |
| `BackendConfig.IsLocalhost` | MultiAiApp/Config/BackendConfig.swift:41-43 | `isLocalhost()` holds exactly in a debug build. The debug URL contains "localhost"; the release placeholder contains neither "localhost" nor "127.0.0.1" |
| `BackendConfig.MissingCharNotContained` | MultiAiApp/Config/BackendConfig.swift:41-43 | a string lacking one character of `sub` does not contain `sub` |
| `BackendConfig.EndpointsExtendBase` | MultiAiApp/Config/BackendConfig.swift:31-51 | every endpoint is the base URL followed by "/api/ai", "/health", "/api/ai/chat/<service>" or "/api/ai/services" |
| `BackendConfig.RoutesDistinct` | MultiAiApp/Config/BackendConfig.swift:31-51 | the API root, health, services listing and chat routes never coincide, whatever the service name |
| `BackendConfig.ServiceURLInjective` | MultiAiApp/Config/BackendConfig.swift:45-47 | distinct service names give distinct service URLs |
| `Json.AsObject` | MultiAiApp/Services/APIManager.swift:74 | `as? [String: Any]` succeeds exactly on an object, and yields its fields |
| `Json.StringField` | MultiAiApp/Services/APIManager.swift:66-67 | `dict[key] as? String` succeeds exactly when the key holds a string, and yields that string |
| `Json.ObjectField` | MultiAiApp/Services/APIManager.swift:82 | `dict[key] as? [String: Any]` succeeds exactly when the key holds an object, and yields its fields |
| `Json.Strings` | MultiAiApp/Services/APIManager.swift:130 | `as? [String]` on an all-string array keeps the length and every element, in order |
| `Json.StringArray` | MultiAiApp/Services/APIManager.swift:130 | an array of strings reads back by `Strings` to the same list |
| `ApiManager.ServiceName` | MultiAiApp/Services/APIManager.swift:29-39 | every platform has a non-empty service name; `ServiceNameInjective` shows they are distinct |
| `ApiManager.ServiceNameInjective` | MultiAiApp/Services/APIManager.swift:29-39 | the platform → service-name mapping (openai, google, anthropic, perplexity) is injective |
| `ApiManager.ServiceURLsDistinct` | MultiAiApp/Services/APIManager.swift:41 | no two platforms are sent to the same URL |
| `ApiManager.NewRequest` | MultiAiApp/Services/APIManager.swift:44 | a fresh request is a GET with no headers and no body |
| `ApiManager.AddValue` | MultiAiApp/Services/APIManager.swift:46 | adding a header value appends it to that field and leaves the URL, method, body and other fields alone |
| `ApiManager.RequestBody` | MultiAiApp/Services/APIManager.swift:49-53 | the request body is an object whose only key is "messages" |
| `ApiManager.DecodeChatMessages` | MultiAiApp/Services/APIManager.swift:49-53 | a messages array decodes exactly when every entry is an object with only the keys role and content, both strings, entry by entry |
| `ApiManager.RequestBodyCarriesPrompt` | MultiAiApp/Services/APIManager.swift:49-53 | the body holds exactly one message, `{role: "user", content: prompt}` |
| `ApiManager.BuildRequest` | MultiAiApp/Services/APIManager.swift:41-55 | the request goes to `getServiceURL(serviceName)`, is a POST with exactly the header Content-Type: application/json, and carries the prompt as the only user message |
| `ApiManager.ErrorDescription` | MultiAiApp/Services/APIManager.swift:147-157 | `apiError`'s payload is returned verbatim; every other case has a non-empty fixed text |
| `ApiManager.FixedDescriptionsDistinct` | MultiAiApp/Services/APIManager.swift:147-157 | the three fixed descriptions differ from each other |
| `ApiManager.LocalizedDescription` | MultiAiApp/Services/APIManager.swift:141-157 | a client error shows its `errorDescription`; a passed-through error keeps its own description |
| `ApiManager.FirstChoiceContent` | MultiAiApp/Services/APIManager.swift:80-86 | yields `c` exactly when the body has the shape `choices[0].message.content == c`, with every element of `choices` an object |
| `ApiManager.ErrorMessage` | MultiAiApp/Services/APIManager.swift:66-67 | yields the body's "error" string when the body parsed to an object that has one |
| `ApiManager.ClassifyReply` | MultiAiApp/Services/APIManager.swift:58-94 | transport errors pass through. A status other than 200 gives `apiError("<Platform>: <msg>")` or `invalidResponse`. Content comes only from a 200 or non-HTTP reply with the answer shape, returned verbatim. Unparseable 200 bodies propagate the serializer error. Other JSON is `parsingError` |
| `ApiManager.SendRequest` | MultiAiApp/Services/APIManager.swift:18-95 | the request is built for the platform, and the result is the classification of the backend's reply |
| `ApiManager.AnswerRoundTrip` | MultiAiApp/Services/APIManager.swift:74-86 | a 200 reply `{choices:[{message:{content:c}}]}` yields exactly `c` |
| `ApiManager.CheckBackendHealth` | MultiAiApp/Services/APIManager.swift:98-120 | true iff the URL parses, the reply is HTTP 200 and the body is an object whose "status" is the string "ok"; every other outcome is false |
| `ApiManager.GetAvailableServices` | MultiAiApp/Services/APIManager.swift:123-138 | a non-empty result is exactly the "services" string array of a parsed object body; anything else yields [] |
| `ApiManager.ServicesListReturned` | MultiAiApp/Services/APIManager.swift:129-131 | a "services" string array in the body is returned as is |
| `ApiManager.ServicesIgnoreStatus` | MultiAiApp/Services/APIManager.swift:127-131 | the status code plays no part in the services probe |
| `ChatManager.TaskResultOf` | MultiAiApp/Managers/ChatManager.swift:43-49 | a task yields the answer, or the `localizedDescription` of the error it caught |
| `ChatManager.Answered` | MultiAiApp/Managers/ChatManager.swift:75-81 | the new slot is not loading. A success has the answer as content and no error. A failure has content "" and the given error, or "Failed to get response" when none is given |
| `ChatManager.FirstIndexOf` | MultiAiApp/Managers/ChatManager.swift:74 | the index of the first slot of the platform, or none when no slot has it |
| `ChatManager.FirstIndexSamePlatforms` | MultiAiApp/Managers/ChatManager.swift:74 | replacing slots without changing their platforms leaves every first index as it was |
| `ChatManager.Updated` | MultiAiApp/Managers/ChatManager.swift:70-85 | an index past the end, or a platform with no slot, leaves the log unchanged. Otherwise only the first slot of that platform in that message changes. Counts, headers, other slots and other messages are kept, and so is well-formedness |
| `ChatManager.SlotFor` | MultiAiApp/Managers/ChatManager.swift:55-60 | a success result settles the slot to its content with no error; a failure settles it to "" with the error's description |
| `ChatManager.ApplyResultAt` | MultiAiApp/Managers/ChatManager.swift:55-60 | one arrival replaces the first slot of its platform with the slot its result settles to |
| `ChatManager.ApplyResult` | MultiAiApp/Managers/ChatManager.swift:55-60 | one arrival keeps the log's length, every other message, the indexed message's header and slot count, and the shape of every slot |
| `ChatManager.ApplyAll` | MultiAiApp/Managers/ChatManager.swift:53-62 | after the loop the log has the same length and every slot keeps its shape |
| `ChatManager.ApplyAllFrame` | MultiAiApp/Managers/ChatManager.swift:53-62 | whatever arrives, only the indexed message's slots change: other messages, its header and its slot count stay |
| `ChatManager.Arrivals` | MultiAiApp/Managers/ChatManager.swift:37-51 | the i-th arrival is platform `order[i]` with that platform's result |
| `ChatManager.Settle` | MultiAiApp/Managers/ChatManager.swift:53-62 | settling keeps the number of slots and the platform of every slot |
| `ChatManager.SettleStep` | MultiAiApp/Managers/ChatManager.swift:53-62 | one more platform reporting settles exactly that platform's first slot |
| `ChatManager.ApplyArrivals` | MultiAiApp/Managers/ChatManager.swift:53-62 | after any sequence of arrivals, exactly the first slot of each platform that arrived is settled; nothing else in the log changes |
| `ChatManager.SettleAll` | MultiAiApp/Managers/ChatManager.swift:53-62 | when every platform has reported, no slot is loading and platforms are kept |
| `ChatManager.AllArrivedSettles` | MultiAiApp/Managers/ChatManager.swift:53-62 | once every platform has reported, in any order, every slot of the message is settled by its own platform's result and no other message changed |
| `ChatManager.ArrivalOrderIrrelevant` | MultiAiApp/Managers/ChatManager.swift:53-62 | two arrival orders of the same platforms and results leave the same log |
| `ChatManager.ApplyAllPastEnd` | MultiAiApp/Managers/ChatManager.swift:71 | results for an index past the end of the log change nothing |
| `ChatManager.PendingSlots` | MultiAiApp/Managers/ChatManager.swift:21-24 | the placeholder has one slot per `allCases` entry, in that order. All are loading with content "" and no error, and their platforms are distinct |
| `ChatManager.AnsweredSlots` | MultiAiApp/Managers/ChatManager.swift:53-62 | after the loop, the answer has one settled, non-loading slot per platform, in `allCases` order |
| `ChatManager.ProviderErrorReachesSlot` | MultiAiApp/Services/APIManager.swift:65-68 | a non-200 `{"error": m}` reply ends as a failed slot whose error is "<Platform>: m" |
| `ChatManager.ChatManager.constructor` | MultiAiApp/Managers/ChatManager.swift:5-6 | the log starts empty and not processing |
| `ChatManager.ChatManager.SendMessage` | MultiAiApp/Managers/ChatManager.swift:17-34 | the log grows by exactly a user message with the content, then a non-user placeholder with content "" and the pending slots. `isProcessing` is set, and the returned index is the placeholder's |
| `ChatManager.ChatManager.UpdateResponse` | MultiAiApp/Managers/ChatManager.swift:70-85 | the new log is `Updated(old log, …)`; `isProcessing` is untouched |
| `ChatManager.ChatManager.FetchResponses` | MultiAiApp/Managers/ChatManager.swift:36-67 | the results are applied in arrival order. `isProcessing` stays as it was throughout the loop, and becomes false only after it |
| `ChatManager.ChatManager.SendAndCollect` | MultiAiApp/Managers/ChatManager.swift:17-67 | a whole exchange, for any arrival order covering every platform, ends with the user message and a fully settled answer. `isProcessing` is false at the end |
| `Settings.StringFor` | MultiAiApp/Managers/SettingsManager.swift:26 | reads a stored string, or nothing |
| `Settings.BoolFor` | MultiAiApp/Managers/SettingsManager.swift:31-34 | reads a stored bool; a missing key reads as false |
| `Settings.Load` | MultiAiApp/Managers/SettingsManager.swift:24-44 | the URL is the stored string or `defaultLocalURL`. On a first run every flag is enabled and only `hasSetDefaults` is written. Otherwise the flags are the stored bools and the store is untouched |
| `Settings.Save` | MultiAiApp/Managers/SettingsManager.swift:46-60 | writes the URL and the four flags, and no other key changes |
| `Settings.SaveLoadRoundTrip` | MultiAiApp/Managers/SettingsManager.swift:24-60 | once defaults are set, a save followed by a load restores the URL and the four flags |
| `Settings.FirstRunDefaultsNotPersisted` | MultiAiApp/Managers/SettingsManager.swift:36-42 | as written, a second load with no save in between reads the first-run defaults back as false |
| `Settings.LoadPersistingDefaults` | MultiAiApp/Managers/SettingsManager.swift:36-42 | the corrected load gives the same settings as `Load`. On a first run it also stores all four flags as true, as well as `hasSetDefaults`; otherwise the store is left as it was. Keys outside the settings are always kept |
| `Settings.LoadPersistingDefaultsIdempotent` | MultiAiApp/Managers/SettingsManager.swift:24-44 | with the correction, a second load sees the settings and the store the first one left |
| `Settings.Lowercased` | MultiAiApp/Managers/SettingsManager.swift:94 | ASCII lower-casing, character by character, keeping the length |
| `Settings.SettingsManager.constructor` | MultiAiApp/Managers/SettingsManager.swift:20-22 | construction loads from the persisted store |
| `Settings.SettingsManager.LoadSettings` | MultiAiApp/Managers/SettingsManager.swift:24-44 | the fields and the store become `Load(old store)` |
| `Settings.SettingsManager.SaveSettings` | MultiAiApp/Managers/SettingsManager.swift:46-60 | the fields are unchanged; the store becomes `Save(fields, old store)` |
| `Settings.SettingsManager.GetBackendURL` | MultiAiApp/Managers/SettingsManager.swift:62-67 | `defaultLocalURL` when the URL is empty, the URL unchanged otherwise; never empty |
| `Settings.SettingsManager.ResetToDefaults` | MultiAiApp/Managers/SettingsManager.swift:69-77 | the URL becomes `defaultLocalURL` (debug) or `defaultProductionURL` (release), which is also `BackendConfig.baseURL`. It is persisted, and the flags are kept |
| `Settings.SettingsManager.ClearAndSetURL` | MultiAiApp/Managers/SettingsManager.swift:79-88 | both the field and the stored "backendURL" become the new URL, and the flags are kept |
| `Settings.SettingsManager.IsValidURL` | MultiAiApp/Managers/SettingsManager.swift:91-99 | true iff the URL parses with a host and a scheme equal to "http" or "https" ignoring case; it reads and changes no field |
| `Settings.ValidationExamples` | MultiAiApp/Managers/SettingsManager.swift:91-99 | accepts http://localhost and HTTPS://api.example.com; rejects ftp, a URL without scheme or host, and unparseable text |

## Findings

| source | as written | input that shows it | evidently intended | confidence | as-written member | corrected member |
|---|---|---|---|---|---|---|
| MultiAiApp/Managers/SettingsManager.swift:36-42 | on a first run `loadSettings` enables the four flags in memory but stores only `hasSetDefaults = true` | empty store, two loads with no save between: the first gives all flags true, the second all false | the first-run defaults are stored with `hasSetDefaults`, so later launches see them | high (not executed) | `Settings.FirstRunDefaultsNotPersisted` | `Settings.LoadPersistingDefaultsIdempotent` |

The `SettingsManager` class keeps the code as written (`Load`). The
corrected `LoadPersistingDefaults` stands beside it with its idempotence
proof. The flags are display-only (nothing in the chat path reads them), so
the effect is that the settings screen shows every provider disabled on a
second launch.

## Left out

- SwiftUI views, colours (`AIPlatform.color`), and the app entry point: presentation only.
- `URLSession` I/O and `print` logging. The backend's reply is an input (`Reply`), and a transport failure is `TransportError`.
- A body whose top level is a scalar (such as `"x"` or `3`): such a reply must be given as a `Failure` body, because `jsonObject(with:)` is called without `.fragmentsAllowed` and throws on it. The model's `Json` type does not exclude a top-level scalar, and one given as `Success` would be classified as `parsingError`.
- Byte-level JSON parsing and serialisation by `JSONSerialization`: bodies are the abstract `Json` datatype. JSON numbers keep their text; floating point is not modelled.
- Bridging corner cases of `as?` casts, such as numbers read as strings.
- `UserDefaults` coercions between strings, numbers and bools.
- `synchronize()`: treated as a no-op.
- Concurrency in `fetchResponses`: the task group, `MainActor.run` and cancellation. The loop applies results sequentially in a given arrival order. The `[weak self]` path, which yields `missingAPIKey` once the manager is gone, is only one possible task result: the model does not tie it to the manager's lifetime.
- The message index is the one returned by `SendMessage`. The app blocks a second send while `isProcessing` is set, so the log cannot grow between the send and the task reading `messages.count - 1`.
- `UUID` identities and `Date` timestamps: ids are left out, timestamps are parameters. `updateResponse` builds a fresh `AIResponse`, so nothing is claimed about a slot's id.
- `ChatManager.configure` and `APIManager.configure`: they only store a `SettingsManager` reference that no modelled operation reads.
- Foundation's `URL(string:)` parsing: the outcome of the parse is an input (`Option<ParsedUrl>`), in `isValidURL` and in the two probes.
- The force-unwrapped `URL(string:)!` for chat requests is assumed to succeed. The service URLs are fixed strings.
- `Settings.Lowercased`: ASCII only. Swift's `lowercased()` is full Unicode, which matters only for non-ASCII schemes.
- Keychain storage (`KeychainManager`, `APIConfig`): a wrapper over the Security framework, whose key table is empty. The development-keys extension and the API-keys template hold no logic.
