/** User settings (`SettingsManager`): the backend URL and four per-provider
    flags, held in published fields and persisted in a key-value store
    (`UserDefaults`). The store is a map from key to stored value; the
    `#if DEBUG` switch is the parameter `debug`. */
module Settings {
  import opened Wrappers
  import opened Urls
  import BackendConfig

  const DefaultLocalURL: string := "http://localhost:48395"
  const DefaultProductionURL: string := "http://YOUR_LINODE_IP"

  const BackendURLKey: string := "backendURL"
  const ChatGPTKey: string := "isChatGPTEnabled"
  const GeminiKey: string := "isGeminiEnabled"
  const ClaudeKey: string := "isClaudeEnabled"
  const PerplexityKey: string := "isPerplexityEnabled"
  const HasSetDefaultsKey: string := "hasSetDefaults"

  /** The keys `saveSettings` writes. */
  function SavedKeys(): set<string> {
    {BackendURLKey, ChatGPTKey, GeminiKey, ClaudeKey, PerplexityKey}
  }

  /** A value in the store. */
  datatype Stored = SString(s: string) | SBool(b: bool)

  type Store = map<string, Stored>

  /** `string(forKey:)`: the string stored under `key`, if any. */
  function StringFor(store: Store, key: string): (r: Option<string>)
    ensures r.Some? <==> key in store && store[key].SString?
    ensures r.Some? ==> store[key] == SString(r.value)
  {
    if key in store && store[key].SString? then Some(store[key].s) else None
  }

  /** `bool(forKey:)`: a missing key reads as false. */
  function BoolFor(store: Store, key: string): (r: bool)
    ensures r <==> key in store && store[key] == SBool(true)
  {
    key in store && store[key].SBool? && store[key].b
  }

  /** The values of the published fields. */
  datatype Settings = Settings(backendURL: string, chatGPT: bool, gemini: bool, claude: bool, perplexity: bool)

  /** `loadSettings`, as written: the fields it sets and the store it leaves. */
  function Load(store: Store): (r: (Settings, Store))
    ensures r.0.backendURL == if StringFor(store, BackendURLKey).Some?
                              then StringFor(store, BackendURLKey).value else DefaultLocalURL
    ensures !BoolFor(store, HasSetDefaultsKey) ==>
              && r.0.chatGPT && r.0.gemini && r.0.claude && r.0.perplexity
              && r.1 == store[HasSetDefaultsKey := SBool(true)]
    ensures BoolFor(store, HasSetDefaultsKey) ==>
              && r.0.chatGPT == BoolFor(store, ChatGPTKey) && r.0.gemini == BoolFor(store, GeminiKey)
              && r.0.claude == BoolFor(store, ClaudeKey) && r.0.perplexity == BoolFor(store, PerplexityKey)
              && r.1 == store
    ensures BoolFor(r.1, HasSetDefaultsKey)
  {
    var url := StringFor(store, BackendURLKey).GetOr(DefaultLocalURL);
    if !BoolFor(store, HasSetDefaultsKey) then
      (Settings(url, true, true, true, true), store[HasSetDefaultsKey := SBool(true)])
    else
      (Settings(url, BoolFor(store, ChatGPTKey), BoolFor(store, GeminiKey), BoolFor(store, ClaudeKey),
                BoolFor(store, PerplexityKey)),
       store)
  }

  /** `saveSettings`: the store after writing the URL and the four flags. */
  function Save(s: Settings, store: Store): (r: Store)
    ensures r.Keys == store.Keys + SavedKeys()
    ensures forall k :: k in store && k !in SavedKeys() ==> r[k] == store[k]
    ensures StringFor(r, BackendURLKey) == Some(s.backendURL)
    ensures r[ChatGPTKey] == SBool(s.chatGPT) && r[GeminiKey] == SBool(s.gemini)
    ensures r[ClaudeKey] == SBool(s.claude) && r[PerplexityKey] == SBool(s.perplexity)
  {
    store[BackendURLKey := SString(s.backendURL)]
         [ChatGPTKey := SBool(s.chatGPT)]
         [GeminiKey := SBool(s.gemini)]
         [ClaudeKey := SBool(s.claude)]
         [PerplexityKey := SBool(s.perplexity)]
  }

  /** Saving and then loading, once the defaults have been set, gives back
      the saved settings and leaves the store as saved. */
  lemma SaveLoadRoundTrip(s: Settings, store: Store)
    requires BoolFor(store, HasSetDefaultsKey)
    ensures Load(Save(s, store)) == (s, Save(s, store))
  {
    assert HasSetDefaultsKey !in SavedKeys();
  }

  /** As written, the first-run defaults live only in memory: with nothing
      stored, a first load enables every flag, yet a second load with no
      save in between reads every flag back as false. */
  lemma FirstRunDefaultsNotPersisted()
    ensures var (first, store1) := Load(map[]);
            var (second, _) := Load(store1);
            first.chatGPT && !second.chatGPT
  {
    var store1 := Load(map[]).1;
    assert store1 == map[HasSetDefaultsKey := SBool(true)];
    assert ChatGPTKey !in store1;
  }

  /** `loadSettings` as evidently intended: the first-run defaults are
      written to the store together with `hasSetDefaults`. */
  function LoadPersistingDefaults(store: Store): (r: (Settings, Store))
    ensures r.0 == Load(store).0
    ensures BoolFor(r.1, HasSetDefaultsKey)
    ensures forall k :: k in store && k !in SavedKeys() + {HasSetDefaultsKey} ==> k in r.1 && r.1[k] == store[k]
    ensures !BoolFor(store, HasSetDefaultsKey) ==>
              && BoolFor(r.1, ChatGPTKey) && BoolFor(r.1, GeminiKey)
              && BoolFor(r.1, ClaudeKey) && BoolFor(r.1, PerplexityKey)
    ensures BoolFor(store, HasSetDefaultsKey) ==> r.1 == store
  {
    var (s, stored) := Load(store);
    if BoolFor(store, HasSetDefaultsKey) then (s, stored)
    else
      (s, stored[ChatGPTKey := SBool(true)][GeminiKey := SBool(true)]
                [ClaudeKey := SBool(true)][PerplexityKey := SBool(true)])
  }

  /** With the correction, loading is idempotent: a second load sees the
      settings and the store the first one left. */
  lemma LoadPersistingDefaultsIdempotent(store: Store)
    ensures var (s, stored) := LoadPersistingDefaults(store);
            LoadPersistingDefaults(stored) == (s, stored)
  {
    var (s, stored) := LoadPersistingDefaults(store);
    if !BoolFor(store, HasSetDefaultsKey) {
      assert stored[ChatGPTKey] == SBool(true) && stored[GeminiKey] == SBool(true);
      assert stored[ClaudeKey] == SBool(true) && stored[PerplexityKey] == SBool(true);
      assert BackendURLKey != HasSetDefaultsKey && BackendURLKey !in {ChatGPTKey, GeminiKey, ClaudeKey, PerplexityKey};
      assert StringFor(stored, BackendURLKey) == StringFor(store, BackendURLKey);
    }
  }

  /** ASCII lower-casing of one character. */
  function LowerChar(c: char): char {
    if 'A' <= c <= 'Z' then (c as int - 'A' as int + 'a' as int) as char else c
  }

  /** `lowercased()`, for ASCII text. */
  function Lowercased(s: string): (r: string)
    ensures |r| == |s| && forall i :: 0 <= i < |s| ==> r[i] == LowerChar(s[i])
  {
    seq(|s|, i requires 0 <= i < |s| => LowerChar(s[i]))
  }

  /** `s` equals the lower-case word `t` when case is ignored. */
  predicate EqualsIgnoringCase(s: string, t: string) {
    |s| == |t| && forall i :: 0 <= i < |s| ==> LowerChar(s[i]) == t[i]
  }

  class SettingsManager {
    var backendURL: string
    var isChatGPTEnabled: bool
    var isGeminiEnabled: bool
    var isClaudeEnabled: bool
    var isPerplexityEnabled: bool
    /** The contents of the `UserDefaults` domain. */
    var store: Store

    /** The published fields as one value. */
    function Current(): Settings
      reads this
    {
      Settings(backendURL, isChatGPTEnabled, isGeminiEnabled, isClaudeEnabled, isPerplexityEnabled)
    }

    /** `init()`: loads from the store found at start-up. */
    constructor (persisted: Store)
      ensures (Current(), store) == Load(persisted)
    {
      store := persisted;
      backendURL := "";
      isChatGPTEnabled, isGeminiEnabled, isClaudeEnabled, isPerplexityEnabled := true, true, true, true;
      new;
      LoadSettings();
    }

    /** `loadSettings()`. */
    method LoadSettings()
      modifies this
      ensures (Current(), store) == Load(old(store))
    {
      var savedURL := StringFor(store, BackendURLKey);
      backendURL := savedURL.GetOr(DefaultLocalURL);

      isChatGPTEnabled := BoolFor(store, ChatGPTKey);
      isGeminiEnabled := BoolFor(store, GeminiKey);
      isClaudeEnabled := BoolFor(store, ClaudeKey);
      isPerplexityEnabled := BoolFor(store, PerplexityKey);

      if !BoolFor(store, HasSetDefaultsKey) {
        isChatGPTEnabled := true;
        isGeminiEnabled := true;
        isClaudeEnabled := true;
        isPerplexityEnabled := true;
        store := store[HasSetDefaultsKey := SBool(true)];
      }
    }

    /** `saveSettings()`: the fields are unchanged and the store holds them. */
    method SaveSettings()
      modifies this
      ensures Current() == old(Current())
      ensures store == Save(Current(), old(store))
    {
      store := store[BackendURLKey := SString(backendURL)];
      store := store[ChatGPTKey := SBool(isChatGPTEnabled)];
      store := store[GeminiKey := SBool(isGeminiEnabled)];
      store := store[ClaudeKey := SBool(isClaudeEnabled)];
      store := store[PerplexityKey := SBool(isPerplexityEnabled)];
    }

    /** `getBackendURL()`: the configured URL, or the local default when it is empty. */
    function GetBackendURL(): (r: string)
      reads this
      ensures backendURL == "" ==> r == DefaultLocalURL
      ensures backendURL != "" ==> r == backendURL
      ensures r != ""
    {
      if backendURL == "" then DefaultLocalURL else backendURL
    }

    /** `resetToDefaults()`: the build's default URL, saved with the flags. */
    method ResetToDefaults(debug: bool)
      modifies this
      ensures backendURL == (if debug then DefaultLocalURL else DefaultProductionURL)
      ensures backendURL == BackendConfig.BaseURL(debug)
      ensures isChatGPTEnabled == old(isChatGPTEnabled) && isGeminiEnabled == old(isGeminiEnabled)
      ensures isClaudeEnabled == old(isClaudeEnabled) && isPerplexityEnabled == old(isPerplexityEnabled)
      ensures store == Save(Current(), old(store))
    {
      if debug {
        backendURL := DefaultLocalURL;
      } else {
        backendURL := DefaultProductionURL;
      }
      SaveSettings();
    }

    /** `clearAndSetURL(_:)`: removes the stored URL, then sets and saves the new one. */
    method ClearAndSetURL(url: string)
      modifies this
      ensures backendURL == url && StringFor(store, BackendURLKey) == Some(url)
      ensures isChatGPTEnabled == old(isChatGPTEnabled) && isGeminiEnabled == old(isGeminiEnabled)
      ensures isClaudeEnabled == old(isClaudeEnabled) && isPerplexityEnabled == old(isPerplexityEnabled)
      ensures store == Save(Current(), old(store))
    {
      store := store - {BackendURLKey};
      backendURL := url;
      SaveSettings();
      assert store == Save(Current(), old(store));
    }

    /** `isValidURL(_:)`: `parsed` is the outcome of `URL(string:)` on the
        candidate text. Reads and changes no field. */
    function IsValidURL(parsed: Option<ParsedUrl>): (r: bool)
      ensures r <==> && parsed.Some? && parsed.value.scheme.Some? && parsed.value.host.Some?
                     && (EqualsIgnoringCase(parsed.value.scheme.value, "http")
                         || EqualsIgnoringCase(parsed.value.scheme.value, "https"))
    {
      match parsed
      case None => false
      case Some(url) =>
        match url.scheme
        case None => false
        case Some(scheme) =>
          var lower := Lowercased(scheme);
          assert lower == "http" <==> EqualsIgnoringCase(scheme, "http");
          assert lower == "https" <==> EqualsIgnoringCase(scheme, "https");
          lower in ["http", "https"] && url.host.Some?
    }
  }

  /** Sample candidates: only http and https with a host are accepted,
      whatever the case of the scheme. */
  lemma ValidationExamples(m: SettingsManager)
    ensures m.IsValidURL(Some(ParsedUrl(Some("http"), Some("localhost"))))
    ensures m.IsValidURL(Some(ParsedUrl(Some("HTTPS"), Some("api.example.com"))))
    ensures !m.IsValidURL(Some(ParsedUrl(Some("ftp"), Some("x.com"))))
    ensures !m.IsValidURL(Some(ParsedUrl(None, None)))
    ensures !m.IsValidURL(None)
  {
    assert EqualsIgnoringCase("HTTPS", "https") by {
      assert LowerChar('H') == 'h' && LowerChar('T') == 't' && LowerChar('P') == 'p' && LowerChar('S') == 's';
    }
    assert EqualsIgnoringCase("http", "http");
  }
}
