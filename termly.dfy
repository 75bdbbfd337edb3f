/** The consent-mode tag template: it maps Termly's consent categories onto Google Tag Manager
    consent types, builds per-region default commands from the template fields, and dispatches on
    the data-layer event. Calls into the tag-manager sandbox are not made: they are returned, in
    order, as a list of effects. */
module Termly {
  import opened Js

  /** The JavaScript values that reach this code through template fields, the data layer,
      localStorage and window.Termly. */
  datatype JsValue =
    | Undefined
    | Null
    | Bool(b: bool)
    | Num(n: int)
    | Str(s: string)
    | StrList(items: seq<string>)

  /** A plain JavaScript object; the order of its keys is not modelled. */
  type JsObject = map<string, JsValue>

  /** JavaScript truthiness. */
  predicate Truthy(v: JsValue)
  {
    match v
    case Undefined => false
    case Null => false
    case Bool(b) => b
    case Num(n) => n != 0
    case Str(s) => s != []
    case StrList(_) => true
  }

  /** Property access `o[key]`: a missing key reads as `undefined`. */
  function Get(o: JsObject, key: string): JsValue
  {
    if key in o then o[key] else Undefined
  }

  const IS_DEFAULT_STATE: string := "is_default_state"
  const LOCAL_STORAGE_KEY: string := "termly_gtm_template_default_consents"
  const UPDATE_COMPLETE_EVENT_NAME: string := "Termly.consentSaveDone"
  /** The `wait_for_update` delay, in milliseconds, stamped on every regional default. */
  const REGIONAL_WAIT_FOR_UPDATE: int := 500

  /** Each Google consent type and the Termly category it follows. */
  const GTM_TO_TERMLY: map<string, string> := map[
    "ad_personalization" := "advertising",
    "ad_storage" := "advertising",
    "ad_user_data" := "advertising",
    "analytics_storage" := "analytics",
    "functionality_storage" := "performance",
    "personalization_storage" := "performance",
    "security_storage" := "essential",
    "social_storage" := "social_networking",
    "unclassified_storage" := "unclassified"
  ]

  /** The keys of GTM_TO_TERMLY in the order Object.entries visits them. */
  const GTM_KEYS: seq<string> := [
    "ad_personalization", "ad_storage", "ad_user_data", "analytics_storage",
    "functionality_storage", "personalization_storage", "security_storage",
    "social_storage", "unclassified_storage"
  ]

  lemma GtmKeysAreTheTableKeys()
    ensures forall j :: 0 <= j < |GTM_KEYS| ==> GTM_KEYS[j] in GTM_TO_TERMLY
    ensures forall k :: k in GTM_KEYS <==> k in GTM_TO_TERMLY
  {
  }

  // ---------------------------------------------------------------- splitInput

  /** `map((item) => item.trim()).filter((item) => !!item.length)`: the trimmed pieces, in
      order, with the empty ones left out. */
  function TrimAndDrop(pieces: seq<string>): seq<string>
  {
    if pieces == [] then []
    else
      var item := Trim(pieces[0]);
      if item == [] then TrimAndDrop(pieces[1..]) else [item] + TrimAndDrop(pieces[1..])
  }

  /** An item splitInput can return: non-empty, without a comma, and not starting or ending in whitespace. */
  predicate IsCleanItem(x: string)
  {
    x != [] && ',' !in x && !IsWhitespace(x[0]) && !IsWhitespace(x[|x| - 1])
  }

  /** Every item kept is a non-empty trimmed piece, and there are no more items than pieces. */
  lemma {:induction false} TrimAndDropSound(pieces: seq<string>)
    ensures |TrimAndDrop(pieces)| <= |pieces|
    ensures forall x :: x in TrimAndDrop(pieces) ==> x != [] && exists i :: 0 <= i < |pieces| && x == Trim(pieces[i])
  {
    if pieces != [] {
      var rest := pieces[1..];
      TrimAndDropSound(rest);
      forall x | x in TrimAndDrop(pieces)
        ensures x != [] && exists i :: 0 <= i < |pieces| && x == Trim(pieces[i])
      {
        if x in TrimAndDrop(rest) {
          var i :| 0 <= i < |rest| && x == Trim(rest[i]);
          assert x == Trim(pieces[i + 1]);
        } else {
          assert x == Trim(pieces[0]);
        }
      }
    }
  }

  /** Every non-empty trimmed piece is kept. */
  lemma {:induction false} TrimAndDropComplete(pieces: seq<string>, i: nat)
    requires i < |pieces| && Trim(pieces[i]) != []
    ensures Trim(pieces[i]) in TrimAndDrop(pieces)
  {
    var rest := pieces[1..];
    var item := Trim(pieces[0]);
    var kept := TrimAndDrop(rest);
    assert TrimAndDrop(pieces) == if item == [] then kept else [item] + kept;
    if i > 0 {
      TrimAndDropComplete(rest, i - 1);
      assert rest[i - 1] == pieces[i];
      assert Trim(pieces[i]) in kept;
    }
  }

  /** The items kept are exactly the non-empty trimmed pieces, and there are no more of them than pieces. */
  lemma TrimAndDropKeeps(pieces: seq<string>)
    ensures |TrimAndDrop(pieces)| <= |pieces|
    ensures forall x :: x in TrimAndDrop(pieces) <==> x != [] && exists i :: 0 <= i < |pieces| && x == Trim(pieces[i])
  {
    TrimAndDropSound(pieces);
    forall i | 0 <= i < |pieces| && Trim(pieces[i]) != []
      ensures Trim(pieces[i]) in TrimAndDrop(pieces)
    {
      TrimAndDropComplete(pieces, i);
    }
  }

  /** Trimming comma-free pieces and dropping the empty ones leaves clean items. */
  lemma {:induction false} TrimAndDropClean(pieces: seq<string>)
    requires forall i :: 0 <= i < |pieces| ==> ',' !in pieces[i]
    ensures forall i :: 0 <= i < |TrimAndDrop(pieces)| ==> IsCleanItem(TrimAndDrop(pieces)[i])
  {
    if pieces != [] {
      var item := Trim(pieces[0]);
      var rest := TrimAndDrop(pieces[1..]);
      TrimAndDropClean(pieces[1..]);
      if item == [] {
        assert TrimAndDrop(pieces) == rest;
      } else {
        TrimKeepsOut(pieces[0], ',');
        assert IsCleanItem(item);
        assert TrimAndDrop(pieces) == [item] + rest;
        forall i | 0 <= i < |TrimAndDrop(pieces)|
          ensures IsCleanItem(TrimAndDrop(pieces)[i])
        {
          if i > 0 {
            assert TrimAndDrop(pieces)[i] == rest[i - 1];
          }
        }
      }
    }
  }

  /** splitInput: the comma-separated items of a template field, trimmed, empty ones dropped. */
  function SplitInput(input: string): (items: seq<string>)
    ensures forall i :: 0 <= i < |items| ==> IsCleanItem(items[i])
  {
    TrimAndDropClean(Split(input, ','));
    TrimAndDrop(Split(input, ','))
  }

  /** splitInput returns the comma-separated pieces in their order, each trimmed, the empty ones removed. */
  lemma SplitInputPieces(pieces: seq<string>)
    requires |pieces| >= 1
    requires forall i :: 0 <= i < |pieces| ==> ',' !in pieces[i]
    ensures SplitInput(Join(pieces, ',')) == TrimAndDrop(pieces)
  {
    SplitJoin(pieces, ',');
  }

  // ---------------------------------------------------------------- parseCommandData

  /** One entry of the template's regional-defaults table. */
  datatype RegionSettings = RegionSettings(region: string, granted: string, denied: string)

  /** The command object for given region, granted and denied lists, described key by key: a
      consent type listed as denied maps to 'denied', one listed only as granted to 'granted', and
      `region`, when there are regions, to the list of regions. */
  function CommandEntries(regions: seq<string>, granted: seq<string>, denied: seq<string>): JsObject
  {
    var keys := (if |regions| > 0 then ["region"] else []) + granted + denied;
    map k | k in keys ::
      if k in denied then Str("denied")
      else if k in granted then Str("granted")
      else StrList(regions)
  }

  /** The command object parseCommandData builds for one regional entry. */
  function CommandData(settings: RegionSettings): JsObject
  {
    CommandEntries(SplitInput(settings.region), SplitInput(settings.granted), SplitInput(settings.denied))
  }

  /** One forEach of parseCommandData: every listed key is set to `value`, the rest stay. */
  method AssignAll(m: JsObject, keys: seq<string>, value: JsValue) returns (r: JsObject)
    ensures forall k :: k in r <==> k in m || k in keys
    ensures forall k :: k in r ==> r[k] == if k in keys then value else m[k]
  {
    r := m;
    for i := 0 to |keys|
      invariant forall k :: k in r <==> k in m || k in keys[..i]
      invariant forall k :: k in r ==> r[k] == if k in keys[..i] then value else m[k]
    {
      assert keys[..i + 1] == keys[..i] + [keys[i]];
      r := r[keys[i] := value];
    }
    assert keys[..|keys|] == keys;
  }

  /** The assignments of parseCommandData: `region`, then every granted entry, then every denied entry. */
  method AssignEntries(regions: seq<string>, granted: seq<string>, denied: seq<string>) returns (commandData: JsObject)
    ensures commandData == CommandEntries(regions, granted, denied)
  {
    var withRegion: JsObject := if |regions| > 0 then map["region" := StrList(regions)] else map[];
    var withGranted := AssignAll(withRegion, granted, Str("granted"));
    commandData := AssignAll(withGranted, denied, Str("denied"));
    assert commandData.Keys == CommandEntries(regions, granted, denied).Keys;
  }

  /** parseCommandData: splits the three fields and assigns their entries. */
  method ParseCommandData(settings: RegionSettings) returns (commandData: JsObject)
    ensures commandData == CommandData(settings)
  {
    var regions := SplitInput(settings.region);
    var granted := SplitInput(settings.granted);
    var denied := SplitInput(settings.denied);
    commandData := AssignEntries(regions, granted, denied);
  }

  /** The `region` key is present exactly when the region list is non-empty, and then holds that
      list, as long as no consent type is itself called `region`. */
  lemma CommandEntriesRegion(regions: seq<string>, granted: seq<string>, denied: seq<string>)
    requires "region" !in granted && "region" !in denied
    ensures "region" in CommandEntries(regions, granted, denied) <==> |regions| > 0
    ensures "region" in CommandEntries(regions, granted, denied) ==>
      CommandEntries(regions, granted, denied)["region"] == StrList(regions)
  {
  }

  /** Every listed consent type gets an entry; a type listed as both granted and denied ends up
      'denied', because the denied list is applied last. */
  lemma CommandEntriesConsents(regions: seq<string>, granted: seq<string>, denied: seq<string>, name: string)
    requires name in granted || name in denied
    ensures name in CommandEntries(regions, granted, denied)
    ensures CommandEntries(regions, granted, denied)[name] == if name in denied then Str("denied") else Str("granted")
  {
  }

  /** Nothing but `region` and the listed consent types gets an entry. */
  lemma CommandEntriesKeys(regions: seq<string>, granted: seq<string>, denied: seq<string>)
    ensures forall k :: k in CommandEntries(regions, granted, denied) <==>
      (k == "region" && |regions| > 0) || k in granted || k in denied
  {
  }

  /** getRegionalDefaultConsents: one command object per regional entry, in order; each is the
      entry's command object with `wait_for_update` set to 500 (overriding a consent type of that name). */
  function GetRegionalDefaultConsents(regionalDefaults: seq<RegionSettings>): (consents: seq<JsObject>)
    ensures |consents| == |regionalDefaults|
    ensures forall i :: 0 <= i < |consents| ==>
      && consents[i].Keys == CommandData(regionalDefaults[i]).Keys + {"wait_for_update"}
      && consents[i]["wait_for_update"] == Num(REGIONAL_WAIT_FOR_UPDATE)
      && forall k :: k in CommandData(regionalDefaults[i]) && k != "wait_for_update" ==>
           consents[i][k] == CommandData(regionalDefaults[i])[k]
  {
    seq(|regionalDefaults|, i requires 0 <= i < |regionalDefaults| =>
      CommandData(regionalDefaults[i])["wait_for_update" := Num(REGIONAL_WAIT_FOR_UPDATE)])
  }

  // ---------------------------------------------------------------- convertConsent

  /** convertValue: 'granted' for a truthy value, 'denied' otherwise. */
  function ConvertValue(isConsented: JsValue): (r: string)
    ensures r == "granted" <==> Truthy(isConsented)
    ensures r == "denied" <==> !Truthy(isConsented)
  {
    if Truthy(isConsented) then "granted" else "denied"
  }

  /** The object convertConsent builds from Termly's consent state. */
  function ConvertedConsent(termlyConsent: JsObject): (consents: JsObject)
    ensures consents.Keys == GTM_TO_TERMLY.Keys
    ensures forall k :: k in consents ==> consents[k] in {Str("granted"), Str("denied")}
    ensures consents["ad_storage"] == consents["ad_personalization"] == consents["ad_user_data"]
  {
    AdvertisingKeys();
    map k | k in GTM_TO_TERMLY :: ConvertedEntry(termlyConsent, k)
  }

  /** The three advertising types read the same Termly category. */
  lemma AdvertisingKeys()
    ensures "ad_storage" in GTM_TO_TERMLY && "ad_personalization" in GTM_TO_TERMLY && "ad_user_data" in GTM_TO_TERMLY
    ensures GTM_TO_TERMLY["ad_storage"] == GTM_TO_TERMLY["ad_personalization"] == GTM_TO_TERMLY["ad_user_data"]
  {
  }

  /** Each converted value depends only on the Termly category its key is mapped to. */
  lemma ConvertedConsentFollowsCategory(t1: JsObject, t2: JsObject, gtmKey: string)
    requires gtmKey in GTM_TO_TERMLY
    requires Truthy(Get(t1, GTM_TO_TERMLY[gtmKey])) == Truthy(Get(t2, GTM_TO_TERMLY[gtmKey]))
    ensures ConvertedConsent(t1)[gtmKey] == ConvertedConsent(t2)[gtmKey]
  {
  }

  /** The entry convertConsent writes for a Google consent type: the Termly category's value, converted. */
  function ConvertedEntry(termlyConsent: JsObject, gtmKey: string): JsValue
    requires gtmKey in GTM_TO_TERMLY
  {
    Str(ConvertValue(Get(termlyConsent, GTM_TO_TERMLY[gtmKey])))
  }

  /** The forEach of convertConsent over the given consent types: one converted entry each. */
  method ConvertEntries(termlyConsent: JsObject, gtmKeys: seq<string>) returns (consents: JsObject)
    requires forall j :: 0 <= j < |gtmKeys| ==> gtmKeys[j] in GTM_TO_TERMLY
    ensures forall k :: k in consents <==> k in gtmKeys
    ensures forall k :: k in consents ==> k in GTM_TO_TERMLY && consents[k] == ConvertedEntry(termlyConsent, k)
  {
    consents := map[];
    for i := 0 to |gtmKeys|
      invariant forall k :: k in consents <==> k in gtmKeys[..i]
      invariant forall k :: k in consents ==> k in GTM_TO_TERMLY && consents[k] == ConvertedEntry(termlyConsent, k)
    {
      var gtmKey := gtmKeys[i];
      assert gtmKeys[..i + 1] == gtmKeys[..i] + [gtmKey];
      consents := consents[gtmKey := Str(ConvertValue(Get(termlyConsent, GTM_TO_TERMLY[gtmKey])))];
    }
    assert gtmKeys[..|gtmKeys|] == gtmKeys;
  }

  /** convertConsent: one entry per GTM_TO_TERMLY key, visited in table order. */
  method ConvertConsent(termlyConsent: JsObject) returns (consents: JsObject)
    ensures consents == ConvertedConsent(termlyConsent)
  {
    GtmKeysAreTheTableKeys();
    consents := ConvertEntries(termlyConsent, GTM_KEYS);
    assert consents.Keys == ConvertedConsent(termlyConsent).Keys;
  }

  // ---------------------------------------------------------------- merge

  /** What `merge(ms[0], ms[1], ...)` returns: the arguments laid over one another, left to right. */
  function Overlay(ms: seq<JsObject>): JsObject
  {
    if ms == [] then map[] else Overlay(ms[..|ms| - 1]) + ms[|ms| - 1]
  }

  /** The merged object has exactly the keys of the arguments. */
  lemma {:induction false} OverlayKeys(ms: seq<JsObject>)
    ensures forall k :: k in Overlay(ms) <==> exists j :: 0 <= j < |ms| && k in ms[j]
  {
    if ms != [] {
      var init := ms[..|ms| - 1];
      OverlayKeys(init);
      forall k | k in Overlay(ms)
        ensures exists j :: 0 <= j < |ms| && k in ms[j]
      {
        if k !in ms[|ms| - 1] {
          assert k in Overlay(init);
          var j :| 0 <= j < |init| && k in init[j];
          assert init[j] == ms[j];
        }
      }
      forall k, j | 0 <= j < |ms| && k in ms[j]
        ensures k in Overlay(ms)
      {
        if j < |ms| - 1 {
          assert init[j] == ms[j];
        }
      }
    }
  }

  /** A key takes its value from the last argument that has it. */
  lemma {:induction false} OverlayLastWins(ms: seq<JsObject>, j: nat, k: string)
    requires j < |ms| && k in ms[j]
    requires forall j' :: j < j' < |ms| ==> k !in ms[j']
    ensures k in Overlay(ms) && Overlay(ms)[k] == ms[j][k]
  {
    if j < |ms| - 1 {
      var init := ms[..|ms| - 1];
      assert init[j] == ms[j];
      assert k !in ms[|ms| - 1];
      OverlayLastWins(init, j, k);
    }
  }

  /** The entries of `m` whose keys are in `keys`. */
  function Restrict(m: JsObject, keys: set<string>): JsObject
  {
    map k | k in m && k in keys :: m[k]
  }

  /** merge: copies the entries of each argument in turn into a fresh object. */
  method Merge(args: seq<JsObject>) returns (obj: JsObject)
    ensures obj == Overlay(args)
  {
    obj := map[];
    for i := 0 to |args|
      invariant obj == Overlay(args[..i])
    {
      var arg := args[i];
      var pending := arg.Keys;
      ghost var copied: set<string> := {};
      while pending != {}
        invariant pending + copied == arg.Keys && pending !! copied
        invariant obj == Overlay(args[..i]) + Restrict(arg, copied)
        decreases pending
      {
        var key :| key in pending;
        assert Restrict(arg, copied + {key}) == Restrict(arg, copied)[key := arg[key]];
        obj := obj[key := arg[key]];
        pending := pending - {key};
        copied := copied + {key};
      }
      assert Restrict(arg, copied) == arg;
      assert args[..i + 1][..i] == args[..i];
    }
    assert args[..|args|] == args;
  }

  // ---------------------------------------------------------------- default consents

  /** The template fields the script reads. `waitForUpdate` is the field after makeNumber. */
  datatype TemplateData = TemplateData(
    adStorage: JsValue,
    analyticsStorage: JsValue,
    functionalityStorage: JsValue,
    personalizationStorage: JsValue,
    securityStorage: JsValue,
    waitForUpdate: int,
    regionalDefaults: seq<RegionSettings>)

  /** DEFAULT_CONSENT_CONFIG: the three advertising types all take the ad_storage field; social and
      unclassified storage have no default. */
  function DefaultConsentConfig(data: TemplateData): JsObject
  {
    map[
      "ad_personalization" := data.adStorage,
      "ad_storage" := data.adStorage,
      "ad_user_data" := data.adStorage,
      "analytics_storage" := data.analyticsStorage,
      "functionality_storage" := data.functionalityStorage,
      "personalization_storage" := data.personalizationStorage,
      "security_storage" := data.securityStorage,
      "wait_for_update" := Num(data.waitForUpdate)
    ]
  }

  /** The default config covers every table key but social and unclassified storage, plus `wait_for_update`. */
  lemma DefaultConsentKeys(data: TemplateData)
    ensures DefaultConsentConfig(data).Keys ==
      (GTM_TO_TERMLY.Keys - {"social_storage", "unclassified_storage"}) + {"wait_for_update"}
  {
  }

  /** The three advertising types all take the ad_storage field; `wait_for_update` is the configured delay. */
  lemma DefaultConsentEntries(data: TemplateData)
    ensures var config := DefaultConsentConfig(data);
      && "ad_personalization" in config && "ad_storage" in config && "ad_user_data" in config
      && config["ad_personalization"] == config["ad_storage"] == config["ad_user_data"] == data.adStorage
      && "wait_for_update" in config && config["wait_for_update"] == Num(data.waitForUpdate)
  {
  }

  /** The object JSON.parse returns for the localStorage item: `{}` when the item is missing (`None`). */
  function StoredConsents(stored: Option<JsObject>): JsObject
  {
    if stored.Some? then stored.value else map[]
  }

  /** What getDefaultConsents returns: the stored consents merged over the template defaults. */
  function DefaultConsents(data: TemplateData, stored: Option<JsObject>): JsObject
  {
    Overlay([DefaultConsentConfig(data), StoredConsents(stored)])
  }

  /** getDefaultConsents: the stored consents merged over the template defaults. */
  method GetDefaultConsents(data: TemplateData, stored: Option<JsObject>) returns (consents: JsObject)
    ensures consents == DefaultConsents(data, stored)
    ensures var parsed := StoredConsents(stored);
      && consents.Keys == DefaultConsentConfig(data).Keys + parsed.Keys
      && (forall k :: k in parsed ==> consents[k] == parsed[k])
      && (forall k :: k in DefaultConsentConfig(data) && k !in parsed ==> consents[k] == DefaultConsentConfig(data)[k])
  {
    var parsed := StoredConsents(stored);
    var args := [DefaultConsentConfig(data), parsed];
    consents := Merge(args);
    var first := args[..1];
    assert first[..0] == [] && first[0] == DefaultConsentConfig(data);
    assert Overlay(first) == map[] + DefaultConsentConfig(data);
    assert Overlay(args) == Overlay(first) + parsed;
  }

  // ---------------------------------------------------------------- dispatch and sinks

  /** The sandbox calls the script makes, as values. */
  datatype Effect =
    | SetDefaultConsentState(state: JsObject)
    | UpdateConsentState(state: JsObject)
    | StoreItem(key: string, state: JsObject)
    | PushEvent(name: string)
    | GtmOnSuccess
    | GtmOnFailure

  /** saveConsentState: store the state under LOCAL_STORAGE_KEY, then hand it to the default-state
      sink when `action` is exactly IS_DEFAULT_STATE and to the update sink otherwise (`None` is an
      omitted argument). */
  function SaveConsentState(state: JsObject, action: Option<string>): (effects: seq<Effect>)
    ensures |effects| == 2 && effects[0] == StoreItem(LOCAL_STORAGE_KEY, state)
    ensures effects[1] == SetDefaultConsentState(state) <==> action == Some(IS_DEFAULT_STATE)
    ensures effects[1] == UpdateConsentState(state) <==> action != Some(IS_DEFAULT_STATE)
  {
    var save := if action == Some(IS_DEFAULT_STATE) then SetDefaultConsentState(state) else UpdateConsentState(state);
    [StoreItem(LOCAL_STORAGE_KEY, state), save]
  }

  datatype Handler = InitConsentHandler | UserPrefUpdateHandler | ForeignEventHandler

  const EVENT_HANDLERS: map<string, Handler> := map[
    "gtm.init_consent" := InitConsentHandler,
    "userPrefUpdate" := UserPrefUpdateHandler
  ]

  /** `EVENT_HANDLERS[event] || handleForeignEvent`. */
  function SelectHandler(event: string): (h: Handler)
    ensures h == InitConsentHandler <==> event == "gtm.init_consent"
    ensures h == UserPrefUpdateHandler <==> event == "userPrefUpdate"
    ensures h == ForeignEventHandler <==> event !in EVENT_HANDLERS
  {
    if event in EVENT_HANDLERS then EVENT_HANDLERS[event] else ForeignEventHandler
  }

  /** handleInitConsent: a default-state command per regional entry, then the merged default
      consents saved as the default state. */
  method HandleInitConsent(data: TemplateData, stored: Option<JsObject>) returns (ok: bool, effects: seq<Effect>)
    ensures ok
    ensures |effects| == |data.regionalDefaults| + 2
    ensures forall i :: 0 <= i < |data.regionalDefaults| ==>
      effects[i] == SetDefaultConsentState(GetRegionalDefaultConsents(data.regionalDefaults)[i])
    ensures var n := |data.regionalDefaults|;
      && effects[n] == StoreItem(LOCAL_STORAGE_KEY, DefaultConsents(data, stored))
      && effects[n + 1] == SetDefaultConsentState(DefaultConsents(data, stored))
  {
    var regional := GetRegionalDefaultConsents(data.regionalDefaults);
    effects := seq(|regional|, i requires 0 <= i < |regional| => SetDefaultConsentState(regional[i]));
    var defaultConsents := GetDefaultConsents(data, stored);
    effects := effects + SaveConsentState(defaultConsents, Some(IS_DEFAULT_STATE));
    ok := true;
  }

  /** handleUserPrefUpdate: fails when window.Termly.getConsentState gives nothing (`None`),
      otherwise saves the converted state through the update sink. */
  method HandleUserPrefUpdate(termlyConsentSettings: Option<JsObject>) returns (ok: bool, effects: seq<Effect>)
    ensures ok <==> termlyConsentSettings.Some?
    ensures !ok ==> effects == []
    ensures ok ==> effects == [StoreItem(LOCAL_STORAGE_KEY, ConvertedConsent(termlyConsentSettings.value)),
                               UpdateConsentState(ConvertedConsent(termlyConsentSettings.value))]
  {
    if termlyConsentSettings.None? {
      return false, [];
    }
    var gtmConsentState := ConvertConsent(termlyConsentSettings.value);
    effects := SaveConsentState(gtmConsentState, None);
    ok := true;
  }

  /** The template's main body after initialisation: pick the handler for the data-layer event,
      run it, then report success (after pushing the completion event) or failure. */
  method RunTemplate(event: string, data: TemplateData, stored: Option<JsObject>, termlyConsentSettings: Option<JsObject>)
    returns (effects: seq<Effect>)
    ensures |effects| >= 1
    ensures var failed := SelectHandler(event) == UserPrefUpdateHandler && termlyConsentSettings.None?;
      && (failed ==> effects == [GtmOnFailure])
      && (!failed ==> |effects| >= 2 && effects[|effects| - 2..] == [PushEvent(UPDATE_COMPLETE_EVENT_NAME), GtmOnSuccess])
    ensures SelectHandler(event) == ForeignEventHandler ==> effects == [PushEvent(UPDATE_COMPLETE_EVENT_NAME), GtmOnSuccess]
    ensures SelectHandler(event) == InitConsentHandler ==>
      var n := |data.regionalDefaults|;
      && |effects| == n + 4
      && (forall i :: 0 <= i < n ==>
            effects[i] == SetDefaultConsentState(GetRegionalDefaultConsents(data.regionalDefaults)[i]))
      && effects[n] == StoreItem(LOCAL_STORAGE_KEY, DefaultConsents(data, stored))
      && effects[n + 1] == SetDefaultConsentState(DefaultConsents(data, stored))
      && effects[n + 2..] == [PushEvent(UPDATE_COMPLETE_EVENT_NAME), GtmOnSuccess]
    ensures SelectHandler(event) == UserPrefUpdateHandler && termlyConsentSettings.Some? ==>
      var state := ConvertedConsent(termlyConsentSettings.value);
      effects == [StoreItem(LOCAL_STORAGE_KEY, state), UpdateConsentState(state),
                  PushEvent(UPDATE_COMPLETE_EVENT_NAME), GtmOnSuccess]
  {
    var handler := SelectHandler(event);
    var result: bool;
    var handled: seq<Effect>;
    match handler {
      case InitConsentHandler =>
        result, handled := HandleInitConsent(data, stored);
        effects := Report(result, handled);
      case UserPrefUpdateHandler =>
        result, handled := HandleUserPrefUpdate(termlyConsentSettings);
        effects := Report(result, handled);
      case ForeignEventHandler =>
        result, handled := true, [];
        effects := Report(result, handled);
    }
  }

  /** The end of main: on success the completion event and gtmOnSuccess, otherwise gtmOnFailure,
      after what the handler did. */
  method Report(result: bool, handled: seq<Effect>) returns (effects: seq<Effect>)
    ensures result ==> effects == handled + [PushEvent(UPDATE_COMPLETE_EVENT_NAME), GtmOnSuccess]
    ensures !result ==> effects == handled + [GtmOnFailure]
  {
    if result {
      effects := handled + [PushEvent(UPDATE_COMPLETE_EVENT_NAME), GtmOnSuccess];
    } else {
      effects := handled + [GtmOnFailure];
    }
  }
}
