/** `SiteSettingsFormGeneral`: the general site-settings form. It seeds its
    field store on mount, merges server refreshes around the user's edits,
    saves the whole field map, and records some analytics events only once. */
module FormGeneral {
  import opened JsValues
  import opened FormSettings
  import opened FormFields

  const FetchingSettings := "fetchingSettings"
  const AdminUrl := "admin_url"

  /** The mount defaults that start as the empty string. */
  const EmptyStringDefaultKeys: set<string> := {
    Blogname, Blogdescription, LangId, TimezoneString, BlogPublic, AdminUrl
  }

  /** The mount defaults that start as `false`. */
  const FalseDefaultKeys: set<string> := {
    RelatedPostsAllowed, RelatedPostsEnabled, RelatedPostsShowHeadline, RelatedPostsShowThumbnails,
    SyncNonPublicPostStati, HolidaySnow, AmpIsSupported, AmpIsEnabled
  }

  /** The field values the form is seeded with on mount: `fetchingSettings`
      is true, the text fields are empty and the toggles are off. */
  function Defaults(): map<string, Value> {
    (map k | k in EmptyStringDefaultKeys :: Str(""))
    + (map k | k in FalseDefaultKeys :: Bool(false))
    + map[FetchingSettings := Bool(true)]
  }

  /** Every key a payload can give rise to has a mount default. */
  lemma DerivedKeysAreDefaults(settings: SiteSettings?)
    ensures GetFormSettings(settings).Keys <= Defaults().Keys
  {
  }

  /** The fields after mount: defaults applied over whatever was there, then
      the derived settings applied over the defaults. */
  function MountFields(fields: map<string, Value>, settings: SiteSettings?): (r: map<string, Value>)
    ensures r.Keys == fields.Keys + Defaults().Keys
    ensures forall k :: k in GetFormSettings(settings) ==> r[k] == GetFormSettings(settings)[k]
    ensures forall k :: k in Defaults() && k !in GetFormSettings(settings) ==> r[k] == Defaults()[k]
    ensures forall k :: k in fields && k !in Defaults() ==> r[k] == fields[k]
  {
    DerivedKeysAreDefaults(settings);
    Merge(Merge(fields, Defaults()), GetFormSettings(settings))
  }

  /** The component-state key that latches `recordEventOnce(key, ...)`. */
  function LatchKey(key: string): string {
    "recordEventOnce-" + key
  }

  /** Distinct keys have distinct latches. */
  lemma LatchKeyInjective(a: string, b: string)
    ensures LatchKey(a) == LatchKey(b) ==> a == b
  {
    if LatchKey(a) == LatchKey(b) {
      assert a == LatchKey(a)[16..];
      assert b == LatchKey(b)[16..];
    }
  }

  /** One call of `recordEventOnce(key, eventAction)`. */
  datatype OnceCall = OnceCall(key: string, action: string)

  /** The keys of a run of calls. */
  function KeysOf(calls: seq<OnceCall>): set<string>
    decreases |calls|
  {
    if calls == [] then {} else {calls[0].key} + KeysOf(calls[1..])
  }

  lemma {:induction false} KeysOfHas(calls: seq<OnceCall>, i: nat)
    requires i < |calls|
    ensures calls[i].key in KeysOf(calls)
    decreases i
  {
    if i > 0 {
      KeysOfHas(calls[1..], i - 1);
    }
  }

  /** The events a run of calls records, in order. */
  function Actions(calls: seq<OnceCall>): seq<string> {
    seq(|calls|, i requires 0 <= i < |calls| => calls[i].action)
  }

  /** The calls of a run that actually record their event, given the latches
      already set when the run starts. */
  function OnceTrace(state: set<string>, calls: seq<OnceCall>): seq<OnceCall>
    decreases |calls|
  {
    if calls == [] then []
    else if LatchKey(calls[0].key) in state then OnceTrace(state, calls[1..])
    else [calls[0]] + OnceTrace(state + {LatchKey(calls[0].key)}, calls[1..])
  }

  /** A run is its first call followed by the rest, from the state the first
      call leaves: this is how successive RecordEventOnce calls compose. */
  lemma OnceTraceStep(state: set<string>, c: OnceCall, calls: seq<OnceCall>)
    ensures OnceTrace(state, [c] + calls)
         == (if LatchKey(c.key) in state then [] else [c]) + OnceTrace(state + {LatchKey(c.key)}, calls)
  {
    assert ([c] + calls)[1..] == calls;
    if LatchKey(c.key) in state {
      assert state + {LatchKey(c.key)} == state;
    }
  }

  /** Over any run of calls, each key records its event at most once, and the
      keys that record are exactly the called keys whose latch was not set. */
  lemma {:induction false} OnceTraceAtMostOncePerKey(state: set<string>, calls: seq<OnceCall>)
    ensures forall i, j :: 0 <= i < j < |OnceTrace(state, calls)| ==>
      OnceTrace(state, calls)[i].key != OnceTrace(state, calls)[j].key
    ensures forall k :: k in KeysOf(OnceTrace(state, calls)) <==> k in KeysOf(calls) && LatchKey(k) !in state
    decreases |calls|
  {
    if calls != [] {
      var c := calls[0];
      if LatchKey(c.key) in state {
        OnceTraceAtMostOncePerKey(state, calls[1..]);
      } else {
        var state' := state + {LatchKey(c.key)};
        var rest := OnceTrace(state', calls[1..]);
        OnceTraceAtMostOncePerKey(state', calls[1..]);
        var fired := [c] + rest;
        assert OnceTrace(state, calls) == fired;
        assert fired[1..] == rest;
        forall k ensures LatchKey(k) == LatchKey(c.key) ==> k == c.key {
          LatchKeyInjective(k, c.key);
        }
        forall i, j | 0 <= i < j < |fired| ensures fired[i].key != fired[j].key {
          if i == 0 {
            KeysOfHas(rest, j - 1);
          } else {
            assert fired[i] == rest[i - 1] && fired[j] == rest[j - 1];
          }
        }
      }
    }
  }

  /** A request handed to the settings API: the site and the field map sent. */
  datatype SaveRequest = SaveRequest(siteId: int, fields: map<string, Value>)

  /** The form component together with the field store it is wrapped in.
      Analytics events, save requests and the `markSaved` calls of the
      navigation guard are kept as logs so that their effects can be stated. */
  class SiteSettingsFormGeneral {
    /** `props.site.ID`: the site the form currently edits. */
    var siteId: int
    /** `props.settings`: the settings object currently passed in. */
    var settings: SiteSettings?
    /** The field store's values. */
    var fields: map<string, Value>
    /** The field store's dirty keys. */
    var dirtyFields: set<string>
    /** The component state: the latches set by `recordEventOnce`. */
    var state: set<string>
    /** Analytics events recorded, oldest first. */
    var events: seq<string>
    /** Save requests sent, oldest first. */
    var saveRequests: seq<SaveRequest>
    /** Save requests whose outcome has not arrived yet. */
    var pendingSaves: nat
    /** How many times `markSaved` was called. */
    var savedMarks: nat

    constructor (siteId: int, settings: SiteSettings?)
      ensures this.siteId == siteId && this.settings == settings
      ensures fields == map[] && dirtyFields == {} && state == {}
      ensures events == [] && saveRequests == [] && pendingSaves == 0 && savedMarks == 0
    {
      this.siteId := siteId;
      this.settings := settings;
      fields, dirtyFields, state := map[], {}, {};
      events, saveRequests, pendingSaves, savedMarks := [], [], 0, 0;
    }

    /** `updateFields(patch)`: the keys of `patch` are overwritten, nothing else. */
    method UpdateFields(patch: map<string, Value>)
      modifies this`fields
      ensures fields == Merge(old(fields), patch)
    {
      fields := Merge(fields, patch);
    }

    /** `clearDirtyFields()` */
    method ClearDirtyFields()
      modifies this`dirtyFields
      ensures dirtyFields == {}
    {
      dirtyFields := {};
    }

    /** The store's record that the user touched `keys`. */
    method MarkDirty(keys: set<string>)
      modifies this`dirtyFields
      ensures dirtyFields == old(dirtyFields) + keys
    {
      dirtyFields := dirtyFields + keys;
    }

    /** `componentWillMount`: seed the defaults, forget all edits, then apply
        the fields derived from the current settings. */
    method ComponentWillMount()
      modifies this
      ensures fields == MountFields(old(fields), settings)
      ensures dirtyFields == {}
      ensures Defaults().Keys <= fields.Keys
      ensures siteId == old(siteId) && settings == old(settings) && state == old(state) && events == old(events)
      ensures saveRequests == old(saveRequests) && pendingSaves == old(pendingSaves) && savedMarks == old(savedMarks)
    {
      UpdateFields(Defaults());
      ClearDirtyFields();
      UpdateFields(GetFormSettings(settings));
    }

    /** `componentWillReceiveProps`: the new props take effect, and when a
        different settings object arrives, its derived fields minus the dirty
        keys are written. A change of site clears nothing: the old site's
        edits stay dirty and go with the next save to the new site. */
    method ComponentWillReceiveProps(nextSiteId: int, nextSettings: SiteSettings?)
      modifies this
      ensures siteId == nextSiteId && settings == nextSettings
      ensures fields == if nextSettings != old(settings)
                        then Reconcile(old(fields), dirtyFields, GetFormSettings(nextSettings))
                        else old(fields)
      ensures forall k :: k in old(fields) && k in dirtyFields ==> fields[k] == old(fields)[k]
      ensures dirtyFields == old(dirtyFields) && state == old(state) && events == old(events)
      ensures saveRequests == old(saveRequests) && pendingSaves == old(pendingSaves) && savedMarks == old(savedMarks)
    {
      if nextSettings != settings {
        var newState := GetFormSettings(nextSettings);
        newState := Omit(newState, dirtyFields);
        UpdateFields(newState);
      }
      siteId, settings := nextSiteId, nextSettings;
    }

    /** `recordEvent(eventAction)` */
    method RecordEvent(eventAction: string)
      modifies this`events
      ensures events == old(events) + [eventAction]
    {
      events := events + [eventAction];
    }

    /** `recordEventOnce(key, eventAction)`: the event is recorded only when
        the key's latch is not yet set, and the latch is set. */
    method RecordEventOnce(key: string, eventAction: string)
      modifies this`events, this`state
      ensures state == old(state) + {LatchKey(key)}
      ensures events == old(events) + Actions(OnceTrace(old(state), [OnceCall(key, eventAction)]))
    {
      assert [OnceCall(key, eventAction)][1..] == [];
      if LatchKey(key) in state {
        return;
      }
      RecordEvent(eventAction);
      state := state + {LatchKey(key)};
    }

    /** `handleRadio`: the radio's name takes its (string) value. */
    method HandleRadio(name: string, value: string)
      modifies this`fields
      ensures fields == old(fields)[name := Str(value)]
    {
      UpdateFields(map[name := Str(value)]);
    }

    /** `onChangeField(field)`: the field takes the input's value. */
    method OnChangeField(field: string, value: Value)
      modifies this`fields
      ensures fields == old(fields)[field := value]
    {
      UpdateFields(map[field := value]);
    }

    /** `onTimezoneSelect`: the timezone field takes the chosen name. */
    method OnTimezoneSelect(timezone: string)
      modifies this`fields
      ensures fields == old(fields)[TimezoneString := Str(timezone)]
    {
      UpdateFields(map[TimezoneString := Str(timezone)]);
    }

    /** `submitForm`: the whole field map is sent; nothing is cleared until
        the request succeeds. */
    method SubmitForm() returns (sent: map<string, Value>)
      modifies this`saveRequests, this`pendingSaves
      ensures sent == fields
      ensures saveRequests == old(saveRequests) + [SaveRequest(siteId, fields)]
      ensures pendingSaves == old(pendingSaves) + 1
    {
      sent := fields;
      saveRequests := saveRequests + [SaveRequest(siteId, sent)];
      pendingSaves := pendingSaves + 1;
    }

    /** The outcome of an earlier save request arrives. Success clears the
        dirty keys and calls `markSaved`; failure changes nothing. */
    method SaveResolved(success: bool)
      requires pendingSaves > 0
      modifies this`dirtyFields, this`savedMarks, this`pendingSaves
      ensures pendingSaves == old(pendingSaves) - 1
      ensures success ==> dirtyFields == {} && savedMarks == old(savedMarks) + 1
      ensures !success ==> dirtyFields == old(dirtyFields) && savedMarks == old(savedMarks)
    {
      pendingSaves := pendingSaves - 1;
      if success {
        ClearDirtyFields();
        savedMarks := savedMarks + 1;
      }
    }

    /** `handleAmpToggle` as written: AMP is flipped and the form submitted,
        but the analytics event is never recorded, because `onRecordEvent`
        only returns a handler and the handler is never called. */
    method HandleAmpToggle() returns (sent: map<string, Value>)
      modifies this
      ensures fields == old(fields)[AmpIsEnabled := Bool(!Truthy(Get(old(fields), AmpIsEnabled)))]
      ensures sent == fields && saveRequests == old(saveRequests) + [SaveRequest(siteId, fields)]
      ensures pendingSaves == old(pendingSaves) + 1
      ensures events == old(events)
      ensures siteId == old(siteId) && settings == old(settings)
      ensures dirtyFields == old(dirtyFields) && state == old(state) && savedMarks == old(savedMarks)
    {
      UpdateFields(map[AmpIsEnabled := Bool(!Truthy(Get(fields, AmpIsEnabled)))]);
      sent := SubmitForm();
    }

    /** `handleAmpToggle` as evidently intended: the same, and the event
        "Clicked AMP Toggle" is recorded after the submit. */
    method HandleAmpToggleRecorded() returns (sent: map<string, Value>)
      modifies this
      ensures fields == old(fields)[AmpIsEnabled := Bool(!Truthy(Get(old(fields), AmpIsEnabled)))]
      ensures sent == fields && saveRequests == old(saveRequests) + [SaveRequest(siteId, fields)]
      ensures pendingSaves == old(pendingSaves) + 1
      ensures events == old(events) + ["Clicked AMP Toggle"]
      ensures siteId == old(siteId) && settings == old(settings)
      ensures dirtyFields == old(dirtyFields) && state == old(state) && savedMarks == old(savedMarks)
    {
      UpdateFields(map[AmpIsEnabled := Bool(!Truthy(Get(fields, AmpIsEnabled)))]);
      sent := SubmitForm();
      RecordEvent("Clicked AMP Toggle");
    }
  }

  /** Edit, save, success: the edit is sent, the dirty set empties, and the
      next refresh reaches the edited field again. */
  method SaveSucceededScenario() {
    var first := new SiteSettings(map[Blogname := Str("Old")]);
    var form := new SiteSettingsFormGeneral(1, first);
    form.ComponentWillMount();
    form.OnChangeField(Blogname, Str("Mine"));
    form.MarkDirty({Blogname});
    var sent := form.SubmitForm();
    assert sent[Blogname] == Str("Mine");
    form.SaveResolved(true);
    assert form.dirtyFields == {};
    var second := new SiteSettings(map[Blogname := Str("Server")]);
    BaseFieldsCopied(second.data, Blogname);
    form.ComponentWillReceiveProps(1, second);
    assert form.fields[Blogname] == Str("Server");
  }

  /** Edit, save, failure: the edit stays dirty, and a refresh leaves it alone
      while it still updates the fields the user did not touch. */
  method SaveFailedScenario() {
    var first := new SiteSettings(map[Blogname := Str("Old"), Blogdescription := Str("Tagline")]);
    var form := new SiteSettingsFormGeneral(1, first);
    form.OnChangeField(Blogname, Str("Mine"));
    form.MarkDirty({Blogname});
    var sent := form.SubmitForm();
    form.SaveResolved(false);
    assert form.dirtyFields == {Blogname} && form.fields[Blogname] == Str("Mine");
    var second := new SiteSettings(map[Blogname := Str("Server"), Blogdescription := Str("New tagline")]);
    BaseFieldsCopied(second.data, Blogdescription);
    assert Get(second.data, Blogdescription) == Str("New tagline");
    assert Blogdescription !in form.dirtyFields;
    form.ComponentWillReceiveProps(1, second);
    assert form.fields[Blogname] == Str("Mine");
    assert form.fields[Blogdescription] == Str("New tagline");
  }

  /** The same settings object passed again writes nothing. */
  method SameSettingsScenario() {
    var first := new SiteSettings(map[Blogname := Str("Old")]);
    var form := new SiteSettingsFormGeneral(1, first);
    form.ComponentWillMount();
    form.OnChangeField(Blogname, Str("Mine"));
    form.ComponentWillReceiveProps(1, first);
    assert form.fields[Blogname] == Str("Mine");
  }

  /** Toggling AMP as written submits the flipped value but leaves the
      analytics log as it was; the corrected toggle records the event. */
  method AmpToggleScenario() {
    var form := new SiteSettingsFormGeneral(1, null);
    var sent := form.HandleAmpToggle();
    assert sent[AmpIsEnabled] == Bool(true);
    assert "Clicked AMP Toggle" !in form.events;
    sent := form.HandleAmpToggleRecorded();
    assert sent[AmpIsEnabled] == Bool(false);
    assert form.events == ["Clicked AMP Toggle"];
  }

  /** A switch to another site keeps the old site's dirty edit, merges the new
      site's settings around it, and the next save sends it to the new site. */
  method SiteSwitchScenario() {
    var first := new SiteSettings(map[Blogname := Str("First blog")]);
    var form := new SiteSettingsFormGeneral(1, first);
    form.OnChangeField(Blogname, Str("Mine"));
    form.MarkDirty({Blogname});
    var other := new SiteSettings(map[Blogname := Str("Second blog")]);
    form.ComponentWillReceiveProps(2, other);
    assert form.dirtyFields == {Blogname} && form.fields[Blogname] == Str("Mine");
    var sent := form.SubmitForm();
    assert form.saveRequests[0] == SaveRequest(2, sent) && sent[Blogname] == Str("Mine");
  }

  /** Three calls of `recordEventOnce`, two with the same key, record two
      events: the run is the trace of the calls, and no key records twice. */
  method RecordEventOnceScenario() {
    var form := new SiteSettingsFormGeneral(1, null);
    var a, b, c := OnceCall("k", "first"), OnceCall("j", "other"), OnceCall("k", "again");
    form.RecordEventOnce(a.key, a.action);
    form.RecordEventOnce(b.key, b.action);
    form.RecordEventOnce(c.key, c.action);
    OnceTraceStep({}, a, [b, c]);
    OnceTraceStep({LatchKey(a.key)}, b, [c]);
    OnceTraceStep({LatchKey(a.key), LatchKey(b.key)}, c, []);
    assert [a] + [b, c] == [a, b, c] && [b] + [c] == [b, c] && [c] + [] == [c];
    assert form.events == Actions(OnceTrace({}, [a, b, c]));
    OnceTraceExample();
    assert form.events == ["first", "other"];
  }

  /** The trace of the calls above: the repeated key records nothing. */
  lemma OnceTraceExample()
    ensures Actions(OnceTrace({}, [OnceCall("k", "first"), OnceCall("j", "other"), OnceCall("k", "again")]))
         == ["first", "other"]
  {
    var a, b, c := OnceCall("k", "first"), OnceCall("j", "other"), OnceCall("k", "again");
    var s1 := {LatchKey(a.key)};
    var s2 := s1 + {LatchKey(b.key)};
    LatchKeyInjective(a.key, b.key);
    assert LatchKey(b.key) !in s1 && LatchKey(c.key) in s2;
    OnceTraceStep({}, a, [b, c]);
    OnceTraceStep(s1, b, [c]);
    OnceTraceStep(s2, c, []);
    assert {} + {LatchKey(a.key)} == s1;
    assert [a] + [b, c] == [a, b, c] && [b] + [c] == [b, c] && [c] + [] == [c];
    assert OnceTrace(s2, [c]) == [];
    assert OnceTrace(s1, [b, c]) == [b];
    assert OnceTrace({}, [a, b, c]) == [a, b];
  }
}
