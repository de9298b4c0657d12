# General site-settings form: field derivation and dirty-field reconciliation

This project models the state protocol of `SiteSettingsFormGeneral`, the
general settings form of the site-management dashboard. It has three parts:

- **Deriving form fields from a settings payload** (`getFormSettings`). Nine
  base keys are always copied, whether the payload defines them or not. The
  three related-posts keys appear only when `jetpack_relatedposts_allowed` is
  truthy, and the enabled flag is normalised to `1`/`0`. `holidaysnow`
  appears only when truthy. A non-empty legacy `gmt_offset` string stands in
  for a falsy timezone name, as `UTC` plus the offset, with a `+` added when the
  offset holds no hyphen.
- **Reconciling server refreshes against user edits.** On mount the defaults
  are applied, the dirty set is cleared and the derived settings are applied
  on top. When a different settings object arrives, the derived fields minus
  the dirty keys are written. A dirty key is never overwritten by a refresh.
- **Saving and one-shot analytics.** A save sends the whole field map. The
  dirty set is cleared and `markSaved` is called only when the save succeeds.
  `recordEventOnce` is a per-key latch in the component state.
  `handleAmpToggle` flips `amp_is_enabled` and submits.

Files:

- `js_values.dfy` (module `JsValues`): JavaScript values and truthiness.
- `form_settings.dfy` (module `FormSettings`): `getFormSettings`, the legacy
  timezone name and its inverse.
- `form_fields.dfy` (module `FormFields`): the field store's operations on
  values (`updateFields` as a merge, lodash `omit`, a refresh), with lemmas
  about runs of refreshes.
- `form_general.dfy` (module `FormGeneral`): the component as a class whose
  methods update the field map, the dirty set, the latch state and logs of
  analytics events, save requests and `markSaved` calls. It also holds the
  mount defaults, the latch trace lemmas and client scenarios (a save that
  succeeds, one that fails, a re-render, an AMP toggle, a change of site and
  a run of `recordEventOnce` calls).

Settings payloads are objects of class `SiteSettings` with an immutable
`data` map. `nextProps.settings !== this.props.settings` is therefore
reference inequality, as in the source, and `null` stands for an absent
payload.

Facts about the code that shape the model:

- The field handlers only call `updateFields`. This component never adds keys
  to the dirty set itself; it only reads the set (line 125) and clears it
  (lines 114 and 178). The dirty tracking belongs to the `formFields` wrapper,
  whose code is not part of this model. The model assumes that the wrapper's
  `updateFields` does not mark the patch's keys dirty, and represents the
  wrapper's edit tracking by the separate `MarkDirty` operation (see
  "## Left out").
- The timezone fallback applies only to a non-empty string `gmt_offset`, and
  a hyphen anywhere in it suppresses the `+`.
- Only `componentWillMount` clears the dirty set. When the `site` prop changes
  while the form stays mounted, nothing is cleared: the new site's settings
  are merged around the old site's dirty edits, and the next save sends them
  to the new site's ID.

## Model

| member | source | states |
|---|---|---|
| FormSettings.GetFormSettings | client/my-sites/site-settings/form-general.jsx:50-53 | an absent (falsy) payload gives the empty map; a present one always has the nine base keys |
| FormSettings.FormSettingsOf | client/my-sites/site-settings/form-general.jsx:55-92 | the derived keys are exactly the base keys, plus the related-posts keys iff related posts are allowed, plus `holidaysnow` iff it is truthy |
| FormSettings.BaseFieldsCopied | client/my-sites/site-settings/form-general.jsx:55-67 | every base key except the timezone holds the payload's value, `undefined` when the payload lacks it |
| FormSettings.RelatedPostsFields | client/my-sites/site-settings/form-general.jsx:69-73 | each related-posts key is present iff `jetpack_relatedposts_allowed` is truthy; the enabled flag is then `1` or `0` by the truthiness of the payload flag, and the two display flags are copied |
| FormSettings.RelatedPostsOmittedScenario | client/my-sites/site-settings/form-general.jsx:69-73 | with related posts disallowed, `jetpack_relatedposts_enabled` is absent, not false or 0 |
| FormSettings.HolidaySnowField | client/my-sites/site-settings/form-general.jsx:75-77 | `holidaysnow` is present iff the payload's value is truthy, and then equals it |
| FormSettings.TimezoneField | client/my-sites/site-settings/form-general.jsx:79-90 | the timezone is the legacy `UTC` name when the timezone name is falsy and `gmt_offset` is a non-empty string, and the payload's timezone name otherwise |
| FormSettings.LegacyTimezone | client/my-sites/site-settings/form-general.jsx:87-89 | the synthesised name starts with `UTC`, and a `+` follows when the offset holds no hyphen |
| FormSettings.LegacyTimezoneRoundTrip | client/my-sites/site-settings/form-general.jsx:87-89 | the offset, sign included, can always be read back from the synthesised name |
| FormSettings.TimezoneScenarios | client/my-sites/site-settings/form-general.jsx:82-90 | an empty timezone with offset `-5` gives `UTC-5`; with `5` it gives `UTC+5` |
| FormFields.Merge | client/my-sites/site-settings/form-general.jsx:126 | `updateFields(patch)` overwrites exactly the keys of the patch and keeps every other field |
| FormFields.Omit | client/my-sites/site-settings/form-general.jsx:125 | `omit` removes exactly the dirty keys and keeps the values of the rest |
| FormFields.Reconcile | client/my-sites/site-settings/form-general.jsx:121-126 | a refresh adds only non-dirty derived keys; dirty keys and keys the refresh lacks keep their values; every non-dirty derived key takes the derived value |
| FormFields.ReconcileIdempotent | client/my-sites/site-settings/form-general.jsx:121-126 | applying the same refresh twice gives the same fields as applying it once |
| FormFields.RefreshAllKeepsDirty | client/my-sites/site-settings/form-general.jsx:123-126 | over any run of refreshes, no field disappears and every dirty field keeps its value |
| FormFields.RefreshAllLatestWins | client/my-sites/site-settings/form-general.jsx:121-126 | after a run of refreshes, every clean key of the latest refresh holds the latest value |
| FormGeneral.DerivedKeysAreDefaults | client/my-sites/site-settings/form-general.jsx:97-115 | every key `getFormSettings` can produce has a mount default |
| FormGeneral.MountFields | client/my-sites/site-settings/form-general.jsx:95-116 | after mount every default key is present; derived keys hold the derived value, other default keys hold their default, and other fields are kept |
| FormGeneral.LatchKeyInjective | client/my-sites/site-settings/form-general.jsx:150-154 | distinct event keys use distinct `recordEventOnce-` state entries |
| FormGeneral.OnceTraceStep | client/my-sites/site-settings/form-general.jsx:148-155 | a run of `recordEventOnce` calls is its first call followed by the rest, from the latch state that call leaves |
| FormGeneral.OnceTraceExample | client/my-sites/site-settings/form-general.jsx:148-155 | calls with keys `k`, `j`, `k` record only the first two events |
| FormGeneral.OnceTraceAtMostOncePerKey | client/my-sites/site-settings/form-general.jsx:143-155 | over any run of calls each key records at most once, and the keys that record are exactly the called keys whose latch was not set |
| FormGeneral.SiteSettingsFormGeneral.constructor | client/my-sites/site-settings/form-general.jsx:48 | a new form has empty component state, no fields, no dirty keys and empty logs |
| FormGeneral.SiteSettingsFormGeneral.UpdateFields | client/my-sites/site-settings/form-general.jsx:115 | the field map becomes the merge of the old map and the patch |
| FormGeneral.SiteSettingsFormGeneral.ClearDirtyFields | client/my-sites/site-settings/form-general.jsx:114 | the dirty set becomes empty |
| FormGeneral.SiteSettingsFormGeneral.MarkDirty | client/my-sites/site-settings/form-general.jsx:25 | the given keys join the dirty set; it stands for the edit tracking of the `formFields` wrapper, whose code is not shown |
| FormGeneral.SiteSettingsFormGeneral.ComponentWillMount | client/my-sites/site-settings/form-general.jsx:95-116 | the fields become MountFields of the old fields and current settings; the dirty set is empty; nothing else changes |
| FormGeneral.SiteSettingsFormGeneral.ComponentWillReceiveProps | client/my-sites/site-settings/form-general.jsx:118-128 | the new site and settings take effect; a different settings object writes Reconcile of the derived fields; the same object writes nothing; dirty fields keep their values and the dirty set is not cleared, even on a change of site |
| FormGeneral.SiteSettingsFormGeneral.RecordEvent | client/my-sites/site-settings/form-general.jsx:138-141 | the event is appended to the analytics log |
| FormGeneral.SiteSettingsFormGeneral.RecordEventOnce | client/my-sites/site-settings/form-general.jsx:148-155 | the latch is set, and the event is appended exactly when the latch was not set before, as one step of the trace |
| FormGeneral.SiteSettingsFormGeneral.HandleRadio | client/my-sites/site-settings/form-general.jsx:157-162 | the radio's name takes its string value; nothing else changes |
| FormGeneral.SiteSettingsFormGeneral.OnChangeField | client/my-sites/site-settings/form-general.jsx:183-190 | the named field takes the input's value; nothing else changes |
| FormGeneral.SiteSettingsFormGeneral.OnTimezoneSelect | client/my-sites/site-settings/form-general.jsx:192-196 | the timezone field takes the chosen name |
| FormGeneral.SiteSettingsFormGeneral.SubmitForm | client/my-sites/site-settings/form-general.jsx:173-176 | the whole current field map is sent for the current site ID and returned; the dirty set is not touched |
| FormGeneral.SiteSettingsFormGeneral.SaveResolved | client/my-sites/site-settings/form-general.jsx:176-180 | success clears the dirty set and calls `markSaved` once; failure leaves the dirty set and saved marks unchanged |
| FormGeneral.SiteSettingsFormGeneral.HandleAmpToggle | client/my-sites/site-settings/form-general.jsx:376-382 | `amp_is_enabled` becomes the negation of its truthiness, then the full fields are submitted; no analytics event is recorded |
| FormGeneral.SiteSettingsFormGeneral.HandleAmpToggleRecorded | client/my-sites/site-settings/form-general.jsx:376-382 | the same toggle and submit, and "Clicked AMP Toggle" is recorded after the submit |

## Left out

- Rendering: every JSX section (`siteOptions`, `blogAddress`, `languageOptions`, `visibilityOptions`, `renderAmpSection`, `relatedPostsOptions`, `Timezone`, `render`, the footer and upgrade nudge). It is markup with no state.
- Notices (`_showWarning`, `notices.warning`, `clearNotices`) and `debug` logging. They are side effects with no result the form reads.
- Analytics transport: `recordEvent` only appends the action to a log. `analytics.ga` itself is outside the model.
- Routing (`page(...)`, `handleAmpCustomize`) and feature-flag, `config` and `site.versionCompare` lookups. They call code that is not part of this model.
- The date window of `holidaySnowOption`. It depends on the `moment` date library, which is not part of this model.
- The settings API: `saveSiteSettings` is represented only by the request it receives and by the success or failure passed to `SaveResolved`. The Redux `connect` selectors are not modelled.
- The `formFields`, `protectForm` and `localize` wrappers are not part of this model. `UpdateFields`, `ClearDirtyFields` and `MarkDirty` stand for the store's operations. `markSaved` is counted, not modelled as a guard.
- The completion callback of `updateFields`: the model runs the callback of `handleAmpToggle` at once, after the update.
- FormGeneral.SiteSettingsFormGeneral.UpdateFields: whether the `formFields` wrapper's `updateFields` also marks the patch's keys dirty cannot be read from this file. The model assumes it does not. These ensures depend on that assumption: `dirtyFields == {}` after `ComponentWillMount`; `dirtyFields == old(dirtyFields)` in `ComponentWillReceiveProps` and `HandleAmpToggle`; and the frames of `HandleRadio`, `OnChangeField` and `OnTimezoneSelect`, which leave the dirty set alone. In the model a handler edit is protected from refreshes only after `MarkDirty`.
- FormGeneral.SiteSettingsFormGeneral.RecordEventOnce: `setState` is treated as synchronous. React may batch it, so two calls in one batch could both record.
- JavaScript numbers are modelled as integers. `NaN` and fractional values are not represented.
- Several saves may be in flight at once, and an edit made during a save is cleared by its success. The model allows both, like the code.

## Findings

| source | as written | input that shows it | evidently intended | confidence | as-written member | corrected member |
|---|---|---|---|---|---|---|
| client/my-sites/site-settings/form-general.jsx:380 | `this.onRecordEvent( 'Clicked AMP Toggle' )` only returns a bound handler, which is thrown away, so no event is recorded | any AMP toggle: the analytics log is unchanged afterwards | record "Clicked AMP Toggle" after submitting (`this.recordEvent(...)`); line 385 in `handleAmpCustomize` has the same pattern | high; not executed | FormGeneral.SiteSettingsFormGeneral.HandleAmpToggle | FormGeneral.SiteSettingsFormGeneral.HandleAmpToggleRecorded |
