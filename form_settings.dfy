/** `getFormSettings`: the form fields derived from a raw site-settings
    payload, with the conditional related-posts and holiday-snow fields and
    the legacy `gmt_offset` fallback for the timezone. */
module FormSettings {
  import opened JsValues

  // Setting keys the form reads or writes.
  const Blogname := "blogname"
  const Blogdescription := "blogdescription"
  const LangId := "lang_id"
  const BlogPublic := "blog_public"
  const TimezoneString := "timezone_string"
  const GmtOffset := "gmt_offset"
  const RelatedPostsAllowed := "jetpack_relatedposts_allowed"
  const RelatedPostsEnabled := "jetpack_relatedposts_enabled"
  const RelatedPostsShowHeadline := "jetpack_relatedposts_show_headline"
  const RelatedPostsShowThumbnails := "jetpack_relatedposts_show_thumbnails"
  const SyncNonPublicPostStati := "jetpack_sync_non_public_post_stati"
  const HolidaySnow := "holidaysnow"
  const AmpIsSupported := "amp_is_supported"
  const AmpIsEnabled := "amp_is_enabled"

  /** The nine keys copied from every present payload, defined or not. */
  const BaseKeys: set<string> := {
    Blogname, Blogdescription, LangId, BlogPublic, TimezoneString,
    RelatedPostsAllowed, SyncNonPublicPostStati, AmpIsSupported, AmpIsEnabled
  }

  /** The keys present only when related posts are allowed. */
  const RelatedPostsKeys: set<string> := {
    RelatedPostsEnabled, RelatedPostsShowHeadline, RelatedPostsShowThumbnails
  }

  /** The key groups do not overlap, so adding one group never shadows another. */
  lemma KeyGroupsDisjoint()
    ensures BaseKeys !! RelatedPostsKeys
    ensures HolidaySnow !in BaseKeys && HolidaySnow !in RelatedPostsKeys
  {
  }

  /** A settings object as the store hands it to the form. It is never
      mutated; its identity is what tells a refresh from a re-render. */
  class SiteSettings {
    const data: map<string, Value>

    constructor (data: map<string, Value>)
      ensures this.data == data
    {
      this.data := data;
    }
  }

  /** The timezone name synthesised from a legacy offset such as "-5" or "5":
      "UTC", then a "+" unless the offset already holds a hyphen, then the
      offset itself. */
  function LegacyTimezone(gmtOffset: string): (tz: string)
    ensures |tz| > 3 && tz[..3] == "UTC"
    ensures '-' !in gmtOffset ==> tz[3] == '+'
  {
    "UTC" + (if '-' in gmtOffset then "" else "+") + gmtOffset
  }

  /** The offset a legacy timezone name was built from: the inverse of
      LegacyTimezone. */
  function LegacyOffset(tz: string): string
    requires |tz| >= 3
  {
    var rest := tz[3..];
    if '-' !in rest && |rest| > 0 && rest[0] == '+' then rest[1..] else rest
  }

  /** The sign of the offset survives: the offset can always be read back
      from the synthesised name. */
  lemma LegacyTimezoneRoundTrip(gmtOffset: string)
    ensures LegacyOffset(LegacyTimezone(gmtOffset)) == gmtOffset
  {
  }

  /** The timezone fallback applies when the payload's timezone name is falsy
      and its `gmt_offset` is a non-empty string. */
  predicate UsesLegacyOffset(s: map<string, Value>) {
    && !Truthy(Get(s, TimezoneString))
    && Get(s, GmtOffset).Str?
    && |Get(s, GmtOffset).s| > 0
  }

  /** The related-posts fields: present only when related posts are allowed,
      with the enabled flag normalised to 1 or 0. */
  function RelatedPostsFieldsOf(s: map<string, Value>): map<string, Value> {
    if Truthy(Get(s, RelatedPostsAllowed)) then map[
      RelatedPostsEnabled := Int(if Truthy(Get(s, RelatedPostsEnabled)) then 1 else 0),
      RelatedPostsShowHeadline := Get(s, RelatedPostsShowHeadline),
      RelatedPostsShowThumbnails := Get(s, RelatedPostsShowThumbnails)
    ]
    else map[]
  }

  /** The holiday-snow field: present only when the payload's value is truthy. */
  function HolidaySnowFieldOf(s: map<string, Value>): map<string, Value> {
    if Truthy(Get(s, HolidaySnow)) then map[HolidaySnow := Get(s, HolidaySnow)] else map[]
  }

  /** The nine base fields, copied from the payload whether defined or not. */
  function BaseFieldsOf(s: map<string, Value>): map<string, Value> {
    map k | k in BaseKeys :: Get(s, k)
  }

  /** The derived fields before the timezone fallback. */
  function CopiedFieldsOf(s: map<string, Value>): map<string, Value> {
    BaseFieldsOf(s) + RelatedPostsFieldsOf(s) + HolidaySnowFieldOf(s)
  }

  /** The form fields derived from a present payload. */
  function FormSettingsOf(s: map<string, Value>): (r: map<string, Value>)
    ensures r.Keys == BaseKeys
                      + (if Truthy(Get(s, RelatedPostsAllowed)) then RelatedPostsKeys else {})
                      + (if Truthy(Get(s, HolidaySnow)) then {HolidaySnow} else {})
  {
    var formSettings := CopiedFieldsOf(s);
    if UsesLegacyOffset(s) then
      formSettings[TimezoneString := Str(LegacyTimezone(Get(s, GmtOffset).s))]
    else
      formSettings
  }

  /** `getFormSettings(settings)`: nothing for an absent payload, otherwise
      the fields derived from it. */
  function GetFormSettings(settings: SiteSettings?): (r: map<string, Value>)
    ensures settings == null ==> r == map[]
    ensures settings != null ==> BaseKeys <= r.Keys
  {
    if settings == null then map[] else FormSettingsOf(settings.data)
  }

  /** Every base key but the timezone is copied as it is, undefined when the
      payload lacks it. */
  lemma BaseFieldsCopied(s: map<string, Value>, k: string)
    requires k in BaseKeys - {TimezoneString}
    ensures k in FormSettingsOf(s) && FormSettingsOf(s)[k] == Get(s, k)
  {
    KeyGroupsDisjoint();
    var related, snow := RelatedPostsFieldsOf(s), HolidaySnowFieldOf(s);
    assert related.Keys <= RelatedPostsKeys && snow.Keys <= {HolidaySnow};
    assert k !in related && k !in snow;
    assert CopiedFieldsOf(s)[k] == BaseFieldsOf(s)[k];
  }

  /** The three related-posts fields are present exactly when related posts
      are allowed; the enabled flag is then normalised to 1 or 0 and the two
      display flags are copied. */
  lemma RelatedPostsFields(s: map<string, Value>)
    ensures RelatedPostsEnabled in FormSettingsOf(s) <==> Truthy(Get(s, RelatedPostsAllowed))
    ensures RelatedPostsShowHeadline in FormSettingsOf(s) <==> Truthy(Get(s, RelatedPostsAllowed))
    ensures RelatedPostsShowThumbnails in FormSettingsOf(s) <==> Truthy(Get(s, RelatedPostsAllowed))
    ensures Truthy(Get(s, RelatedPostsAllowed)) ==>
      && FormSettingsOf(s)[RelatedPostsEnabled] == (if Truthy(Get(s, RelatedPostsEnabled)) then Int(1) else Int(0))
      && FormSettingsOf(s)[RelatedPostsShowHeadline] == Get(s, RelatedPostsShowHeadline)
      && FormSettingsOf(s)[RelatedPostsShowThumbnails] == Get(s, RelatedPostsShowThumbnails)
  {
    KeyGroupsDisjoint();
    var related, snow := RelatedPostsFieldsOf(s), HolidaySnowFieldOf(s);
    assert related.Keys <= RelatedPostsKeys && snow.Keys <= {HolidaySnow};
    forall k | k in related ensures k in FormSettingsOf(s) && FormSettingsOf(s)[k] == related[k] {
      assert k != TimezoneString && k !in snow;
      assert CopiedFieldsOf(s)[k] == related[k];
    }
  }

  /** `holidaysnow` is present exactly when the payload's value is truthy, and
      then carries that value. */
  lemma HolidaySnowField(s: map<string, Value>)
    ensures HolidaySnow in FormSettingsOf(s) <==> Truthy(Get(s, HolidaySnow))
    ensures HolidaySnow in FormSettingsOf(s) ==> FormSettingsOf(s)[HolidaySnow] == Get(s, HolidaySnow)
  {
    KeyGroupsDisjoint();
    var snow := HolidaySnowFieldOf(s);
    if HolidaySnow in snow {
      assert CopiedFieldsOf(s)[HolidaySnow] == snow[HolidaySnow];
    }
  }

  /** The timezone field is the synthesised legacy name when the fallback
      applies, and the payload's own timezone name otherwise. */
  lemma TimezoneField(s: map<string, Value>)
    ensures TimezoneString in FormSettingsOf(s)
    ensures UsesLegacyOffset(s) ==>
      FormSettingsOf(s)[TimezoneString] == Str(LegacyTimezone(Get(s, GmtOffset).s))
    ensures !UsesLegacyOffset(s) ==> FormSettingsOf(s)[TimezoneString] == Get(s, TimezoneString)
  {
    assert TimezoneString in BaseKeys;
    if !UsesLegacyOffset(s) {
      KeyGroupsDisjoint();
      var related, snow := RelatedPostsFieldsOf(s), HolidaySnowFieldOf(s);
      assert related.Keys <= RelatedPostsKeys && snow.Keys <= {HolidaySnow};
      assert CopiedFieldsOf(s)[TimezoneString] == BaseFieldsOf(s)[TimezoneString];
    }
  }

  /** An empty timezone name with offset "-5" gives "UTC-5"; with "5" it gives "UTC+5". */
  lemma TimezoneScenarios()
    ensures FormSettingsOf(map[TimezoneString := Str(""), GmtOffset := Str("-5")])[TimezoneString] == Str("UTC-5")
    ensures FormSettingsOf(map[TimezoneString := Str(""), GmtOffset := Str("5")])[TimezoneString] == Str("UTC+5")
  {
  }

  /** A payload that does not allow related posts yields no related-posts
      enabled key at all, not a false or 0 value. */
  lemma RelatedPostsOmittedScenario()
    ensures RelatedPostsEnabled !in FormSettingsOf(map[RelatedPostsAllowed := Bool(false)])
  {
  }
}
