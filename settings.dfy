/**
 * The `woocommerce_accept_bitcoin_settings` option: the one entry of the
 * WordPress options table that the gateway reads and writes, a PHP array from
 * setting keys to strings. `None` stands for an option that is not stored at
 * all (`get_option` then returns `false`).
 */
module Settings {
  import opened Options

  type SettingsMap = map<string, string>

  const EnabledKey := "enabled"
  const TitleKey := "title"
  const DescriptionKey := "description"
  const AddressKey := "btc_address"

  /** The keys of the settings form that carry free text. */
  const TextKeys: set<string> := {TitleKey, DescriptionKey, AddressKey}

  const DefaultTitle := "Bitcoin"
  const DefaultDescription := "Pay using Bitcoin."

  /** The settings the constructor stores when none are stored yet. */
  const Defaults: SettingsMap :=
    map[EnabledKey := "no", TitleKey := DefaultTitle, DescriptionKey := DefaultDescription, AddressKey := ""]

  /** The name under which the settings form posts the value of a setting. */
  function FieldFor(key: string): string
  {
    "woocommerce_accept_bitcoin_" + key
  }

  /** `! get_option(...)` holds for an absent option and for an empty array alike. */
  predicate IsFalsy(stored: Option<SettingsMap>)
  {
    stored.None? || stored.value == map[]
  }

  /** `$settings[key]`: an absent key, or an option read as `false`, yields `null` (here `None`). */
  function Get(stored: Option<SettingsMap>, key: string): Option<string>
  {
    if stored.Some? && key in stored.value then Some(stored.value[key]) else None
  }

  /** The array `process_admin_options` starts from: an absent option becomes an empty array on first write. */
  function OrEmpty(stored: Option<SettingsMap>): SettingsMap
  {
    if stored.Some? then stored.value else map[]
  }

  /** Entry `k` is the same in `a` and `b`: present in both with one value, or absent from both. */
  predicate KeepsEntry(a: SettingsMap, b: SettingsMap, k: string)
  {
    (k in a <==> k in b) && (k in a ==> a[k] == b[k])
  }

  /**
   * The option once the gateway's constructor has run: the defaults are
   * written exactly when the stored option is falsy, and a stored option is
   * never overwritten.
   */
  function InitialOption(stored: Option<SettingsMap>): (r: Option<SettingsMap>)
    ensures !IsFalsy(r)
    ensures r == stored <==> !IsFalsy(stored)
    ensures r != stored ==> r == Some(Defaults)
    ensures r != stored ==> Get(r, EnabledKey) == Some("no") && Get(r, AddressKey) == Some("")
    ensures r != stored ==> Get(r, TitleKey) == Some(DefaultTitle) && Get(r, DescriptionKey) == Some(DefaultDescription)
  {
    if IsFalsy(stored) then assert EnabledKey in Defaults; Some(Defaults) else stored
  }

  /**
   * The title or description the gateway shows: the stored value unless it is
   * the empty string, in which case the default. The comparison is strict
   * (`!== ''`), so a missing key (`null`) is shown as it is, which prints as
   * the empty string.
   */
  function DisplayValue(stored: Option<SettingsMap>, key: string, default: string): (r: string)
    ensures Get(stored, key) == Some("") ==> r == default
    ensures Get(stored, key).Some? && Get(stored, key).value != "" ==> r == Get(stored, key).value
    ensures Get(stored, key).None? ==> r == ""
    ensures Get(stored, key).Some? && default != "" ==> r != ""
  {
    match Get(stored, key)
    case None => ""
    case Some(v) => if v != "" then v else default
  }

  /**
   * The settings array that `process_admin_options` writes back, defined
   * declaratively: `enabled` always, the text settings that were posted, and
   * every other stored entry as it was.
   */
  function AdminUpdate(settings: SettingsMap, posted: map<string, string>, sanitize: string -> string): (r: SettingsMap)
    ensures EnabledKey in r && (r[EnabledKey] == "yes" <==> FieldFor(EnabledKey) in posted)
    ensures r[EnabledKey] == "yes" || r[EnabledKey] == "no"
    ensures forall k :: k in TextKeys && FieldFor(k) in posted ==> k in r && r[k] == sanitize(posted[FieldFor(k)])
    ensures forall k :: k in TextKeys && FieldFor(k) !in posted ==> KeepsEntry(settings, r, k)
    ensures forall k :: k != EnabledKey && k !in TextKeys ==> KeepsEntry(settings, r, k)
  {
    map k | k in settings.Keys + {EnabledKey} + (set t | t in TextKeys && FieldFor(t) in posted) ::
      if k == EnabledKey then (if FieldFor(EnabledKey) in posted then "yes" else "no")
      else if k in TextKeys && FieldFor(k) in posted then sanitize(posted[FieldFor(k)])
      else settings[k]
  }

  /**
   * `has_required_settings`: false exactly when the stored `btc_address` is
   * the empty string. The comparison is strict (`=== ''`), so a missing key or
   * an absent option (both `null`) counts as configured.
   */
  function HasRequiredSettings(stored: Option<SettingsMap>): (r: bool)
    ensures !r <==> stored.Some? && AddressKey in stored.value && stored.value[AddressKey] == ""
  {
    Get(stored, AddressKey) != Some("")
  }

  /** Posting the text setting `key`, if its field was posted, over `settings`. */
  function PostText(settings: SettingsMap, posted: map<string, string>, sanitize: string -> string, key: string): SettingsMap
  {
    if FieldFor(key) in posted then settings[key := sanitize(posted[FieldFor(key)])] else settings
  }

  /** Overwriting `enabled` and then each posted text setting in turn yields AdminUpdate. */
  lemma AdminUpdateByAssignment(settings: SettingsMap, posted: map<string, string>, sanitize: string -> string)
    ensures
      var enabled := settings[EnabledKey := if FieldFor(EnabledKey) in posted then "yes" else "no"];
      PostText(PostText(PostText(enabled, posted, sanitize, TitleKey), posted, sanitize, DescriptionKey), posted, sanitize, AddressKey)
      == AdminUpdate(settings, posted, sanitize)
  {
    var enabled := settings[EnabledKey := if FieldFor(EnabledKey) in posted then "yes" else "no"];
    var written := PostText(PostText(PostText(enabled, posted, sanitize, TitleKey), posted, sanitize, DescriptionKey), posted, sanitize, AddressKey);
    var spec := AdminUpdate(settings, posted, sanitize);
    assert written.Keys == spec.Keys;
    forall k | k in written ensures written[k] == spec[k] {
      if k != EnabledKey && !(k in TextKeys && FieldFor(k) in posted) {
        assert KeepsEntry(settings, spec, k);
      }
    }
  }

  /** A second construction of the gateway writes nothing: the defaults are written at most once. */
  lemma InitialOptionIdempotent(stored: Option<SettingsMap>)
    ensures InitialOption(InitialOption(stored)) == InitialOption(stored)
  {
  }

  /**
   * Once the gateway has been constructed on a site with no stored option, it
   * shows the default title and description and the required settings are
   * not met.
   */
  lemma FreshInstall()
    ensures DisplayValue(InitialOption(None), TitleKey, DefaultTitle) == DefaultTitle
    ensures DisplayValue(InitialOption(None), DescriptionKey, DefaultDescription) == DefaultDescription
    ensures !HasRequiredSettings(InitialOption(None))
  {
    assert Get(InitialOption(None), TitleKey) == Some(DefaultTitle);
    assert Get(InitialOption(None), DescriptionKey) == Some(DefaultDescription);
  }

  /** Submitting the same form twice stores the same settings as submitting it once. */
  lemma {:induction false} AdminUpdateIdempotent(settings: SettingsMap, posted: map<string, string>, sanitize: string -> string)
    ensures AdminUpdate(AdminUpdate(settings, posted, sanitize), posted, sanitize) == AdminUpdate(settings, posted, sanitize)
  {
    var once := AdminUpdate(settings, posted, sanitize);
    var twice := AdminUpdate(once, posted, sanitize);
    forall k ensures KeepsEntry(once, twice, k) {
      if k != EnabledKey && !(k in TextKeys && FieldFor(k) in posted) {
        assert KeepsEntry(settings, once, k) && KeepsEntry(once, twice, k);
      }
    }
    assert once.Keys == twice.Keys;
  }

  /**
   * After a save, the gateway counts as configured exactly when the posted
   * address sanitizes to a non-empty string, or, when no address was posted,
   * when the stored address was not the empty string.
   */
  lemma AdminUpdateConfigures(settings: SettingsMap, posted: map<string, string>, sanitize: string -> string)
    ensures HasRequiredSettings(Some(AdminUpdate(settings, posted, sanitize)))
        <==> if FieldFor(AddressKey) in posted then sanitize(posted[FieldFor(AddressKey)]) != ""
             else HasRequiredSettings(Some(settings))
  {
    var r := AdminUpdate(settings, posted, sanitize);
    assert AddressKey in TextKeys;
    if FieldFor(AddressKey) !in posted {
      assert KeepsEntry(settings, r, AddressKey);
    }
  }
}
