/**
 * django_outbox_pattern/settings.py: the library's settings object. A name is
 * looked up in the project's `DJANGO_OUTBOX_PATTERN` dictionary, then in the
 * defaults; names in string import notation are imported; every value read is
 * kept as an attribute until `reload`.
 */
module Settings {
  import opened Wrappers
  import opened Dicts

  /** The Python values a setting can hold; `VImported` is the object an import string names. */
  datatype Value =
    | VNone
    | VBool(b: bool)
    | VInt(i: int)
    | VStr(s: string)
    | VList(items: seq<Value>)
    | VTuple(items: seq<Value>)
    | VDict(entries: Dict<Value>)
    | VImported(path: string)

  /** Why reading a setting raised. */
  datatype Failure =
    /** `AttributeError("Invalid setting: '<name>'")`. */
    | InvalidSetting(name: string)
    /** The `ImportError` of `import_from_string`, naming the path and the setting. */
    | CouldNotImport(path: string, setting: string)
    /** `import_string` on a list item that is not a string fails before it can raise `ImportError`. */
    | NotAPath(setting: string)

  /** The library's own defaults. */
  const DEFAULTS: Dict<Value> := [
    ("DEFAULT_CONNECTION_CLASS", VStr("stomp.StompConnection12")),
    ("DEFAULT_CONSUMER_LISTENER_CLASS", VStr("django_outbox_pattern.listeners.ConsumerListener")),
    ("DEFAULT_GENERATE_HEADERS", VStr("django_outbox_pattern.headers.generate_headers")),
    ("DEFAULT_MAXIMUM_BACKOFF", VInt(3600)),
    ("DEFAULT_MAXIMUM_RETRY_ATTEMPTS", VInt(50)),
    ("DEFAULT_PAUSE_FOR_RETRY", VInt(240)),
    ("DEFAULT_WAIT_RETRY", VInt(60)),
    ("DEFAULT_PRODUCER_LISTENER_CLASS", VStr("django_outbox_pattern.listeners.ProducerListener")),
    ("DEFAULT_PUBLISHED_CLASS", VStr("django_outbox_pattern.models.Published")),
    ("DEFAULT_RECEIVED_CLASS", VStr("django_outbox_pattern.models.Received")),
    ("DEFAULT_STOMP_HOST_AND_PORTS", VList([VTuple([VStr("127.0.0.1"), VInt(61613)])])),
    ("DEFAULT_STOMP_QUEUE_HEADERS",
     VDict([("durable", VStr("true")), ("auto-delete", VStr("false")), ("prefetch-count", VStr("1"))])),
    ("DEFAULT_STOMP_HEARTBEATS", VTuple([VInt(10000), VInt(10000)])),
    ("DEFAULT_STOMP_VHOST", VStr("/")),
    ("DEFAULT_STOMP_USERNAME", VStr("guest")),
    ("DEFAULT_STOMP_PASSCODE", VStr("guest")),
    ("DEFAULT_STOMP_USE_SSL", VBool(false)),
    ("DEFAULT_STOMP_KEY_FILE", VNone),
    ("DEFAULT_STOMP_CERT_FILE", VNone),
    ("DEFAULT_STOMP_CA_CERTS", VNone),
    ("DEFAULT_STOMP_CERT_VALIDATOR", VNone),
    ("DEFAULT_STOMP_SSL_VERSION", VNone),
    ("DEFAULT_STOMP_SSL_PASSWORD", VNone)
  ]

  /** The settings that may be given in string import notation. */
  const IMPORT_STRINGS: seq<string> := [
    "DEFAULT_CONNECTION_CLASS",
    "DEFAULT_CONSUMER_LISTENER_CLASS",
    "DEFAULT_GENERATE_HEADERS",
    "DEFAULT_PRODUCER_LISTENER_CLASS",
    "DEFAULT_PUBLISHED_CLASS",
    "DEFAULT_RECEIVED_CLASS",
    "DEFAULT_STOMP_CERT_VALIDATOR"
  ]

  /** The name of the project setting whose change reloads the settings object. */
  const NAMESPACE: string := "DJANGO_OUTBOX_PATTERN"

  /**
   * `import_from_string(val, setting_name)`: Django's `import_string`, which
   * succeeds on exactly the dotted paths in `importable`, with its
   * `ImportError` reworded to name the setting.
   */
  function ImportFromString(path: string, setting: string, importable: set<string>): (r: Result<Value, Failure>)
    ensures r.Ok? <==> path in importable
    ensures r.Ok? ==> r.value == VImported(path)
    ensures r.Err? ==> r.error == CouldNotImport(path, setting)
  {
    if path in importable then Ok(VImported(path)) else Err(CouldNotImport(path, setting))
  }

  /** The list comprehension of `perform_import`: import every item, stopping at the first that fails. */
  function ImportAll(items: seq<Value>, setting: string, importable: set<string>): Result<seq<Value>, Failure>
  {
    if items == [] then Ok([])
    else
      var head := if items[0].VStr? then ImportFromString(items[0].s, setting, importable) else Err(NotAPath(setting));
      if head.Err? then Err(head.error)
      else
        var tail := ImportAll(items[1..], setting, importable);
        if tail.Err? then tail else Ok([head.value] + tail.value)
  }

  /** Every item is a string naming an importable object. */
  predicate AllImportable(items: seq<Value>, importable: set<string>) {
    forall i :: 0 <= i < |items| ==> items[i].VStr? && items[i].s in importable
  }

  /**
   * The comprehension imports every item exactly when every item is an
   * importable path, and then yields the imported objects in order; otherwise
   * it raises for the first item that is not.
   */
  lemma {:induction false} ImportAllMeaning(items: seq<Value>, setting: string, importable: set<string>)
    ensures ImportAll(items, setting, importable).Ok? <==> AllImportable(items, importable)
    ensures ImportAll(items, setting, importable).Ok? ==>
      var vs := ImportAll(items, setting, importable).value;
      |vs| == |items| && forall i :: 0 <= i < |items| ==> vs[i] == VImported(items[i].s)
    ensures ImportAll(items, setting, importable).Err? ==>
      exists k :: 0 <= k < |items| && !(items[k].VStr? && items[k].s in importable) &&
        AllImportable(items[..k], importable) &&
        ImportAll(items, setting, importable).error ==
          (if items[k].VStr? then CouldNotImport(items[k].s, setting) else NotAPath(setting))
  {
    if items != [] {
      ImportAllMeaning(items[1..], setting, importable);
      var head := if items[0].VStr? then ImportFromString(items[0].s, setting, importable) else Err(NotAPath(setting));
      if head.Ok? {
        assert AllImportable(items, importable) <==> AllImportable(items[1..], importable) by {
          if AllImportable(items[1..], importable) {
            forall i | 0 <= i < |items|
              ensures items[i].VStr? && items[i].s in importable
            {
              if i > 0 {
                assert items[i] == items[1..][i - 1];
              }
            }
          }
          if AllImportable(items, importable) {
            forall i | 0 <= i < |items| - 1
              ensures items[1..][i].VStr? && items[1..][i].s in importable
            {
              assert items[1..][i] == items[i + 1];
            }
          }
        }
        if ImportAll(items[1..], setting, importable).Err? {
          var k :| 0 <= k < |items[1..]| && !(items[1..][k].VStr? && items[1..][k].s in importable) &&
            AllImportable(items[1..][..k], importable) &&
            ImportAll(items[1..], setting, importable).error ==
              (if items[1..][k].VStr? then CouldNotImport(items[1..][k].s, setting) else NotAPath(setting));
          assert items[k + 1] == items[1..][k];
          forall i | 0 <= i < k + 1
            ensures items[i].VStr? && items[i].s in importable
          {
            if i > 0 {
              assert items[i] == items[1..][..k][i - 1];
            }
          }
          assert AllImportable(items[..k + 1], importable);
        }
      } else {
        assert !(items[0].VStr? && items[0].s in importable);
        assert AllImportable(items[..0], importable);
      }
    }
  }

  /**
   * `perform_import(val, setting_name)`: a string is imported, a list or a
   * tuple is imported item by item into a list, anything else is returned
   * unchanged.
   */
  function PerformImport(v: Value, setting: string, importable: set<string>): (r: Result<Value, Failure>)
    ensures !v.VStr? && !v.VList? && !v.VTuple? ==> r == Ok(v)
    ensures v.VStr? ==> r == ImportFromString(v.s, setting, importable)
  {
    match v
    case VStr(path) => ImportFromString(path, setting, importable)
    case VList(items) =>
      var all := ImportAll(items, setting, importable);
      if all.Err? then Err(all.error) else Ok(VList(all.value))
    case VTuple(items) =>
      var all := ImportAll(items, setting, importable);
      if all.Err? then Err(all.error) else Ok(VList(all.value))
    case _ => Ok(v)
  }

  /** A list or a tuple of importable paths becomes the list of the objects they name. */
  lemma PerformImportSequence(v: Value, setting: string, importable: set<string>)
    requires v.VList? || v.VTuple?
    ensures PerformImport(v, setting, importable).Ok? <==> AllImportable(v.items, importable)
    ensures PerformImport(v, setting, importable).Ok? ==>
      var r := PerformImport(v, setting, importable).value;
      r.VList? && |r.items| == |v.items| &&
      forall i :: 0 <= i < |v.items| ==> r.items[i] == VImported(v.items[i].s)
  {
    ImportAllMeaning(v.items, setting, importable);
  }

  /**
   * `__getattr__` on a name that is not cached yet, as a value: an unknown
   * name raises; a project value wins over the default; only names in
   * `importStrings` are imported.
   */
  function Lookup(user: Dict<Value>, defaults: Dict<Value>, importStrings: seq<string>, importable: set<string>,
                  name: string): Result<Value, Failure>
  {
    if !HasKey(defaults, name) then Err(InvalidSetting(name))
    else
      var raw := if HasKey(user, name) then Get(user, name).value else Get(defaults, name).value;
      if name in importStrings then PerformImport(raw, name, importable) else Ok(raw)
  }

  /** The lookup order: unknown names fail, project values come first, and the defaults fill in the rest. */
  lemma LookupMeaning(user: Dict<Value>, defaults: Dict<Value>, importStrings: seq<string>, importable: set<string>,
                      name: string)
    ensures !HasKey(defaults, name) ==> Lookup(user, defaults, importStrings, importable, name) == Err(InvalidSetting(name))
    ensures HasKey(defaults, name) && name !in importStrings ==>
      Lookup(user, defaults, importStrings, importable, name) ==
        Ok(if HasKey(user, name) then Get(user, name).value else Get(defaults, name).value)
    ensures HasKey(defaults, name) && name in importStrings ==>
      Lookup(user, defaults, importStrings, importable, name) ==
        PerformImport(if HasKey(user, name) then Get(user, name).value else Get(defaults, name).value, name, importable)
  {
  }

  /** A project value of the wrong shape is never coerced for a name outside `importStrings`. */
  lemma LookupNoImport(user: Dict<Value>, defaults: Dict<Value>, importStrings: seq<string>, importable: set<string>,
                       name: string, v: Value)
    requires HasKey(defaults, name) && name !in importStrings && Get(user, name) == Some(v)
    ensures Lookup(user, defaults, importStrings, importable, name) == Ok(v)
  {
  }

  /** Only a name in `importStrings` can fail to import. */
  lemma ImportFailureNeedsImportString(user: Dict<Value>, defaults: Dict<Value>, importStrings: seq<string>,
                                       importable: set<string>, name: string)
    requires Lookup(user, defaults, importStrings, importable, name).Err?
    ensures Lookup(user, defaults, importStrings, importable, name).error == InvalidSetting(name) <==>
            !HasKey(defaults, name)
    ensures !HasKey(defaults, name) || name in importStrings
  {
    if HasKey(defaults, name) && name in importStrings {
      var raw := if HasKey(user, name) then Get(user, name).value else Get(defaults, name).value;
      match raw
      case VList(items) => ImportAllMeaning(items, name, importable);
      case VTuple(items) => ImportAllMeaning(items, name, importable);
      case _ =>
    }
  }

  /**
   * The default header generator is imported from its dotted path, and a
   * project that sets it to `None` reads `None` back: `perform_import` leaves
   * anything that is not a string or a sequence alone.
   */
  lemma GenerateHeadersSetting(importable: set<string>)
    requires "django_outbox_pattern.headers.generate_headers" in importable
    ensures Lookup([], DEFAULTS, IMPORT_STRINGS, importable, "DEFAULT_GENERATE_HEADERS") ==
            Ok(VImported("django_outbox_pattern.headers.generate_headers"))
    ensures Lookup([("DEFAULT_GENERATE_HEADERS", VNone)], DEFAULTS, IMPORT_STRINGS, importable,
                   "DEFAULT_GENERATE_HEADERS") == Ok(VNone)
  {
  }

  /** The project's Django settings, as far as this library reads them. */
  class DjangoSettings {
    /** `DJANGO_OUTBOX_PATTERN`, when the project defines it. */
    var outbox: Option<Dict<Value>>

    constructor(outbox: Option<Dict<Value>>)
      ensures this.outbox == outbox
    {
      this.outbox := outbox;
    }
  }

  /** `getattr(django_settings, "DJANGO_OUTBOX_PATTERN", {})`. */
  function ProjectOutbox(outbox: Option<Dict<Value>>): Dict<Value> {
    outbox.GetOr([])
  }

  /** The settings object: its lookup tables, the cached attributes and the lazily read project settings. */
  class Setting {
    const django: DjangoSettings
    const defaults: Dict<Value>
    const importStrings: seq<string>
    /** The paths Django's `import_string` can import. */
    const importable: set<string>
    /** `_user_settings`; `None` while the attribute is not set. */
    var userSettings: Option<Dict<Value>>
    /** `_cached_attrs`. */
    var cachedAttrs: set<string>
    /** The setting values stored on the instance with `setattr`. */
    var attrs: map<string, Value>

    /** Every cached name is an attribute on the instance, and every attribute is a known setting. */
    ghost predicate Valid()
      reads this
    {
      cachedAttrs == attrs.Keys && forall k :: k in attrs ==> HasKey(defaults, k)
    }

    /** `Setting(user_settings, defaults, import_strings)`: empty arguments fall back to the library's own. */
    constructor(django: DjangoSettings, userSettings: Option<Dict<Value>>, defaults: Dict<Value>,
                importStrings: seq<string>, importable: set<string>)
      ensures this.django == django && this.importable == importable
      ensures this.userSettings == (if userSettings.Some? && userSettings.value != [] then userSettings else None)
      ensures this.defaults == (if defaults != [] then defaults else DEFAULTS)
      ensures this.importStrings == (if importStrings != [] then importStrings else IMPORT_STRINGS)
      ensures cachedAttrs == {} && attrs == map[]
      ensures Valid()
    {
      this.django := django;
      this.userSettings := if userSettings.Some? && userSettings.value != [] then userSettings else None;
      this.defaults := if defaults != [] then defaults else DEFAULTS;
      this.importStrings := if importStrings != [] then importStrings else IMPORT_STRINGS;
      this.importable := importable;
      cachedAttrs := {};
      attrs := map[];
    }

    /** The `user_settings` property: read the project's dictionary the first time, then keep it. */
    method UserSettings() returns (user: Dict<Value>)
      modifies this
      ensures user == (if old(userSettings).Some? then old(userSettings).value else ProjectOutbox(django.outbox))
      ensures userSettings == Some(user)
      ensures cachedAttrs == old(cachedAttrs) && attrs == old(attrs)
    {
      if userSettings.None? {
        userSettings := Some(ProjectOutbox(django.outbox));
      }
      user := userSettings.value;
    }

    /**
     * `settings.<name>`: a cached attribute is returned as it is; otherwise
     * `__getattr__` looks the name up and, when that does not raise, caches
     * the value.
     */
    method Attr(name: string) returns (r: Result<Value, Failure>)
      requires Valid()
      modifies this
      ensures Valid()
      ensures name in old(attrs) ==>
        r == Ok(old(attrs)[name]) && userSettings == old(userSettings) && attrs == old(attrs) &&
        cachedAttrs == old(cachedAttrs)
      ensures name !in old(attrs) && !HasKey(defaults, name) ==>
        r == Err(InvalidSetting(name)) && userSettings == old(userSettings) && attrs == old(attrs) &&
        cachedAttrs == old(cachedAttrs)
      ensures name !in old(attrs) && HasKey(defaults, name) ==>
        var user := if old(userSettings).Some? then old(userSettings).value else ProjectOutbox(django.outbox);
        r == Lookup(user, defaults, importStrings, importable, name) && userSettings == Some(user) &&
        (r.Ok? ==> attrs == old(attrs)[name := r.value] && cachedAttrs == old(cachedAttrs) + {name}) &&
        (r.Err? ==> attrs == old(attrs) && cachedAttrs == old(cachedAttrs))
    {
      if name in attrs {
        return Ok(attrs[name]);
      }
      if !HasKey(defaults, name) {
        return Err(InvalidSetting(name));
      }
      var user := UserSettings();
      var v := if HasKey(user, name) then Get(user, name).value else Get(defaults, name).value;
      if name in importStrings {
        r := PerformImport(v, name, importable);
        if r.Err? {
          return;
        }
        v := r.value;
      }
      cachedAttrs := cachedAttrs + {name};
      attrs := attrs[name := v];
      r := Ok(v);
    }

    /** `reload`: drop every cached attribute, forget them, and forget the project's dictionary. */
    method Reload()
      requires Valid()
      modifies this
      ensures attrs == map[] && cachedAttrs == {} && userSettings == None
      ensures Valid()
    {
      var pending := cachedAttrs;
      while pending != {}
        invariant pending <= cachedAttrs == old(cachedAttrs) && attrs.Keys == pending
        invariant forall k :: k in attrs ==> k in old(attrs) && attrs[k] == old(attrs)[k]
        decreases |pending|
      {
        var a :| a in pending;
        attrs := attrs - {a};
        pending := pending - {a};
      }
      cachedAttrs := {};
      userSettings := None;
    }
  }

  /** `reload_settings`, connected to Django's `setting_changed`: only a change of `DJANGO_OUTBOX_PATTERN` reloads. */
  method ReloadSettings(settings: Setting, setting: string)
    requires settings.Valid()
    modifies settings
    ensures settings.Valid()
    ensures setting == NAMESPACE ==>
      settings.attrs == map[] && settings.cachedAttrs == {} && settings.userSettings == None
    ensures setting != NAMESPACE ==>
      settings.attrs == old(settings.attrs) && settings.cachedAttrs == old(settings.cachedAttrs) &&
      settings.userSettings == old(settings.userSettings)
  {
    if setting == NAMESPACE {
      settings.Reload();
    }
  }
}
