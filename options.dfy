/** The options step of the config flow: with input, the input becomes the
    entry data as it is; without input, the stored entry's data and options
    are merged and every recognised option gets the default the form shows. */
module OptionsForm {
  import opened FlowValues

  /** A stored config entry: its `data` and its `options` maps. */
  datatype Entry = Entry(data: map<Key, Value>, options: map<Key, Value>)

  /** The module defaults `SCAN_INTERVAL`, `HOMEKIT_MODE`, `IGNORE_MIWI`,
      `STAT_INTERVAL` and `NOTIFY` of the integration's schema module. */
  datatype ModuleDefaults = ModuleDefaults(
    scanInterval: Value, homekitMode: Value, ignoreMiwi: Value, statInterval: Value, notify: Value)

  /** The keys the options form offers. */
  const OptionKeys: set<Key> :=
    {ScanInterval, HomekitMode, IgnoreMiwi, StatInterval, Notify, Network, Network2, Network3}

  /** The fallback for a recognised key with no stored value: the module
      default, or the empty string for the three network identifiers. */
  function ModuleDefault(defaults: ModuleDefaults, k: Key): Value
    requires k in OptionKeys
  {
    match k
    case ScanInterval => defaults.scanInterval
    case HomekitMode => defaults.homekitMode
    case IgnoreMiwi => defaults.ignoreMiwi
    case StatInterval => defaults.statInterval
    case Notify => defaults.notify
    case Network => Str("")
    case Network2 => Str("")
    case Network3 => Str("")
  }

  /** Python's `m.get(k, default)`. */
  function Get(m: map<Key, Value>, k: Key, default: Value): Value {
    if k in m then m[k] else default
  }

  /** `{**(entry.data if entry else {}), **(entry.options if entry else {})}`. */
  function Current(entry: Option<Entry>): (current: map<Key, Value>)
    ensures entry.None? ==> current == map[]
    ensures entry.Some? ==> current.Keys == entry.value.data.Keys + entry.value.options.Keys
    ensures entry.Some? ==> forall k :: k in entry.value.options ==> current[k] == entry.value.options[k]
    ensures entry.Some? ==>
              forall k :: k in entry.value.data && k !in entry.value.options ==> current[k] == entry.value.data[k]
  {
    match entry
    case None => map[]
    case Some(e) => e.data + e.options
  }

  /** Python's `int(x)` on a float: truncation toward zero. */
  function TruncateTowardZero(x: real): (n: int)
    ensures 0.0 <= x ==> 0 <= n && n as real <= x < n as real + 1.0
    ensures x < 0.0 ==> n <= 0 && n as real - 1.0 < x <= n as real
  {
    if 0.0 <= x then x.Floor else -((-x).Floor)
  }

  /** A scan interval that has `total_seconds` becomes the whole number of seconds it spans. */
  function NormalizeScan(v: Value): (r: Value)
    ensures !r.Duration?
    ensures v.Duration? ==> r == Int(TruncateTowardZero(v.totalSeconds))
    ensures !v.Duration? ==> r == v
  {
    if v.Duration? then Int(TruncateTowardZero(v.totalSeconds)) else v
  }

  /** The defaults of the options form: every recognised key gets its value
      in `current` if there is one, else its module default; the scan interval
      is normalised after that choice, whichever way it was made. */
  function OptionDefaults(current: map<Key, Value>, defaults: ModuleDefaults): (d: map<Key, Value>)
    ensures d.Keys == OptionKeys
    ensures forall k :: k in OptionKeys && k != ScanInterval ==>
              d[k] == (if k in current then current[k] else ModuleDefault(defaults, k))
    ensures d[ScanInterval]
         == NormalizeScan(if ScanInterval in current then current[ScanInterval] else defaults.scanInterval)
  {
    map[
      ScanInterval := NormalizeScan(Get(current, ScanInterval, defaults.scanInterval)),
      HomekitMode := Get(current, HomekitMode, defaults.homekitMode),
      IgnoreMiwi := Get(current, IgnoreMiwi, defaults.ignoreMiwi),
      StatInterval := Get(current, StatInterval, defaults.statInterval),
      Notify := Get(current, Notify, defaults.notify),
      Network := Get(current, Network, Str("")),
      Network2 := Get(current, Network2, Str("")),
      Network3 := Get(current, Network3, Str(""))
    ]
  }

  /** `_show_options_form`: input is returned as the new entry's data, unmerged;
      no input shows the options form with the defaults drawn from the entry. */
  function OptionsStep(input: Option<map<Key, Value>>, entry: Option<Entry>, defaults: ModuleDefaults): (r: FlowResult)
    ensures input.Some? ==> r == CreateEntry(Str("Options"), input.value)
    ensures input.None? ==> r.ShowForm? && r.stepId == "options" && r.errors == map[]
    ensures input.None? ==> r.defaults.Keys == OptionKeys && !r.defaults[ScanInterval].Duration?
  {
    match input
    case Some(ui) => CreateEntry(Str("Options"), ui)
    case None => ShowForm("options", OptionDefaults(Current(entry), defaults), map[])
  }

  /** Submitted options are the entry data exactly, whatever is stored and
      whatever the module defaults are. */
  lemma OptionsInputVerbatim(ui: map<Key, Value>, entry: Option<Entry>, otherEntry: Option<Entry>,
                             defaults: ModuleDefaults, otherDefaults: ModuleDefaults)
    ensures OptionsStep(Some(ui), entry, defaults).data == ui
    ensures OptionsStep(Some(ui), entry, defaults) == OptionsStep(Some(ui), otherEntry, otherDefaults)
  {
  }

  /** The form's default for any recognised key: the stored option, else the
      stored data, else the module default; the scan interval's choice is then
      normalised. */
  lemma StoredOptionWins(e: Entry, defaults: ModuleDefaults, k: Key)
    requires k in OptionKeys
    ensures
      var v := if k in e.options then e.options[k]
               else if k in e.data then e.data[k]
               else ModuleDefault(defaults, k);
      OptionsStep(None, Some(e), defaults).defaults[k] == (if k == ScanInterval then NormalizeScan(v) else v)
  {
  }

  /** A scan interval stored as a duration is shown as its truncated whole seconds. */
  lemma ScanIntervalShownInSeconds(e: Entry, defaults: ModuleDefaults, seconds: real)
    requires Get(Current(Some(e)), ScanInterval, defaults.scanInterval) == Duration(seconds)
    ensures OptionsStep(None, Some(e), defaults).defaults[ScanInterval] == Int(TruncateTowardZero(seconds))
  {
  }

  /** Without an entry the form shows the module defaults and empty network identifiers,
      exactly as for an entry with nothing stored. */
  lemma MissingEntryShowsModuleDefaults(defaults: ModuleDefaults)
    ensures OptionsStep(None, None, defaults) == OptionsStep(None, Some(Entry(map[], map[])), defaults)
    ensures OptionsStep(None, None, defaults).defaults
         == map[
              ScanInterval := NormalizeScan(defaults.scanInterval),
              HomekitMode := defaults.homekitMode,
              IgnoreMiwi := defaults.ignoreMiwi,
              StatInterval := defaults.statInterval,
              Notify := defaults.notify,
              Network := Str(""),
              Network2 := Str(""),
              Network3 := Str("")
            ]
  {
  }

  /** Only the recognised keys of the merged map matter: stored state that
      agrees on them renders the same form. */
  lemma DefaultsReadOnlyOptionKeys(current: map<Key, Value>, other: map<Key, Value>, defaults: ModuleDefaults)
    requires forall k :: k in OptionKeys ==> (k in current <==> k in other)
    requires forall k :: k in OptionKeys && k in current ==> current[k] == other[k]
    ensures OptionDefaults(current, defaults) == OptionDefaults(other, defaults)
  {
  }

  /** Storing the shown defaults as the entry's options and rendering again
      shows the same defaults: the defaulting is a fixed point. */
  lemma DefaultsStable(e: Entry, defaults: ModuleDefaults)
    ensures var shown := OptionsStep(None, Some(e), defaults).defaults;
            OptionsStep(None, Some(Entry(e.data, shown)), defaults).defaults == shown
  {
  }
}
