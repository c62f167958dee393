/**
 * Reading the startup configuration (`getBouOptionsFromConfigYaml` and its
 * type guard `implementsBouOptions`) and the checks `run` makes on the
 * result before it connects to the broker.
 */
module Config {
  import opened Wrappers
  import opened JsValues

  /** The four settings under the `bouOptions` key of the configuration file. */
  datatype BouOptions = BouOptions(
    beebotteChannelToken: string,
    beebotteChannel: string,
    beebotteResource: string,
    endpoint: string)

  const TokenKey := "beebotteChannelToken"
  const ChannelKey := "beebotteChannel"
  const ResourceKey := "beebotteResource"
  const EndpointKey := "endpoint"
  const OptionsKey := "bouOptions"

  /** Exit code of `run` when the configuration is unusable. */
  const ConfigExitCode := 1

  /** `typeof arg[key] === 'string'` for an object `arg`. */
  predicate HasString(m: map<string, Json>, key: string) {
    key in m && m[key].JStr?
  }

  /**
   * The type guard: a non-null object whose four settings are all strings.
   * Extra keys are allowed; nothing is said about the strings' contents.
   */
  predicate ImplementsBouOptions(arg: JsValue) {
    IsObject(arg) && arg.json.JObj? &&
    HasString(arg.json.fields, TokenKey) &&
    HasString(arg.json.fields, ChannelKey) &&
    HasString(arg.json.fields, ResourceKey) &&
    HasString(arg.json.fields, EndpointKey)
  }

  /** The settings an object that passed the type guard stands for. */
  function OptionsOf(m: map<string, Json>): (o: BouOptions)
    requires HasString(m, TokenKey) && HasString(m, ChannelKey)
    requires HasString(m, ResourceKey) && HasString(m, EndpointKey)
    ensures SameSettings(m, o)
  {
    BouOptions(m[TokenKey].s, m[ChannelKey].s, m[ResourceKey].s, m[EndpointKey].s)
  }

  /** The object `m` carries exactly the settings `o` as strings, whatever else it holds. */
  predicate SameSettings(m: map<string, Json>, o: BouOptions) {
    TokenKey in m && m[TokenKey] == JStr(o.beebotteChannelToken) &&
    ChannelKey in m && m[ChannelKey] == JStr(o.beebotteChannel) &&
    ResourceKey in m && m[ResourceKey] == JStr(o.beebotteResource) &&
    EndpointKey in m && m[EndpointKey] == JStr(o.endpoint)
  }

  /** The object the configuration file holds for the given settings. */
  function OptionsJson(o: BouOptions): Json {
    JObj(map[TokenKey := JStr(o.beebotteChannelToken),
             ChannelKey := JStr(o.beebotteChannel),
             ResourceKey := JStr(o.beebotteResource),
             EndpointKey := JStr(o.endpoint)])
  }

  /**
   * `getBouOptionsFromConfigYaml`. `loaded` is `None` when reading the file or
   * `YAML.parse` threw. Reading `loaded.bouOptions` off a parsed `null`
   * throws too; every exception is caught and gives `None`.
   */
  function BouOptionsFromConfig(loaded: Option<Json>): (r: Option<BouOptions>)
    ensures r.Some? <==> loaded.Some? && !loaded.value.JNull?
                         && ImplementsBouOptions(Prop(loaded.value, OptionsKey))
    ensures r.Some? ==> SameSettings(Prop(loaded.value, OptionsKey).json.fields, r.value)
  {
    match loaded
    case None => None
    case Some(doc) =>
      if doc.JNull? then None
      else
        var arg := Prop(doc, OptionsKey);
        if !ImplementsBouOptions(arg) then None
        else Some(OptionsOf(arg.json.fields))
  }

  /** What `run` does with the configuration before any broker connection. */
  datatype Startup = Exit(code: int) | Connect(options: BouOptions)

  /**
   * The two checks at the top of `run`: no configuration, or an empty token,
   * ends the process with exit code 1; nothing else is checked.
   */
  function StartupOf(loaded: Option<Json>): (r: Startup)
    ensures r == Exit(ConfigExitCode) <==>
            BouOptionsFromConfig(loaded).None? || BouOptionsFromConfig(loaded).value.beebotteChannelToken == ""
    ensures r.Exit? ==> r.code == ConfigExitCode
    ensures r.Connect? ==> BouOptionsFromConfig(loaded) == Some(r.options)
    ensures r.Connect? ==> |r.options.beebotteChannelToken| > 0
  {
    match BouOptionsFromConfig(loaded)
    case None => Exit(ConfigExitCode)
    case Some(o) => if |o.beebotteChannelToken| == 0 then Exit(ConfigExitCode) else Connect(o)
  }

  /**
   * The configuration file's own shape round-trips: a document whose
   * `bouOptions` object holds the four settings (and possibly more keys)
   * is read back as exactly those settings.
   */
  lemma ReadsBackOptions(o: BouOptions, extra: map<string, Json>)
    ensures BouOptionsFromConfig(Some(JObj(map[OptionsKey := JObj(extra + OptionsJson(o).fields)])))
            == Some(o)
  {
  }

  /**
   * Whenever the type guard rejects the `bouOptions` value (absent, null,
   * an array, a string, or an object with a missing or non-string setting)
   * the result is `None`.
   */
  lemma RejectsNonString(m: map<string, Json>, key: string)
    requires key in {TokenKey, ChannelKey, ResourceKey, EndpointKey}
    requires key !in m || !m[key].JStr?
    ensures BouOptionsFromConfig(Some(JObj(map[OptionsKey := JObj(m)]))) == None
  {
  }

  /**
   * Only the token is checked: any settings with a non-empty token, empty
   * channel, resource or endpoint included, go through to the connection.
   */
  lemma OnlyTokenChecked(o: BouOptions)
    requires o.beebotteChannelToken != ""
    ensures StartupOf(Some(JObj(map[OptionsKey := OptionsJson(o)]))) == Connect(o)
  {
  }
}
