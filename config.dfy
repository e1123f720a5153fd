/**
  The application's configuration records, their defaults, the dict form that is written to
  and read back from the JSON file, and the manager that keeps the current configuration.
  Python dataclasses do not check field types, so every field holds a JSON value.
 */
module Config {
  import opened Wrappers
  import opened Json

  // Section names, as they appear in the JSON file.
  const FftSection := "fft_initial_view"
  const RealtimeSection := "realtime_settings"
  const AnalysisSection := "analysis_parameters"

  // Field names of each section.
  const FftFields: set<string> := {"variable_group", "show_fit_line"}
  const RealtimeFields: set<string> := {"video_source", "yolo_model_path", "mediapipe_model_path", "device"}
  const AnalysisFields: set<string> := {"UPDATE_INTERVAL_MS", "SLIDING_WINDOW_SECONDS"}

  // Field defaults.
  const DefaultVariableGroup := Str("all")
  const DefaultShowFitLine := Bool(true)
  const DefaultVideoSource := Str("0")
  const DefaultYoloModelPath := Str("models/yolov8n.pt")
  const DefaultMediapipeModelPath := Str("models/face_landmarker.task")
  const DefaultDevice := Str("cpu")
  const DefaultUpdateIntervalMs := Int(1000)
  const DefaultSlidingWindowSeconds := Int(30)

  datatype FftInitialViewConfig = FftInitialViewConfig(variableGroup: Value, showFitLine: Value)

  datatype RealtimeSettingsConfig = RealtimeSettingsConfig(
    videoSource: Value, yoloModelPath: Value, mediapipeModelPath: Value, device: Value)

  datatype AnalysisParametersConfig = AnalysisParametersConfig(updateIntervalMs: Value, slidingWindowSeconds: Value)

  datatype AppConfig = AppConfig(
    fftInitialView: FftInitialViewConfig,
    realtimeSettings: RealtimeSettingsConfig,
    analysisParameters: AnalysisParametersConfig)

  /** Why `from_dict` raises: the data has no `.get` (AttributeError), a section is not a mapping
      for `**`, or a section carries keywords the dataclass does not have (both TypeError). */
  datatype ConfigError =
    | DataNotADict
    | NotAMapping(section: string)
    | UnexpectedKeywords(section: string, keys: set<string>)

  /** `AppConfig()`: every section built from its field defaults. */
  function DefaultAppConfig(): (c: AppConfig)
    ensures FromDict(Obj(map[])) == Success(c)
  {
    AppConfig(
      FftInitialViewConfig(DefaultVariableGroup, DefaultShowFitLine),
      RealtimeSettingsConfig(DefaultVideoSource, DefaultYoloModelPath, DefaultMediapipeModelPath, DefaultDevice),
      AnalysisParametersConfig(DefaultUpdateIntervalMs, DefaultSlidingWindowSeconds))
  }

  /** The value a field ends up with: the one the data gives, if its section and the field are
      present, else the field's default. */
  function Given(data: map<string, Value>, section: string, key: string, default: Value): Value
  {
    if section in data && data[section].Obj? && key in data[section].fields
    then data[section].fields[key]
    else default
  }

  /** `data.get(section, {})` unpacked with `**` into a dataclass with the given fields. */
  function SectionArgs(data: map<string, Value>, section: string, allowed: set<string>): Result<map<string, Value>, ConfigError>
  {
    if section !in data then Success(map[])
    else if !data[section].Obj? then Failure(NotAMapping(section))
    else if !(data[section].fields.Keys <= allowed) then
      Failure(UnexpectedKeywords(section, data[section].fields.Keys - allowed))
    else Success(data[section].fields)
  }

  function Field(args: map<string, Value>, key: string, default: Value): Value
  {
    if key in args then args[key] else default
  }

  /** A section of the data that `**` would accept for a dataclass with these fields. */
  predicate SectionAccepted(data: map<string, Value>, section: string, allowed: set<string>)
  {
    section in data ==> data[section].Obj? && data[section].fields.Keys <= allowed
  }

  /** `AppConfig.from_dict(data)`. A missing section or field takes its default, a present one
      is kept as given; it fails exactly when Python would raise. */
  function FromDict(data: Value): (r: Result<AppConfig, ConfigError>)
    ensures r.Success? <==>
      data.Obj?
      && SectionAccepted(data.fields, FftSection, FftFields)
      && SectionAccepted(data.fields, RealtimeSection, RealtimeFields)
      && SectionAccepted(data.fields, AnalysisSection, AnalysisFields)
    ensures !data.Obj? ==> r == Failure(DataNotADict)
    ensures r.Success? ==>
      var d, c := data.fields, r.value;
      && c.fftInitialView.variableGroup == Given(d, FftSection, "variable_group", DefaultVariableGroup)
      && c.fftInitialView.showFitLine == Given(d, FftSection, "show_fit_line", DefaultShowFitLine)
      && c.realtimeSettings.videoSource == Given(d, RealtimeSection, "video_source", DefaultVideoSource)
      && c.realtimeSettings.yoloModelPath == Given(d, RealtimeSection, "yolo_model_path", DefaultYoloModelPath)
      && c.realtimeSettings.mediapipeModelPath == Given(d, RealtimeSection, "mediapipe_model_path", DefaultMediapipeModelPath)
      && c.realtimeSettings.device == Given(d, RealtimeSection, "device", DefaultDevice)
      && c.analysisParameters.updateIntervalMs == Given(d, AnalysisSection, "UPDATE_INTERVAL_MS", DefaultUpdateIntervalMs)
      && c.analysisParameters.slidingWindowSeconds == Given(d, AnalysisSection, "SLIDING_WINDOW_SECONDS", DefaultSlidingWindowSeconds)
  {
    if !data.Obj? then Failure(DataNotADict)
    else
      var d := data.fields;
      match SectionArgs(d, FftSection, FftFields)
      case Failure(e) => Failure(e)
      case Success(fft) =>
        match SectionArgs(d, RealtimeSection, RealtimeFields)
        case Failure(e) => Failure(e)
        case Success(rt) =>
          match SectionArgs(d, AnalysisSection, AnalysisFields)
          case Failure(e) => Failure(e)
          case Success(ap) =>
            Success(AppConfig(
              FftInitialViewConfig(
                Field(fft, "variable_group", DefaultVariableGroup),
                Field(fft, "show_fit_line", DefaultShowFitLine)),
              RealtimeSettingsConfig(
                Field(rt, "video_source", DefaultVideoSource),
                Field(rt, "yolo_model_path", DefaultYoloModelPath),
                Field(rt, "mediapipe_model_path", DefaultMediapipeModelPath),
                Field(rt, "device", DefaultDevice)),
              AnalysisParametersConfig(
                Field(ap, "UPDATE_INTERVAL_MS", DefaultUpdateIntervalMs),
                Field(ap, "SLIDING_WINDOW_SECONDS", DefaultSlidingWindowSeconds))))
  }

  /** `dataclasses.asdict` of the realtime section: the config mapping handed to the worker. */
  function RealtimeAsDict(s: RealtimeSettingsConfig): (r: map<string, Value>)
    // Exactly the declared field names, so `RealtimeSettingsConfig(**r)` accepts it.
    ensures r.Keys == RealtimeFields
    ensures SectionArgs(map[RealtimeSection := Obj(r)], RealtimeSection, RealtimeFields) == Success(r)
  {
    map["video_source" := s.videoSource, "yolo_model_path" := s.yoloModelPath,
        "mediapipe_model_path" := s.mediapipeModelPath, "device" := s.device]
  }

  /** `dataclasses.asdict(config)`: what `save_config` writes. */
  function AsDict(c: AppConfig): (r: Value)
    // A dict of the three section names, each a dict of exactly that section's field names.
    ensures r.Obj? && r.fields.Keys == {FftSection, RealtimeSection, AnalysisSection}
    ensures r.fields[FftSection].Obj? && r.fields[FftSection].fields.Keys == FftFields
    ensures r.fields[RealtimeSection] == Obj(RealtimeAsDict(c.realtimeSettings))
    ensures r.fields[AnalysisSection].Obj? && r.fields[AnalysisSection].fields.Keys == AnalysisFields
  {
    Obj(map[
      FftSection := Obj(map["variable_group" := c.fftInitialView.variableGroup,
                            "show_fit_line" := c.fftInitialView.showFitLine]),
      RealtimeSection := Obj(RealtimeAsDict(c.realtimeSettings)),
      AnalysisSection := Obj(map["UPDATE_INTERVAL_MS" := c.analysisParameters.updateIntervalMs,
                                 "SLIDING_WINDOW_SECONDS" := c.analysisParameters.slidingWindowSeconds])])
  }

  /** What `save_config` writes, `load_config` reads back as the same configuration. */
  lemma FromDictAsDict(c: AppConfig)
    ensures FromDict(AsDict(c)) == Success(c)
  {
  }

  /** A section missing from the data comes out as that section's defaults. */
  lemma MissingSectionIsDefault(data: map<string, Value>)
    requires FromDict(Obj(data)).Success?
    ensures FftSection !in data ==> FromDict(Obj(data)).value.fftInitialView == DefaultAppConfig().fftInitialView
    ensures RealtimeSection !in data ==> FromDict(Obj(data)).value.realtimeSettings == DefaultAppConfig().realtimeSettings
    ensures AnalysisSection !in data ==> FromDict(Obj(data)).value.analysisParameters == DefaultAppConfig().analysisParameters
  {
  }

  /** The JSON file at `config_file`, as `json.load` would see it. */
  datatype ConfigFile =
    | Missing
    | Unreadable            // JSONDecodeError or IOError on reading
    | Holds(data: Value)

  class ConfigManager {
    var config: AppConfig
    var file: ConfigFile

    /** `__init__`: `self.config = self.load_config()`. */
    constructor (file: ConfigFile, writeOk: bool)
      requires file.Holds? ==> FromDict(file.data).Success?
      ensures file.Missing? ==> config == DefaultAppConfig() && this.file == (if writeOk then Holds(AsDict(config)) else Missing)
      ensures file.Unreadable? ==> config == DefaultAppConfig() && this.file == file
      ensures file.Holds? ==> Success(config) == FromDict(file.data) && this.file == file
    {
      this.file := file;
      config := DefaultAppConfig();
      new;
      var r := LoadConfig(writeOk);
      config := r.value;
    }

    /** `save_config(c)`: the in-memory configuration is replaced before the write is tried, so
        it changes even if the write fails (`writeOk` is false for an IOError). */
    method SaveConfig(c: AppConfig, writeOk: bool)
      modifies this
      ensures config == c
      ensures file == if writeOk then Holds(AsDict(c)) else old(file)
    {
      config := c;
      if writeOk {
        file := Holds(AsDict(c));
      }
    }

    /** `load_config()`. A missing file yields the defaults, which are also saved; an unreadable
        one yields fresh defaults and leaves `config` alone; a readable one is parsed with
        `from_dict` and becomes `config`. A `Failure` is an exception `load_config` lets escape. */
    method LoadConfig(writeOk: bool) returns (r: Result<AppConfig, ConfigError>)
      modifies this
      ensures old(file).Missing? ==>
        r == Success(DefaultAppConfig()) && config == DefaultAppConfig()
        && file == (if writeOk then Holds(AsDict(DefaultAppConfig())) else Missing)
      ensures old(file).Unreadable? ==>
        r == Success(DefaultAppConfig()) && config == old(config) && file == old(file)
      ensures old(file).Holds? ==>
        r == FromDict(old(file).data) && file == old(file)
        && config == (if r.Success? then r.value else old(config))
    {
      match file
      case Missing =>
        var defaults := DefaultAppConfig();
        SaveConfig(defaults, writeOk);
        r := Success(defaults);
      case Unreadable =>
        r := Success(DefaultAppConfig());
      case Holds(data) =>
        r := FromDict(data);
        if r.Success? {
          config := r.value;
        }
    }
  }

  /** Saving a configuration and loading it again gives back that configuration. */
  method SaveThenLoad(m: ConfigManager, c: AppConfig) returns (r: Result<AppConfig, ConfigError>)
    modifies m
    ensures r == Success(c) && m.config == c
  {
    m.SaveConfig(c, true);
    FromDictAsDict(c);
    r := m.LoadConfig(true);
  }
}
