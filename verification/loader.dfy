/**
 * Loading the payload-mapping file named by CONTROL_THE_PAYLOAD_CONFIG_PATH.
 * The file system and the JSON parser are a parameter: `files` maps each
 * readable path to its parsed contents; a path missing from it stands for a
 * file that does not exist, cannot be read or is not JSON.
 */
module MappingConfigLoader {
  import opened Wrappers
  import opened Json
  import SettingsResolver
  import opened PayloadMapping

  datatype LoadError =
    | FileUnavailable(path: string)
    | InvalidMappingFile(path: string, errors: seq<ValidationError>)

  /**
   * `load_control_the_payload_config`: no configuration (None) when the path
   * is unset or empty, since the path is tested for truthiness; otherwise the
   * file's entries, all validated, or a failure naming the file.
   */
  function LoadControlThePayloadConfig(settings: SettingsResolver.Settings, files: map<string, Json>)
    : (r: Result<Option<seq<ControlThePayloadConfig>>, LoadError>)
    ensures r == Success(None) <==>
      settings.controlThePayloadConfigPath == None || settings.controlThePayloadConfigPath == Some("")
    ensures r.Success? && r.value.Some? ==>
      && var path := settings.controlThePayloadConfigPath.value;
      && path in files && files[path].JArray?
      && |r.value.value| == |files[path].items|
      && forall k | 0 <= k < |files[path].items| :: ValidateEntry(files[path].items[k]) == Success(r.value.value[k])
    ensures r.Failure? ==>
      && settings.controlThePayloadConfigPath.Some?
      && var path := settings.controlThePayloadConfigPath.value;
      && path != ""
      && r.error.path == path
      && (r.error == FileUnavailable(path) <==> path !in files)
      && (r.error.InvalidMappingFile? ==>
            r.error.path == path && path in files && ValidateConfigList(files[path]) == Failure(r.error.errors))
    ensures settings.controlThePayloadConfigPath.Some? ==>
      && var path := settings.controlThePayloadConfigPath.value;
      && (path != "" && path in files ==> (r.Success? <==> ValidateConfigList(files[path]).Success?))
  {
    match settings.controlThePayloadConfigPath
    case None => Success(None)
    case Some(path) =>
      if path == "" then Success(None)
      else if path !in files then Failure(FileUnavailable(path))
      else match ValidateConfigList(files[path])
        case Success(entries) => Success(Some(entries))
        case Failure(errors) => Failure(InvalidMappingFile(path, errors))
  }

  /** A file holding an encoded list loads back as exactly that list. */
  lemma LoadEncodedFile(settings: SettingsResolver.Settings, files: map<string, Json>,
                        cs: seq<ControlThePayloadConfig>)
    requires settings.controlThePayloadConfigPath.Some?
    requires settings.controlThePayloadConfigPath.value != ""
    requires settings.controlThePayloadConfigPath.value in files
    requires files[settings.controlThePayloadConfigPath.value] == EncodeConfigList(cs)
    ensures LoadControlThePayloadConfig(settings, files) == Success(Some(cs))
  {
    ConfigListRoundTrip(cs);
  }

  /** An empty array enables the feature with no rules, which is not the same as no configuration. */
  lemma EmptyFileIsNotNoConfiguration(settings: SettingsResolver.Settings, files: map<string, Json>)
    requires settings.controlThePayloadConfigPath.Some?
    requires settings.controlThePayloadConfigPath.value != ""
    requires settings.controlThePayloadConfigPath.value in files
    requires files[settings.controlThePayloadConfigPath.value] == JArray([])
    ensures LoadControlThePayloadConfig(settings, files) == Success(Some([]))
    ensures LoadControlThePayloadConfig(settings, files) != Success(None)
  {
  }

  /** `[{"mapping": {"method": "POST", "url": "https://x"}}]` loads as one POST mapping, enabled by default. */
  lemma LoadPostExample(settings: SettingsResolver.Settings, files: map<string, Json>)
    requires settings.controlThePayloadConfigPath.Some?
    requires settings.controlThePayloadConfigPath.value != ""
    requires settings.controlThePayloadConfigPath.value in files
    requires files[settings.controlThePayloadConfigPath.value]
      == JArray([JObject(map["mapping" := JObject(map["method" := JString("POST"), "url" := JString("https://x")])])])
    ensures LoadControlThePayloadConfig(settings, files)
      == Success(Some([ControlThePayloadConfig(Mapping(Literal(true), Some(POST), Some("https://x"), None, None, None))]))
  {
    var m := map["method" := JString("POST"), "url" := JString("https://x")];
    assert Lookup(m, "enabled") == None;
    assert Lookup(m, "body") == None;
    assert Lookup(m, "headers") == None;
    assert Lookup(m, "query") == None;
    var expected := Mapping(Literal(true), Some(POST), Some("https://x"), None, None, None);
    assert ValidateMapping(JObject(m)) == Success(expected);
    var entry := JObject(map["mapping" := JObject(m)]);
    assert ValidateEntry(entry) == Success(ControlThePayloadConfig(expected));
    var r := ValidateConfigList(JArray([entry]));
    assert r.Success? && |r.value| == 1;
    assert ValidateEntry(entry) == Success(r.value[0]);
    assert r.value == [ControlThePayloadConfig(expected)];
  }

  /** A method outside the enumeration ("PATCH") in any entry makes the whole file fail. */
  lemma LoadPatchRejected(settings: SettingsResolver.Settings, files: map<string, Json>,
                          before: seq<Json>, after: seq<Json>)
    requires settings.controlThePayloadConfigPath.Some?
    requires settings.controlThePayloadConfigPath.value != ""
    requires settings.controlThePayloadConfigPath.value in files
    requires files[settings.controlThePayloadConfigPath.value]
      == JArray(before + [JObject(map["mapping" := JObject(map["method" := JString("PATCH")])])] + after)
    ensures LoadControlThePayloadConfig(settings, files).Failure?
    ensures LoadControlThePayloadConfig(settings, files).error.InvalidMappingFile?
  {
    var items := files[settings.controlThePayloadConfigPath.value].items;
    assert !ValidateEntry(items[|before|]).Success?;
  }
}
