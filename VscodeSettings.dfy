/**
  `update_vscode_settings` of setup_vscode.py: the parsed
  `.vscode/settings.json` is a map from keys to JSON values; six keys are
  overwritten and every other key is kept.
*/
module VscodeSettings {
  import opened Wrappers

  /** A parsed JSON value; numbers are kept as their literal text. */
  datatype Json =
    | JNull
    | JBool(b: bool)
    | JNumber(literal: string)
    | JString(s: string)
    | JArray(items: seq<Json>)
    | JObject(members: map<string, Json>)

  /** What reading `.vscode/settings.json` yields. */
  datatype SettingsFile =
    | Missing                 // the file does not exist yet
    | Corrupt                 // `json.load` raised `JSONDecodeError`
    | Loaded(content: Json)   // the parsed document

  /**
    The settings file holds valid JSON that is not an object: the first key
    assignment raises `TypeError`, which nothing catches.
  */
  datatype SettingsError = NotAnObject

  const InterpreterKey: string := "python.defaultInterpreterPath"
  const AnalysisExtraPathsKey: string := "python.analysis.extraPaths"
  const AutoCompleteExtraPathsKey: string := "python.autoComplete.extraPaths"
  const TypeCheckingModeKey: string := "python.analysis.typeCheckingMode"
  const DiagnosticModeKey: string := "python.analysis.diagnosticMode"
  const CmakeConfigureOnOpenKey: string := "cmake.configureOnOpen"

  /** The keys the configurator owns. */
  const ManagedKeys: set<string> := {
    InterpreterKey, AnalysisExtraPathsKey, AutoCompleteExtraPathsKey,
    TypeCheckingModeKey, DiagnosticModeKey, CmakeConfigureOnOpenKey
  }

  /** A Python list of strings as a JSON array. */
  function StringArray(xs: seq<string>): (j: Json)
    ensures j.JArray? && |j.items| == |xs|
    ensures forall k :: 0 <= k < |xs| ==> j.items[k] == JString(xs[k])
  {
    JArray(seq(|xs|, k requires 0 <= k < |xs| => JString(xs[k])))
  }

  /** The map the updates start from (lines 150-157): empty unless an object was read. */
  function InitialSettings(file: SettingsFile): (r: Result<map<string, Json>, SettingsError>)
    ensures r.Failure? <==> file.Loaded? && !file.content.JObject?
    ensures file.Loaded? && r.Success? ==> file.content == JObject(r.value)
    ensures !file.Loaded? ==> r == Success(map[])
  {
    match file
    case Missing => Success(map[])
    case Corrupt => Success(map[])
    case Loaded(content) =>
      if content.JObject? then Success(content.members) else Failure(NotAnObject)
  }

  /**
    `result` is `base` with the six managed keys set to the configurator's
    values and every other key of `base` kept with its value.
  */
  predicate SettingsUpdated(base: map<string, Json>, result: map<string, Json>,
                            pythonPaths: seq<string>, interpreterPath: string)
  {
    && result.Keys == base.Keys + ManagedKeys
    && result[InterpreterKey] == JString(interpreterPath)
    && result[AnalysisExtraPathsKey] == StringArray(pythonPaths)
    && result[AutoCompleteExtraPathsKey] == StringArray(pythonPaths)
    && result[TypeCheckingModeKey] == JString("basic")
    && result[DiagnosticModeKey] == JString("openFilesOnly")
    && result[CmakeConfigureOnOpenKey] == JBool(false)
    && forall k :: k in base && k !in ManagedKeys ==> result[k] == base[k]
  }

  /** The whole contract of `update_vscode_settings`, on the settings it would write. */
  predicate SettingsOutcome(file: SettingsFile, pythonPaths: seq<string>, interpreterPath: string,
                            r: Result<map<string, Json>, SettingsError>)
  {
    && (r.Failure? <==> file.Loaded? && !file.content.JObject?)
    && (r.Success? ==> SettingsUpdated(InitialSettings(file).value, r.value, pythonPaths, interpreterPath))
  }

  /**
    `update_vscode_settings`: reads the settings (a missing or corrupt file
    gives the empty map), overwrites the six managed keys and returns what is
    written back.
  */
  method UpdateVscodeSettings(file: SettingsFile, pythonPaths: seq<string>, interpreterPath: string)
    returns (r: Result<map<string, Json>, SettingsError>)
    ensures SettingsOutcome(file, pythonPaths, interpreterPath, r)
    ensures r.Success? && (file.Missing? || file.Corrupt?) ==> r.value.Keys == ManagedKeys
  {
    var settingsData: map<string, Json> := map[];
    if file.Loaded? {
      if !file.content.JObject? {
        return Failure(NotAnObject);
      }
      settingsData := file.content.members;
    }
    settingsData := settingsData[InterpreterKey := JString(interpreterPath)];
    settingsData := settingsData[AnalysisExtraPathsKey := StringArray(pythonPaths)];
    settingsData := settingsData[AutoCompleteExtraPathsKey := StringArray(pythonPaths)];
    settingsData := settingsData[TypeCheckingModeKey := JString("basic")];
    settingsData := settingsData[DiagnosticModeKey := JString("openFilesOnly")];
    settingsData := settingsData[CmakeConfigureOnOpenKey := JBool(false)];
    r := Success(settingsData);
  }

  /** The update leaves nothing to choice: one base gives one result. */
  lemma SettingsUpdatedUnique(base: map<string, Json>, r1: map<string, Json>, r2: map<string, Json>,
                              pythonPaths: seq<string>, interpreterPath: string)
    requires SettingsUpdated(base, r1, pythonPaths, interpreterPath)
    requires SettingsUpdated(base, r2, pythonPaths, interpreterPath)
    ensures r1 == r2
  {
    forall k | k in r1.Keys
      ensures r1[k] == r2[k]
    {
      if k !in ManagedKeys {
        assert k in base;
      }
    }
  }

  /**
    Running the configurator again on the settings it wrote changes nothing:
    the written object, read back, is updated to itself.
  */
  lemma SettingsUpdateIdempotent(file: SettingsFile, pythonPaths: seq<string>, interpreterPath: string,
                                 written: map<string, Json>, rewritten: map<string, Json>)
    requires SettingsOutcome(file, pythonPaths, interpreterPath, Success(written))
    requires SettingsOutcome(Loaded(JObject(written)), pythonPaths, interpreterPath, Success(rewritten))
    ensures rewritten == written
  {
    assert SettingsUpdated(written, written, pythonPaths, interpreterPath);
    SettingsUpdatedUnique(written, rewritten, written, pythonPaths, interpreterPath);
  }
}
