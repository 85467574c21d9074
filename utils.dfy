/**
 * The shared application state and the persisted settings of app/utils.py.
 *
 * `state` is the process-wide dictionary every tab reads; the settings file
 * is modelled by the map it holds, `None` while the file does not exist.
 */
module Utils {
  import opened Wrappers

  /** A value held in `state` or in the settings file. */
  datatype Value =
    | Null
    | Bool(b: bool)
    | Int(i: int)
    | Float(x: real)  // a Python float; the model only copies it
    | Text(s: string)

  /** Python truthiness, as used by `if value:`. */
  predicate Truthy(v: Value) {
    match v
    case Null => false
    case Bool(b) => b
    case Int(i) => i != 0
    case Float(x) => x != 0.0
    case Text(s) => s != ""
  }

  type Dict = map<string, Value>

  const ApiKey := "api_key"
  const ModelKey := "model"
  const Temperature := "temperature"
  const AllFileContents := "all_file_contents"

  /** The `state` dictionary as the module creates it when first imported. */
  const InitialState: Dict :=
    map[ApiKey := Text(""), ModelKey := Text(""), Temperature := Int(0), AllFileContents := Text("")]

  /** `d.get(key, default)`. */
  function Get(d: Dict, key: string, default: Value): Value {
    if key in d then d[key] else default
  }

  /**
   * The dictionary after the three assignments of `set_model_settings_to_state`:
   * the three model keys take the given values and every other entry is kept.
   */
  function WithModelSettings(st: Dict, apiKey: Value, model: Value, temperature: Value): (r: Dict)
    ensures r.Keys == st.Keys + {ApiKey, ModelKey, Temperature}
    ensures r[ApiKey] == apiKey && r[ModelKey] == model && r[Temperature] == temperature
    ensures forall k :: k in st && k != ApiKey && k != ModelKey && k != Temperature ==> r[k] == st[k]
  {
    st[ApiKey := apiKey][ModelKey := model][Temperature := temperature]
  }

  /** The model settings `init_state` takes from the stored settings, with their defaults. */
  datatype ModelSettings = ModelSettings(apiKey: Value, model: Value, temperature: Value)

  /**
   * What `init_state` reads: each of the three keys is copied when stored,
   * otherwise `""`, `""` and `0` stand in.
   */
  function StoredModelSettings(settings: Dict): (r: ModelSettings)
    ensures r.apiKey == (if ApiKey in settings then settings[ApiKey] else Text(""))
    ensures r.model == (if ModelKey in settings then settings[ModelKey] else Text(""))
    ensures r.temperature == (if Temperature in settings then settings[Temperature] else Int(0))
  {
    ModelSettings(Get(settings, ApiKey, Text("")), Get(settings, ModelKey, Text("")), Get(settings, Temperature, Int(0)))
  }

  /** The map the settings file holds once `_ensure_settings` has run: the old one, or `{}`. */
  function Ensured(file: Option<Dict>): Dict {
    file.GetOr(map[])
  }

  /**
   * `stored.update(data)`: keys of `data` take its values, keys only in `stored`
   * keep theirs, and no key is dropped.
   */
  function Merge(stored: Dict, data: Dict): (r: Dict)
    ensures r.Keys == stored.Keys + data.Keys
    ensures forall k :: k in data ==> r[k] == data[k]
    ensures forall k :: k in stored && k !in data ==> r[k] == stored[k]
  {
    stored + data
  }

  /** Saving the same data twice leaves the same stored map as saving it once. */
  lemma SaveSettingsIdempotent(file: Option<Dict>, data: Dict)
    ensures Merge(Ensured(Some(Merge(Ensured(file), data))), data) == Merge(Ensured(file), data)
  {
  }

  /** On a store with no settings file, reading yields the empty map. */
  lemma FreshStoreReadsEmpty()
    ensures Ensured(None) == map[]
    ensures StoredModelSettings(Ensured(None)) == ModelSettings(Text(""), Text(""), Int(0))
  {
  }

  /** The global `state` dictionary and the settings file on disk. */
  class Store {
    /** The process-wide `state` dictionary. */
    var state: Dict
    /** Contents of the settings file; `None` while the file does not exist. */
    var settingsFile: Option<Dict>

    /** Import of the module: `state` gets its four initial entries; `file` is what is on disk. */
    constructor (file: Option<Dict>)
      ensures state == InitialState
      ensures settingsFile == file
    {
      state := InitialState;
      settingsFile := file;
    }

    /** `set_model_settings_to_state`: the three model keys are overwritten, nothing else changes. */
    method SetModelSettingsToState(apiKey: Value, model: Value, temperature: Value)
      modifies this`state
      ensures state == WithModelSettings(old(state), apiKey, model, temperature)
    {
      state := state[ApiKey := apiKey];
      state := state[ModelKey := model];
      state := state[Temperature := temperature];
    }

    /** `_ensure_settings`: creates an empty settings map when there is none, else changes nothing. */
    method EnsureSettings()
      modifies this`settingsFile
      ensures old(settingsFile).None? ==> settingsFile == Some(map[])
      ensures old(settingsFile).Some? ==> settingsFile == old(settingsFile)
    {
      if settingsFile.None? {
        settingsFile := Some(map[]);
      }
    }

    /** `read_settings`: the stored map, the empty one when there was no file (which it creates). */
    method ReadSettings() returns (settings: Dict)
      modifies this`settingsFile
      ensures settings == Ensured(old(settingsFile))
      ensures settingsFile == Some(settings)
    {
      EnsureSettings();
      settings := settingsFile.value;
    }

    /** `save_settings`: read, override with `data`, write back. */
    method SaveSettings(data: Dict)
      modifies this`settingsFile
      ensures settingsFile == Some(Merge(Ensured(old(settingsFile)), data))
    {
      var oldSetting := ReadSettings();
      oldSetting := oldSetting + data;
      settingsFile := Some(oldSetting);
    }

    /** `init_state`: copy the stored model settings (or their defaults) into `state`. */
    method InitState()
      modifies this
      ensures settingsFile == Some(Ensured(old(settingsFile)))
      ensures var m := StoredModelSettings(Ensured(old(settingsFile)));
        state == WithModelSettings(old(state), m.apiKey, m.model, m.temperature)
    {
      var settings := ReadSettings();
      SetModelSettingsToState(Get(settings, ApiKey, Text("")), Get(settings, ModelKey, Text("")), Get(settings, Temperature, Int(0)));
    }
  }
}
