/**
 * `ConfigurationManager` (branch 1-1): loads a comma-separated list of property files, in order,
 * into one store, and answers lookups. The file system is a parameter: a map from the paths that
 * `new FileInputStream` can open to what `Properties.load` makes of each file.
 */
module Configuration {
  import opened Wrappers
  import opened JavaLang
  import opened Errors
  import opened Utilities

  const DEFAULT_FILES := "redmine-connector.properties"
  const NO_FILES := "No configuration file has been mentioned while loading the properties"
  const LOAD_PROBLEM := "Problem while loading config file"
  const NOT_INITIALIZED := "Please first initialize the Configuration Manager."
  const CREATE_PROBLEM := "Problem occured while loading the Redmine Connector property file. file[rc.properties]"

  /** What `Properties.load` makes of an opened file: its key/value pairs, or an `IOException`
      raised part-way through, after the pairs of the lines before it were already stored. */
  datatype FileContent =
    | Readable(properties: map<string, string>)
    | Unreadable(partial: map<string, string>, ioMessage: string)

  /** The path of the class loader's root resource URL: an absolute path, so never empty. */
  type UrlPath = s: string | |s| > 0 witness "/"

  /** The files `new FileInputStream(path)` opens, and the class loader's root, when it has one. */
  datatype FileSystem = FileSystem(files: map<string, FileContent>, classpathRoot: Option<UrlPath>)

  function NotFound(configFileName: string): string
  {
    "Configuraiton file has not been found. configFile[" + configFileName + "]"
  }

  /** `loadConfigurationFile`: the name as given, then the class loader's root path with the name
      appended and its first character dropped; a file found under neither is
      `RESOURCE_NOT_FOUND`. It never yields null. */
  function LoadConfigurationFile(fs: FileSystem, configFileName: string): (r: Result<FileContent, Exception>)
  {
    if configFileName in fs.files then Success(fs.files[configFileName])
    else if fs.classpathRoot.Some? && (fs.classpathRoot.value + configFileName)[1..] in fs.files then
      Success(fs.files[(fs.classpathRoot.value + configFileName)[1..]])
    else Failure(RC(RESOURCE_NOT_FOUND, Some(NotFound(configFileName)), None))
  }

  /** The manager's state: the property store and the `initialized` flag. */
  datatype Store = Store(properties: map<string, string>, initialized: bool)

  /** One iteration of the loading loop: open the file, set `initialized`, then load the file
      into the store, later keys replacing earlier ones; a file that fails to read leaves the
      pairs read before the failure in the store. */
  function LoadOne(s: Store, fs: FileSystem, name: string): (Store, Outcome<Exception>)
  {
    match LoadConfigurationFile(fs, name)
    case Failure(e) => (s, Fail(e))
    case Success(Readable(p)) => (Store(s.properties + p, true), Pass)
    case Success(Unreadable(p, m)) =>
      (Store(s.properties + p, true), Fail(RC(IO_ERROR, Some(LOAD_PROBLEM), Some(IO(m)))))
  }

  /** The loading loop over `names`, stopping at the first exception. */
  function LoadAll(s: Store, fs: FileSystem, names: seq<string>): (Store, Outcome<Exception>)
  {
    if names == [] then (s, Pass)
    else
      var (t, o) := LoadAll(s, fs, names[..|names| - 1]);
      if o.Fail? then (t, o) else LoadOne(t, fs, names[|names| - 1])
  }

  /** `ensurePropertiesLoaded`: the file list is tokenized on commas (a null list reads `null`);
      a list with no names is `ILLEGAL_ARGUMENT`. */
  function EnsureLoaded(s: Store, fs: FileSystem, configFilesInfo: Option<string>): (Store, Outcome<Exception>)
  {
    var names := Tokens(StringText(configFilesInfo), ",");
    if names == [] then (s, Fail(RC(ILLEGAL_ARGUMENT, Some(NO_FILES), None)))
    else LoadAll(s, fs, names)
  }

  function NoProperty(propertyName: string): string
  {
    "No Property has been found for given name. propertyName[" + propertyName + "]"
  }

  /** `getPropertyValueInternal`: with `assertExist`, an uninitialized manager is an
      `IllegalStateException`; then a null name makes `Hashtable.containsKey` throw; then, with
      `assertExist`, a missing key is an `IllegalStateException`; otherwise the stored value, or
      null. */
  function PropertyValue(s: Store, propertyName: Option<string>, assertExist: bool): (r: Result<Option<string>, Exception>)
  {
    if !s.initialized && assertExist then Failure(IllegalState(NOT_INITIALIZED, None))
    else if propertyName.None? then Failure(NullPointer)
    else if propertyName.value !in s.properties && assertExist then
      Failure(IllegalState(NoProperty(propertyName.value), None))
    else Success(if propertyName.value in s.properties then Some(s.properties[propertyName.value]) else None)
  }

  class ConfigurationManager {
    var properties: map<string, string>
    var initialized: bool

    function State(): Store
      reads this
    {
      Store(properties, initialized)
    }

    /** The field initializers: an empty store, not initialized. */
    constructor Empty()
      ensures properties == map[] && !initialized
    {
      properties := map[];
      initialized := false;
    }

    /** The private constructor: loads the default file; an `RCException` becomes an
        `IllegalStateException` wrapping it. */
    static method Create(fs: FileSystem) returns (r: Result<ConfigurationManager, Exception>)
      ensures r.Success? ==> fresh(r.value)
      ensures r.Success? <==> EnsureLoaded(Store(map[], false), fs, Some(DEFAULT_FILES)).1.Pass?
      ensures r.Success? ==> r.value.State() == EnsureLoaded(Store(map[], false), fs, Some(DEFAULT_FILES)).0
      ensures r.Failure? ==>
        r.error == IllegalState(CREATE_PROBLEM, Some(EnsureLoaded(Store(map[], false), fs, Some(DEFAULT_FILES)).1.error))
    {
      var manager := new ConfigurationManager.Empty();
      var outcome := manager.EnsurePropertiesLoaded(fs, Some(DEFAULT_FILES));
      if outcome.Fail? {
        return Failure(IllegalState(CREATE_PROBLEM, Some(outcome.error)));
      }
      r := Success(manager);
    }

    /** `ensurePropertiesLoaded`. Every exception it can raise is an `RCException`. */
    method EnsurePropertiesLoaded(fs: FileSystem, configFilesInfo: Option<string>) returns (r: Outcome<Exception>)
      modifies this
      ensures (State(), r) == EnsureLoaded(old(State()), fs, configFilesInfo)
    {
      var configFileNames := StringText(configFilesInfo);
      var fileNamesEntries := GetTokenizedString(configFileNames, ",");
      if fileNamesEntries.None? {
        return Fail(RC(ILLEGAL_ARGUMENT, Some(NO_FILES), None));
      }
      var names := fileNamesEntries.value;
      ghost var start := State();
      var i := 0;
      while i < |names|
        invariant 0 <= i <= |names|
        invariant LoadAll(start, fs, names[..i]) == (State(), Pass)
      {
        Step(start, fs, names, i);
        var loaded := LoadConfigurationFile(fs, names[i]);
        if loaded.Failure? {
          r := Fail(loaded.error);
          StopsAt(start, fs, names, i);
          return;
        }
        initialized := true;
        if loaded.value.Unreadable? {
          properties := properties + loaded.value.partial;
          r := Fail(RC(IO_ERROR, Some(LOAD_PROBLEM), Some(IO(loaded.value.ioMessage))));
          StopsAt(start, fs, names, i);
          return;
        }
        properties := properties + loaded.value.properties;
        i := i + 1;
      }
      assert names[..i] == names;
      r := Pass;
    }

    /** `containsProperty`. */
    function ContainsProperty(propertyName: Option<string>): (r: Result<bool, Exception>)
      reads this
    {
      var v :- PropertyValue(State(), propertyName, false);
      Success(v.Some?)
    }

    /** `getPropertyValue`. */
    function GetPropertyValue(propertyName: Option<string>): (r: Result<Option<string>, Exception>)
      reads this
    {
      PropertyValue(State(), propertyName, true)
    }
  }

  /** What a file adds to the store when it loads: its pairs, or nothing. */
  function FileProperties(fs: FileSystem, name: string): map<string, string>
  {
    var loaded := LoadConfigurationFile(fs, name);
    if loaded.Success? && loaded.value.Readable? then loaded.value.properties else map[]
  }

  /** The files' pairs merged in list order, a later file's value replacing an earlier one's. */
  function Merged(fs: FileSystem, names: seq<string>): map<string, string>
  {
    if names == [] then map[] else Merged(fs, names[..|names| - 1]) + FileProperties(fs, names[|names| - 1])
  }

  predicate Loads(fs: FileSystem, name: string)
  {
    LoadConfigurationFile(fs, name).Success? && LoadConfigurationFile(fs, name).value.Readable?
  }

  /** Loading succeeds exactly when every file opens and reads; it then adds the merged pairs to
      the store, and leaves the store initialized once any file has loaded. */
  lemma {:induction false} LoadAllMeaning(s: Store, fs: FileSystem, names: seq<string>)
    ensures LoadAll(s, fs, names).1.Pass? <==> forall k :: 0 <= k < |names| ==> Loads(fs, names[k])
    ensures LoadAll(s, fs, names).1.Pass? ==>
      LoadAll(s, fs, names).0 == Store(s.properties + Merged(fs, names), s.initialized || names != [])
  {
    if names != [] {
      var init := names[..|names| - 1];
      LoadAllMeaning(s, fs, init);
      assert forall k :: 0 <= k < |init| ==> init[k] == names[k];
      var last := names[|names| - 1];
      if LoadAll(s, fs, init).1.Pass? && Loads(fs, last) {
        assert LoadAll(s, fs, names).0.properties == s.properties + Merged(fs, init) + FileProperties(fs, last);
        MapUnionAssoc(s.properties, Merged(fs, init), FileProperties(fs, last));
      }
    }
  }

  lemma MapUnionAssoc(a: map<string, string>, b: map<string, string>, c: map<string, string>)
    ensures a + b + c == a + (b + c)
  {
  }

  /** A key is in the merged pairs exactly when some file holds it, and its value is the one from
      the last file that holds it. */
  lemma {:induction false} LastFileWins(fs: FileSystem, names: seq<string>, key: string, j: nat)
    requires j < |names| && key in FileProperties(fs, names[j])
    requires forall i :: j < i < |names| ==> key !in FileProperties(fs, names[i])
    ensures key in Merged(fs, names) && Merged(fs, names)[key] == FileProperties(fs, names[j])[key]
  {
    var init := names[..|names| - 1];
    if j < |names| - 1 {
      assert forall i :: j < i < |init| ==> init[i] == names[i];
      LastFileWins(fs, init, key, j);
    }
  }

  /** A key no file holds is not in the merged pairs. */
  lemma {:induction false} MergedKeys(fs: FileSystem, names: seq<string>, key: string)
    requires forall i :: 0 <= i < |names| ==> key !in FileProperties(fs, names[i])
    ensures key !in Merged(fs, names)
  {
    if names != [] {
      var init := names[..|names| - 1];
      assert forall i :: 0 <= i < |init| ==> init[i] == names[i];
      MergedKeys(fs, init, key);
    }
  }

  /** The loop stops at the first file that fails: appending more names changes nothing. */
  lemma {:induction false} LoadAllStops(s: Store, fs: FileSystem, names: seq<string>, more: seq<string>)
    requires LoadAll(s, fs, names).1.Fail?
    ensures LoadAll(s, fs, names + more) == LoadAll(s, fs, names)
  {
    if more == [] {
      assert names + more == names;
    } else {
      var init := more[..|more| - 1];
      assert (names + more)[..|names + more| - 1] == names + init;
      LoadAllStops(s, fs, names, init);
    }
  }

  /** One more turn of the loading loop. */
  lemma Step(s: Store, fs: FileSystem, names: seq<string>, i: nat)
    requires i < |names| && LoadAll(s, fs, names[..i]).1.Pass?
    ensures LoadAll(s, fs, names[..i + 1]) == LoadOne(LoadAll(s, fs, names[..i]).0, fs, names[i])
  {
    assert names[..i + 1][..i] == names[..i];
  }

  /** Failing at the `i`-th name is failing on the whole list. */
  lemma StopsAt(s: Store, fs: FileSystem, names: seq<string>, i: nat)
    requires i < |names| && LoadAll(s, fs, names[..i + 1]).1.Fail?
    ensures LoadAll(s, fs, names) == LoadAll(s, fs, names[..i + 1])
  {
    LoadAllStops(s, fs, names[..i + 1], names[i + 1..]);
    assert names[..i + 1] + names[i + 1..] == names;
  }

  /** A missing file is `RESOURCE_NOT_FOUND` naming the file, and no file after it is loaded. */
  lemma MissingFileStops(s: Store, fs: FileSystem, names: seq<string>, missing: string, more: seq<string>)
    requires LoadAll(s, fs, names).1.Pass?
    requires LoadConfigurationFile(fs, missing).Failure?
    ensures LoadAll(s, fs, names + [missing] + more).1
            == Fail(RC(RESOURCE_NOT_FOUND, Some(NotFound(missing)), None))
  {
    assert (names + [missing])[..|names|] == names;
    LoadAllStops(s, fs, names + [missing], more);
  }

  /** A file whose reading fails part-way is `IO_ERROR`: the store keeps the pairs of the files
      before it and those read from it before the failure, and no file after it is loaded. */
  lemma UnreadableFileStops(s: Store, fs: FileSystem, names: seq<string>, bad: string, more: seq<string>)
    requires LoadAll(s, fs, names).1.Pass?
    requires LoadConfigurationFile(fs, bad).Success? && LoadConfigurationFile(fs, bad).value.Unreadable?
    ensures LoadAll(s, fs, names + [bad] + more) ==
            (Store(s.properties + Merged(fs, names) + LoadConfigurationFile(fs, bad).value.partial, true),
             Fail(RC(IO_ERROR, Some(LOAD_PROBLEM), Some(IO(LoadConfigurationFile(fs, bad).value.ioMessage)))))
  {
    LoadAllMeaning(s, fs, names);
    assert (names + [bad])[..|names|] == names;
    LoadAllStops(s, fs, names + [bad], more);
  }

  /** A file list made of commas only (the empty list included) is `ILLEGAL_ARGUMENT`, and the
      store is left as it was. */
  lemma CommasOnlyRejected(s: Store, fs: FileSystem, configFilesInfo: string)
    requires forall k :: 0 <= k < |configFilesInfo| ==> configFilesInfo[k] == ','
    ensures EnsureLoaded(s, fs, Some(configFilesInfo)) == (s, Fail(RC(ILLEGAL_ARGUMENT, Some(NO_FILES), None)))
  {
    TokensEmptyIff(configFilesInfo, ",");
  }

  /** `getPropertyValue`: not initialized, then a null name, then a missing key are exceptions
      (`IllegalStateException`, `NullPointerException`, `IllegalStateException`); otherwise the
      stored value, which is never null. */
  lemma GetPropertyValueMeaning(m: ConfigurationManager, propertyName: Option<string>)
    ensures !m.initialized ==> m.GetPropertyValue(propertyName) == Failure(IllegalState(NOT_INITIALIZED, None))
    ensures m.initialized && propertyName.None? ==> m.GetPropertyValue(propertyName) == Failure(NullPointer)
    ensures m.initialized && propertyName.Some? && propertyName.value !in m.properties ==>
              m.GetPropertyValue(propertyName) == Failure(IllegalState(NoProperty(propertyName.value), None))
    ensures m.GetPropertyValue(propertyName).Success? <==>
              m.initialized && propertyName.Some? && propertyName.value in m.properties
    ensures m.GetPropertyValue(propertyName).Success? ==>
              m.GetPropertyValue(propertyName).value == Some(m.properties[propertyName.value])
  {
  }

  /** `containsProperty` throws only for a null name, loaded or not, and otherwise holds exactly
      when a value is stored; once loaded it agrees with `getPropertyValue`. */
  lemma ContainsPropertyIff(m: ConfigurationManager, propertyName: Option<string>)
    ensures m.ContainsProperty(propertyName).Failure? <==> propertyName.None?
    ensures propertyName.None? ==> m.ContainsProperty(propertyName) == Failure(NullPointer)
    ensures m.ContainsProperty(propertyName).Success? ==>
              (m.ContainsProperty(propertyName).value <==> propertyName.value in m.properties)
    ensures m.initialized && propertyName.Some? ==>
              (m.ContainsProperty(propertyName).value <==> m.GetPropertyValue(propertyName).Success?)
  {
  }
}
