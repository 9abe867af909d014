/** The launcher's configuration wrapper (`RetroConfig`, src/cfg.cpp): one
    option group "main" with four typed options, kept in memory and
    persisted to a backing file, with two self-healing path options. */
module Config {
  import opened Wrappers

  /** A C/C++ `int`. */
  type Int32 = x: int | -0x8000_0000 <= x < 0x8000_0000

  /** The toolkit's four-float rectangle (left, top, width, height). The
      launcher never computes with it here, so it stays an opaque value. */
  datatype FloatRect = FloatRect(left: real, top: real, width: real, height: real)

  /** The four options of group "main" as held in memory. */
  datatype Options = Options(dataPath: string, lastPath: string, screenSize: FloatRect, inputDelay: Int32)

  /** What a well-formed backing file holds: each of the four keys may be
      present or missing. */
  datatype StoredFile = StoredFile(
    dataPath: Option<string>,
    lastPath: Option<string>,
    screenSize: Option<FloatRect>,
    inputDelay: Option<Int32>)

  const DefaultScreenSize := FloatRect(0.0, 0.0, 640.0, 480.0)
  const DefaultInputDelay: Int32 := 200

  /** The defaults registered in the constructor: the io's data and home
      paths, a 640x480 screen at the origin and a 200 ms input delay. */
  function Defaults(dataPath: string, homePath: string): (o: Options)
    ensures o.dataPath == dataPath && o.lastPath == homePath
    ensures o.screenSize == FloatRect(0.0, 0.0, 640.0, 480.0) && o.inputDelay == 200
  {
    Options(dataPath, homePath, DefaultScreenSize, DefaultInputDelay)
  }

  /** `load()` on a well-formed file: every key the file holds overwrites the
      registered value, every missing key keeps it. */
  function Load(registered: Options, f: StoredFile): Options
  {
    Options(
      f.dataPath.GetOr(registered.dataPath),
      f.lastPath.GetOr(registered.lastPath),
      f.screenSize.GetOr(registered.screenSize),
      f.inputDelay.GetOr(registered.inputDelay))
  }

  /** One key after a successful `load()`: the file's value when the file
      holds the key, the registered value when it does not. */
  predicate KeyLoaded<T(==)>(stored: Option<T>, registered: T, got: T)
  {
    (stored.Some? ==> got == stored.value) && (stored.None? ==> got == registered)
  }

  /** The options after `load()`; a missing or malformed file (`None`)
      leaves the registered values in place. */
  function Loaded(registered: Options, file: Option<StoredFile>): (o: Options)
    ensures file.None? ==> o == registered
    ensures file.Some? ==>
      && KeyLoaded(file.value.dataPath, registered.dataPath, o.dataPath)
      && KeyLoaded(file.value.lastPath, registered.lastPath, o.lastPath)
      && KeyLoaded(file.value.screenSize, registered.screenSize, o.screenSize)
      && KeyLoaded(file.value.inputDelay, registered.inputDelay, o.inputDelay)
  {
    match file
    case None => registered
    case Some(f) => Load(registered, f)
  }

  /** What `save()` writes. Loading it back yields exactly the saved options,
      whatever the registered defaults of the store that loads it. */
  function Snapshot(o: Options): (f: StoredFile)
    ensures forall registered :: Load(registered, f) == o
  {
    StoredFile(Some(o.dataPath), Some(o.lastPath), Some(o.screenSize), Some(o.inputDelay))
  }

  /** The filesystem collaborator (`RetroIo`): the data path it hands out
      (which `setDataPath` replaces), the home path, and the set of paths for
      which `exist` holds at the moment. */
  class RetroIo {
    var dataPath: string
    const homePath: string
    var existing: set<string>

    constructor (dataPath: string, homePath: string, existing: set<string>)
      ensures this.dataPath == dataPath && this.homePath == homePath && this.existing == existing
    {
      this.dataPath := dataPath;
      this.homePath := homePath;
      this.existing := existing;
    }

    method SetDataPath(path: string)
      modifies this`dataPath
      ensures dataPath == path
    {
      dataPath := path;
    }
  }

  class RetroConfig {
    const io: RetroIo
    /** The option values in memory. */
    var options: Options
    /** The backing file: `None` when it is absent or malformed. */
    var file: Option<StoredFile>
    /** How many times `save()` has run. */
    var saves: nat

    /** After construction the backing file always exists and is well-formed. */
    ghost predicate Valid()
      reads this
    {
      file.Some?
    }

    /** Registers group "main" with its defaults, loads the backing file
        (saving at once when that fails), then resolves the data path through
        `GetDataPath` and hands it to the io. */
    constructor (io: RetroIo, file: Option<StoredFile>)
      modifies io
      ensures this.io == io && Valid()
      ensures io.existing == old(io.existing)
      ensures var loaded := Loaded(Defaults(old(io.dataPath), io.homePath), file);
              var healed := loaded.dataPath !in io.existing;
              && options == (if healed then loaded.(dataPath := old(io.dataPath)) else loaded)
              && io.dataPath == options.dataPath
              && this.file == (if file.None? || healed then Some(Snapshot(options)) else file)
              && saves == (if file.None? then 1 else 0) + (if healed then 1 else 0)
    {
      this.io := io;
      options := Loaded(Defaults(io.dataPath, io.homePath), file);
      this.file := file;
      saves := 0;
      new;
      if file.None? {
        Save();
      }
      var dataPath := GetDataPath();
      io.SetDataPath(dataPath);
    }

    /** `save()`: write every option to the backing file. */
    method Save()
      modifies this`file, this`saves
      ensures file == Some(Snapshot(options)) && saves == old(saves) + 1
    {
      file := Some(Snapshot(options));
      saves := saves + 1;
    }

    /** The data path, replaced by the io's data path (and persisted) when the
        stored one does not exist. */
    method GetDataPath() returns (path: string)
      requires Valid()
      modifies this`options, this`file, this`saves
      ensures Valid()
      ensures path in io.existing || path == io.dataPath
      ensures old(options.dataPath) in io.existing ==>
        path == old(options.dataPath) && options == old(options) && file == old(file) && saves == old(saves)
      ensures old(options.dataPath) !in io.existing ==>
        && path == io.dataPath
        && options == old(options).(dataPath := io.dataPath)
        && file == Some(Snapshot(options)) && saves == old(saves) + 1
    {
      path := options.dataPath;
      if path !in io.existing {
        path := io.dataPath;
        options := options.(dataPath := path);
        Save();
      }
    }

    /** The last browsed directory, replaced by the io's home path (and
        persisted) when the stored one does not exist. */
    method GetLastPath() returns (path: string)
      requires Valid()
      modifies this`options, this`file, this`saves
      ensures Valid()
      ensures path in io.existing || path == io.homePath
      ensures old(options.lastPath) in io.existing ==>
        path == old(options.lastPath) && options == old(options) && file == old(file) && saves == old(saves)
      ensures old(options.lastPath) !in io.existing ==>
        && path == io.homePath
        && options == old(options).(lastPath := io.homePath)
        && file == Some(Snapshot(options)) && saves == old(saves) + 1
    {
      path := options.lastPath;
      if path !in io.existing {
        path := io.homePath;
        options := options.(lastPath := path);
        Save();
      }
    }

    /** Stores and persists `path` as the last browsed directory, but only
        when it exists. */
    method SetLastPath(path: string)
      requires Valid()
      modifies this`options, this`file, this`saves
      ensures Valid()
      ensures path in io.existing ==>
        options == old(options).(lastPath := path) && file == Some(Snapshot(options)) && saves == old(saves) + 1
      ensures path !in io.existing ==>
        options == old(options) && file == old(file) && saves == old(saves)
    {
      if path in io.existing {
        options := options.(lastPath := path);
        Save();
      }
    }

    method GetScreenSize() returns (rect: FloatRect)
      ensures rect == options.screenSize
    {
      rect := options.screenSize;
    }

    method SetScreenSize(rect: FloatRect)
      requires Valid()
      modifies this`options, this`file, this`saves
      ensures Valid()
      ensures options == old(options).(screenSize := rect)
      ensures file == Some(Snapshot(options)) && saves == old(saves) + 1
    {
      options := options.(screenSize := rect);
      Save();
    }

    method GetInputDelay() returns (ms: Int32)
      ensures ms == options.inputDelay
    {
      ms := options.inputDelay;
    }

    method SetInputDelay(ms: Int32)
      requires Valid()
      modifies this`options, this`file, this`saves
      ensures Valid()
      ensures options == old(options).(inputDelay := ms)
      ensures file == Some(Snapshot(options)) && saves == old(saves) + 1
    {
      options := options.(inputDelay := ms);
      Save();
    }
  }
}
