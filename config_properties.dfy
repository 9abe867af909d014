/** Properties of `RetroConfig` that span several calls, written as client
    methods whose contracts follow from the class's specifications alone. */
module ConfigProperties {
  import opened Wrappers
  import opened Config

  /** First run: with no usable backing file, construction leaves every
      option at its default and writes the defaults out. */
  method FirstRun(io: RetroIo) returns (c: RetroConfig)
    modifies io
    ensures c.Valid() && c.io == io
    ensures c.options == Defaults(old(io.dataPath), io.homePath)
    ensures c.file == Some(Snapshot(c.options))
    ensures io.dataPath == old(io.dataPath)
  {
    c := new RetroConfig(io, None);
  }

  /** A stored last path that exists is read back unchanged, and a fresh
      store loading the backing file sees it too. */
  method LastPathRoundTrip(c: RetroConfig, path: string, registered: Options) returns (got: string)
    requires c.Valid() && path in c.io.existing
    modifies c
    ensures got == path
    ensures Loaded(registered, c.file).lastPath == path
  {
    c.SetLastPath(path);
    got := c.GetLastPath();
  }

  /** A path that does not exist is refused: memory, backing file and save
      count all stay as they were. */
  method RejectedLastPath(c: RetroConfig, path: string)
    requires c.Valid() && path !in c.io.existing
    modifies c
    ensures c.file == old(c.file) && c.saves == old(c.saves)
    ensures c.options.lastPath == old(c.options.lastPath)
  {
    c.SetLastPath(path);
  }

  /** Once a stale data path has been replaced by an existing fallback, the
      correction is on disk and reading the path again neither changes it
      nor saves. */
  method HealedDataPathIsStable(c: RetroConfig, registered: Options) returns (first: string, second: string)
    requires c.Valid() && c.io.dataPath in c.io.existing
    modifies c
    ensures first == second && first in c.io.existing
    ensures old(c.options.dataPath) !in c.io.existing ==>
      Loaded(registered, c.file).dataPath == first && c.saves == old(c.saves) + 1
    ensures old(c.options.dataPath) in c.io.existing ==> c.saves == old(c.saves)
  {
    first := c.GetDataPath();
    second := c.GetDataPath();
  }

  /** Setting the screen rectangle and reading it back gives the same
      rectangle; no other option moves and the change is on disk. */
  method ScreenSizeRoundTrip(c: RetroConfig, rect: FloatRect, registered: Options) returns (got: FloatRect)
    requires c.Valid()
    modifies c
    ensures got == rect
    ensures c.options == old(c.options).(screenSize := rect)
    ensures Loaded(registered, c.file) == c.options
  {
    c.SetScreenSize(rect);
    got := c.GetScreenSize();
  }

  /** Setting the input delay and reading it back gives the same value; no
      other option moves and the change is on disk. */
  method InputDelayRoundTrip(c: RetroConfig, ms: Int32, registered: Options) returns (got: Int32)
    requires c.Valid()
    modifies c
    ensures got == ms
    ensures c.options == old(c.options).(inputDelay := ms)
    ensures Loaded(registered, c.file) == c.options
  {
    c.SetInputDelay(ms);
    got := c.GetInputDelay();
  }
}
