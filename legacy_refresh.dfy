/**
 * The older staleness daemon of the scripting core: the same scan as
 * `Refresh`, over a synchronized map, without the per-engine dirty flags.
 * `ScanPass` is one iteration of the `while (running)` loop.
 */
module LegacyRefresh {
  import opened Wrappers
  import opened Metadata

  class FileChangedDaemon {
    var classMap: Option<ClassMap>
    var running: bool
    /** `setDaemon(true)` was called. */
    var daemon: bool
    /** `Thread.start()` was called. */
    var started: bool

    constructor ()
      ensures classMap == Some(map[])
      ensures !running && !daemon && !started
    {
      classMap := Some(map[]);
      running := false;
      daemon := false;
      started := false;
    }

    method SetRunning(running: bool)
      modifies this`running
      ensures this.running == running
    {
      this.running := running;
    }

    /** `setClassMap`: any map, or `null` (`None`), which stops passes from touching anything. */
    method SetClassMap(classMap: Option<ClassMap>)
      modifies this`classMap
      ensures this.classMap == classMap
    {
      this.classMap := classMap;
    }

    /** One iteration of the `run()` loop, after the sleep. */
    method ScanPass(mtime: ModTimes)
      modifies this`classMap
      ensures old(classMap).None? ==> classMap == None
      ensures old(classMap).Some? ==> classMap == Some(Scan(old(classMap).value, mtime))
    {
      if classMap.None? || |classMap.value| == 0 {
        if classMap.Some? {
          EmptyScanIsNoop(classMap.value, mtime);
        }
        return;
      }
      var m0 := classMap.value;
      var m := m0;
      var todo := m0.Keys;
      while todo != {}
        invariant PartlyScanned(m0, mtime, todo, m)
        decreases todo
      {
        var k :| k in todo;
        ghost var mBefore := m;
        var r := m[k];
        if !r.tainted {
          var observed := mtime(SourceFile(r));
          r := r.(tainted := observed != r.timestamp);
          if r.tainted {
            r := r.(taintedOnce := true);
          }
          r := r.(timestamp := observed);
          m := m[k := r];
        }
        assert mBefore[k := ScanRecord(mBefore[k], mtime)] == m;
        PartlyScannedStep(m0, mtime, todo, mBefore, k);
        todo := todo - {k};
      }
      PartlyScannedComplete(m0, mtime, m);
      classMap := Some(m);
    }

    /**
     * The `while (running)` loop for as many intervals as `observations` has
     * elements; `running` is not changed by the loop itself.
     */
    method Run(observations: seq<ModTimes>)
      modifies this`classMap
      ensures !running || old(classMap).None? ==> classMap == old(classMap)
      ensures running && old(classMap).Some? ==> classMap == Some(ScanMany(old(classMap).value, observations))
    {
      var i := 0;
      while running && i < |observations|
        invariant 0 <= i <= |observations|
        invariant !running ==> i == 0
        invariant old(classMap).None? ==> classMap == None
        invariant old(classMap).Some? ==> classMap == Some(ScanMany(old(classMap).value, observations[..i]))
      {
        assert observations[..i + 1][..i] == observations[..i];
        ScanPass(observations[i]);
        i := i + 1;
      }
      assert running ==> observations[..i] == observations;
    }
  }

  /** The static `FileChangedDaemon.instance`. */
  class DaemonSingleton {
    var instance: FileChangedDaemon?

    constructor ()
      ensures instance == null
    {
      instance := null;
    }

    /** `getInstance()`: creates, marks running and starts the daemon on the first call only. */
    method GetInstance() returns (d: FileChangedDaemon)
      modifies this
      ensures instance == d
      ensures old(instance) != null ==> d == old(instance)
      ensures old(instance) == null ==>
                fresh(d) && d.running && d.daemon && d.started && d.classMap == Some(map[])
    {
      if instance == null {
        var created := new FileChangedDaemon();
        created.daemon := true;
        created.SetRunning(true);
        created.started := true;
        instance := created;
      }
      d := instance;
    }
  }
}
