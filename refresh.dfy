/**
 * The staleness daemon of the core module: a thread that, once per interval,
 * stats the source file of every untainted class, taints the stale ones,
 * flags their engine for a full recompile and refreshes the stored
 * modification time. The thread and its sleep are not modelled; `ScanPass`
 * is one iteration of the `while (running)` loop and `Run` a finite number
 * of them.
 */
module Refresh {
  import opened Wrappers
  import opened Metadata

  /** Adding `k` to the keys already scanned adds the engine of `k` to the dirty set exactly when the pass taints `k`. */
  lemma DirtyEnginesStep(m: ClassMap, done: set<string>, k: string, mtime: ModTimes)
    requires k in m
    ensures DirtyEngines(m, done + {k}, mtime) ==
              DirtyEngines(m, done, mtime) + (if BecomesTainted(m[k], mtime) then {m[k].scriptingEngine} else {})
  {
  }

  /** Marking one more engine dirty. */
  lemma MarkDirtyStep(engines: RecompileMap, dirty: set<int>, e: int)
    ensures MarkDirty(engines, dirty)[e := true] == MarkDirty(engines, dirty + {e})
  {
  }

  /**
   * The state of a pass over `m0` that still has to visit `todo`: the records
   * are partly scanned and the engines of the visited records that were
   * tainted are marked dirty.
   */
  ghost predicate PassInvariant(m0: ClassMap, engines0: RecompileMap, mtime: ModTimes,
                                todo: set<string>, m: ClassMap, engines: RecompileMap)
  {
    && PartlyScanned(m0, mtime, todo, m)
    && engines == MarkDirty(engines0, DirtyEngines(m0, m0.Keys - todo, mtime))
  }

  /** Visiting one more key keeps the pass invariant. */
  lemma PassStep(m0: ClassMap, engines0: RecompileMap, mtime: ModTimes,
                 todo: set<string>, m: ClassMap, engines: RecompileMap, k: string)
    requires PassInvariant(m0, engines0, mtime, todo, m, engines) && k in todo
    ensures PassInvariant(m0, engines0, mtime, todo - {k}, m[k := ScanRecord(m[k], mtime)],
                          if BecomesTainted(m[k], mtime) then engines[m[k].scriptingEngine := true] else engines)
  {
    PartlyScannedStep(m0, mtime, todo, m, k);
    DirtyEnginesStep(m0, m0.Keys - todo, k, mtime);
    assert m0.Keys - (todo - {k}) == (m0.Keys - todo) + {k};
    if BecomesTainted(m[k], mtime) {
      MarkDirtyStep(engines0, DirtyEngines(m0, m0.Keys - todo, mtime), m[k].scriptingEngine);
    }
  }

  /** A pass with nothing left to visit has produced `Scan` and `ScanEngines`. */
  lemma PassComplete(m0: ClassMap, engines0: RecompileMap, mtime: ModTimes, m: ClassMap, engines: RecompileMap)
    requires PassInvariant(m0, engines0, mtime, {}, m, engines)
    ensures m == Scan(m0, mtime) && engines == ScanEngines(m0, engines0, mtime)
  {
    PartlyScannedComplete(m0, mtime, m);
    assert m0.Keys - {} == m0.Keys;
  }

  /** A pass over an empty `classMap` leaves the engine flags alone. */
  lemma EmptyScanKeepsEngines(m: ClassMap, engines: RecompileMap, mtime: ModTimes)
    requires |m| == 0
    ensures ScanEngines(m, engines, mtime) == engines
  {
    assert MarkDirty(engines, {}) == engines;
  }

  class FileChangedDaemon {
    var classMap: Option<ClassMap>
    var systemRecompileMap: RecompileMap
    var running: bool
    /** `setDaemon(true)` was called. */
    var daemon: bool
    /** `Thread.start()` was called. */
    var started: bool

    constructor ()
      ensures classMap == Some(map[]) && systemRecompileMap == map[]
      ensures !running && !daemon && !started
    {
      classMap := Some(map[]);
      systemRecompileMap := map[];
      running := false;
      daemon := false;
      started := false;
    }

    method SetRunning(running: bool)
      modifies this`running
      ensures this.running == running
    {
      this.running := running;
    }

    /** `setClassMap`: any map, or `null` (`None`), which stops passes from touching anything. */
    method SetClassMap(classMap: Option<ClassMap>)
      modifies this`classMap
      ensures this.classMap == classMap
    {
      this.classMap := classMap;
    }

    method SetSystemRecompileMap(systemRecompileMap: RecompileMap)
      modifies this`systemRecompileMap
      ensures this.systemRecompileMap == systemRecompileMap
    {
      this.systemRecompileMap := systemRecompileMap;
    }

    /** One iteration of the `run()` loop, after the sleep. */
    method ScanPass(mtime: ModTimes)
      modifies this`classMap, this`systemRecompileMap
      ensures old(classMap).None? ==> classMap == None && systemRecompileMap == old(systemRecompileMap)
      ensures old(classMap).Some? ==>
                && classMap == Some(Scan(old(classMap).value, mtime))
                && systemRecompileMap == ScanEngines(old(classMap).value, old(systemRecompileMap), mtime)
    {
      if classMap.None? || |classMap.value| == 0 {
        if classMap.Some? {
          EmptyScanIsNoop(classMap.value, mtime);
          EmptyScanKeepsEngines(classMap.value, systemRecompileMap, mtime);
        }
        return;
      }
      ghost var engines0 := systemRecompileMap;
      var m0 := classMap.value;
      var m := m0;
      var todo := m0.Keys;
      assert m0.Keys - todo == {};
      assert MarkDirty(engines0, {}) == engines0;
      while todo != {}
        invariant PassInvariant(m0, engines0, mtime, todo, m, systemRecompileMap)
        decreases todo
      {
        var k :| k in todo;
        ghost var mBefore, enginesBefore := m, systemRecompileMap;
        var r := m[k];
        if !r.tainted {
          var observed := mtime(SourceFile(r));
          r := r.(tainted := observed != r.timestamp);
          if r.tainted {
            systemRecompileMap := systemRecompileMap[r.scriptingEngine := true];
            r := r.(taintedOnce := true);
          }
          r := r.(timestamp := observed);
          m := m[k := r];
        }
        assert mBefore[k := ScanRecord(mBefore[k], mtime)] == m;
        PassStep(m0, engines0, mtime, todo, mBefore, enginesBefore, k);
        todo := todo - {k};
      }
      PassComplete(m0, engines0, mtime, m, systemRecompileMap);
      classMap := Some(m);
    }

    /**
     * The `while (running)` loop for as many intervals as `observations` has
     * elements; `running` is not changed by the loop itself.
     */
    method Run(observations: seq<ModTimes>)
      modifies this`classMap, this`systemRecompileMap
      ensures !running || old(classMap).None? ==>
                classMap == old(classMap) && systemRecompileMap == old(systemRecompileMap)
      ensures running && old(classMap).Some? ==>
                && classMap == Some(ScanMany(old(classMap).value, observations))
                && systemRecompileMap == EnginesMany(old(classMap).value, old(systemRecompileMap), observations)
    {
      var i := 0;
      while running && i < |observations|
        invariant 0 <= i <= |observations|
        invariant !running ==> i == 0
        invariant old(classMap).None? ==> classMap == None && systemRecompileMap == old(systemRecompileMap)
        invariant old(classMap).Some? ==>
                    && classMap == Some(ScanMany(old(classMap).value, observations[..i]))
                    && systemRecompileMap == EnginesMany(old(classMap).value, old(systemRecompileMap), observations[..i])
      {
        assert observations[..i + 1][..i] == observations[..i];
        ScanPass(observations[i]);
        i := i + 1;
      }
      assert running ==> observations[..i] == observations;
    }
  }

  /** The static `FileChangedDaemon.instance`. */
  class DaemonSingleton {
    var instance: FileChangedDaemon?

    constructor ()
      ensures instance == null
    {
      instance := null;
    }

    /** `getInstance()`: creates, marks running and starts the daemon on the first call only. */
    method GetInstance() returns (d: FileChangedDaemon)
      modifies this
      ensures instance == d
      ensures old(instance) != null ==> d == old(instance)
      ensures old(instance) == null ==>
                && fresh(d) && d.running && d.daemon && d.started
                && d.classMap == Some(map[]) && d.systemRecompileMap == map[]
    {
      if instance == null {
        var created := new FileChangedDaemon();
        created.daemon := true;
        created.SetRunning(true);
        created.started := true;
        instance := created;
      }
      d := instance;
    }
  }
}
