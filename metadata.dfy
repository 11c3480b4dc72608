/**
 * The reload bookkeeping both versions of `FileChangedDaemon` scan: one
 * `ReloadingMetadata` record per dynamically loaded class, and (in the newer
 * daemon) a dirty flag per scripting engine. `Scan` and `ScanEngines` specify
 * one pass of the daemon's loop body; `ScanMany` and `EnginesMany` a run of
 * passes. The lemmas state what passes promise over time.
 */
module Metadata {
  import opened Platform

  /** `new File(path).lastModified()` for every path, as observed during one pass. */
  type ModTimes = string -> int

  /** One tracked class. */
  datatype ReloadingMetadata = ReloadingMetadata(
    sourcePath: string,
    fileName: string,
    timestamp: int,
    tainted: bool,
    taintedOnce: bool,
    scriptingEngine: int)

  /** `classMap`: class name to its metadata. */
  type ClassMap = map<string, ReloadingMetadata>

  /** `systemRecompileMap`: scripting engine id to "needs a full recompile". */
  type RecompileMap = map<int, bool>

  /** The file the daemon stats for a record: source path, separator, file name. */
  function SourceFile(r: ReloadingMetadata): string {
    r.sourcePath + [FileSeparator] + r.fileName
  }

  /** The pass turns this record from untainted to tainted. */
  predicate BecomesTainted(r: ReloadingMetadata, mtime: ModTimes) {
    !r.tainted && mtime(SourceFile(r)) != r.timestamp
  }

  /** Two records describe the same artifact: only timestamp and flags may differ. */
  predicate SameArtifact(r: ReloadingMetadata, s: ReloadingMetadata) {
    r.sourcePath == s.sourcePath && r.fileName == s.fileName && r.scriptingEngine == s.scriptingEngine
  }

  /** The loop body of `run()` applied to one record. */
  function ScanRecord(r: ReloadingMetadata, mtime: ModTimes): ReloadingMetadata {
    if r.tainted then r
    else
      var observed := mtime(SourceFile(r));
      var changed := observed != r.timestamp;
      r.(tainted := changed, taintedOnce := r.taintedOnce || changed, timestamp := observed)
  }

  /** One pass over `classMap`. */
  function Scan(m: ClassMap, mtime: ModTimes): (m': ClassMap)
    ensures m'.Keys == m.Keys
    ensures forall k :: k in m && m[k].tainted ==> m'[k] == m[k]
    ensures forall k :: k in m && !m[k].tainted ==>
              && m'[k].tainted == (mtime(SourceFile(m[k])) != m[k].timestamp)
              && m'[k].timestamp == mtime(SourceFile(m[k]))
    ensures forall k :: k in m ==> (m'[k].taintedOnce <==> m[k].taintedOnce || BecomesTainted(m[k], mtime))
    ensures forall k :: k in m ==> SameArtifact(m[k], m'[k])
  {
    map k | k in m :: ScanRecord(m[k], mtime)
  }

  /** The engines of the records among `keys` that the pass taints. */
  function DirtyEngines(m: ClassMap, keys: set<string>, mtime: ModTimes): set<int> {
    set k | k in keys && k in m && BecomesTainted(m[k], mtime) :: m[k].scriptingEngine
  }

  /** `systemRecompileMap.put(e, TRUE)` for every `e` in `dirty`. */
  function MarkDirty(engines: RecompileMap, dirty: set<int>): RecompileMap {
    map e | e in engines.Keys + dirty :: if e in dirty then true else engines[e]
  }

  /** `systemRecompileMap` after one pass over `m`. */
  function ScanEngines(m: ClassMap, engines: RecompileMap, mtime: ModTimes): (e': RecompileMap)
    ensures engines.Keys <= e'.Keys
    ensures forall k :: k in m && BecomesTainted(m[k], mtime) ==>
              m[k].scriptingEngine in e' && e'[m[k].scriptingEngine]
    ensures forall e :: e in engines && engines[e] ==> e'[e]
    ensures forall e :: e in e' && !e'[e] ==> e in engines && !engines[e]
    ensures forall e :: e in e' && (e !in engines || e'[e] != engines[e]) ==>
              exists k :: k in m && BecomesTainted(m[k], mtime) && m[k].scriptingEngine == e
  {
    MarkDirty(engines, DirtyEngines(m, m.Keys, mtime))
  }

  /** `classMap` after one pass per element of `observations`, oldest first. */
  function ScanMany(m: ClassMap, observations: seq<ModTimes>): (m': ClassMap)
    ensures m'.Keys == m.Keys
    decreases |observations|
  {
    if observations == [] then m
    else Scan(ScanMany(m, observations[..|observations| - 1]), observations[|observations| - 1])
  }

  /** `systemRecompileMap` after the same run of passes. */
  function EnginesMany(m: ClassMap, engines: RecompileMap, observations: seq<ModTimes>): RecompileMap
    decreases |observations|
  {
    if observations == [] then engines
    else
      var before := observations[..|observations| - 1];
      ScanEngines(ScanMany(m, before), EnginesMany(m, engines, before), observations[|observations| - 1])
  }

  // ---------------------------------------------------------------------------
  // The loop of one pass

  /**
   * A pass over `m0` that still has to visit `todo`: the visited records are
   * scanned, the others untouched, and no key is added or removed.
   */
  ghost predicate PartlyScanned(m0: ClassMap, mtime: ModTimes, todo: set<string>, m: ClassMap) {
    && todo <= m0.Keys && m.Keys == m0.Keys
    && (forall k :: k in todo ==> m[k] == m0[k])
    && (forall k :: k in m0 && k !in todo ==> m[k] == ScanRecord(m0[k], mtime))
  }

  /** Visiting one more key. */
  lemma PartlyScannedStep(m0: ClassMap, mtime: ModTimes, todo: set<string>, m: ClassMap, k: string)
    requires PartlyScanned(m0, mtime, todo, m) && k in todo
    ensures PartlyScanned(m0, mtime, todo - {k}, m[k := ScanRecord(m[k], mtime)])
  {
  }

  /** Nothing left to visit: the pass has produced `Scan`. */
  lemma PartlyScannedComplete(m0: ClassMap, mtime: ModTimes, m: ClassMap)
    requires PartlyScanned(m0, mtime, {}, m)
    ensures m == Scan(m0, mtime)
  {
  }

  /** A pass over an empty `classMap` changes nothing (the early `continue`). */
  lemma EmptyScanIsNoop(m: ClassMap, mtime: ModTimes)
    requires |m| == 0
    ensures Scan(m, mtime) == m
  {
  }

  // ---------------------------------------------------------------------------
  // Properties of runs of passes

  /** `taintedOnce` is never reset by any number of passes. */
  lemma {:induction false} TaintedOnceIsSticky(m: ClassMap, observations: seq<ModTimes>, k: string)
    requires k in m && m[k].taintedOnce
    ensures k in ScanMany(m, observations) && ScanMany(m, observations)[k].taintedOnce
    decreases |observations|
  {
    if observations != [] {
      TaintedOnceIsSticky(m, observations[..|observations| - 1], k);
    }
  }

  /** A tainted record is left entirely alone by every later pass. */
  lemma {:induction false} TaintedRecordIsFrozen(m: ClassMap, observations: seq<ModTimes>, k: string)
    requires k in m && m[k].tainted
    ensures ScanMany(m, observations)[k] == m[k]
    decreases |observations|
  {
    if observations != [] {
      TaintedRecordIsFrozen(m, observations[..|observations| - 1], k);
    }
  }

  /** A file whose modification time stays at the stored timestamp is never tainted, and its record never changes. */
  lemma {:induction false} UnchangedFileStaysClean(m: ClassMap, observations: seq<ModTimes>, k: string)
    requires k in m && !m[k].tainted
    requires forall i :: 0 <= i < |observations| ==> observations[i](SourceFile(m[k])) == m[k].timestamp
    ensures ScanMany(m, observations)[k] == m[k]
    decreases |observations|
  {
    if observations != [] {
      var before := observations[..|observations| - 1];
      UnchangedFileStaysClean(m, before, k);
    }
  }

  /** An engine flag that is TRUE stays TRUE, and a FALSE flag is never written by a run of passes. */
  lemma {:induction false} EngineFlagsOnlyGrow(m: ClassMap, engines: RecompileMap, observations: seq<ModTimes>)
    ensures engines.Keys <= EnginesMany(m, engines, observations).Keys
    ensures forall e :: e in engines && engines[e] ==> EnginesMany(m, engines, observations)[e]
    ensures forall e :: e in EnginesMany(m, engines, observations) && !EnginesMany(m, engines, observations)[e] ==>
              e in engines && !engines[e]
    decreases |observations|
  {
    if observations != [] {
      EngineFlagsOnlyGrow(m, engines, observations[..|observations| - 1]);
    }
  }

  /** After a pass no record is stale with respect to the same observations. */
  lemma NothingStaleAfterScan(m: ClassMap, mtime: ModTimes)
    ensures forall k :: k in Scan(m, mtime) ==> !BecomesTainted(Scan(m, mtime)[k], mtime)
  {
    var m' := Scan(m, mtime);
    forall k | k in m'
      ensures !BecomesTainted(m'[k], mtime)
    {
      assert SameArtifact(m[k], m'[k]);
      assert SourceFile(m'[k]) == SourceFile(m[k]);
    }
  }

  /** Refreshing the timestamp makes a second pass over the same observations a no-op: a file is flagged once per change. */
  lemma ScanIsIdempotent(m: ClassMap, engines: RecompileMap, mtime: ModTimes)
    ensures Scan(Scan(m, mtime), mtime) == Scan(m, mtime)
    ensures ScanEngines(Scan(m, mtime), ScanEngines(m, engines, mtime), mtime) == ScanEngines(m, engines, mtime)
  {
    var m' := Scan(m, mtime);
    NothingStaleAfterScan(m, mtime);
    forall k | k in m'
      ensures Scan(m', mtime)[k] == m'[k]
    {
      assert !BecomesTainted(m'[k], mtime);
    }
    assert DirtyEngines(m', m'.Keys, mtime) == {};
    var e' := ScanEngines(m, engines, mtime);
    assert MarkDirty(e', {}) == e';
  }

  // ---------------------------------------------------------------------------
  // The loop body as written reads the modification time twice

  /**
   * The loop body of `run()` exactly as written: `lastModified()` is read
   * once for the comparison (`compared`) and once more for the new timestamp
   * (`refreshed`). `ScanRecord` is the loop body with a single read.
   */
  function ScanRecordAsWritten(r: ReloadingMetadata, compared: ModTimes, refreshed: ModTimes): (r': ReloadingMetadata)
    ensures r.tainted ==> r' == r
    ensures !r.tainted ==> r'.timestamp == refreshed(SourceFile(r))
                           && (r'.tainted <==> compared(SourceFile(r)) != r.timestamp)
  {
    if r.tainted then r
    else
      var changed := compared(SourceFile(r)) != r.timestamp;
      r.(tainted := changed, taintedOnce := r.taintedOnce || changed, timestamp := refreshed(SourceFile(r)))
  }

  /** When both reads agree, the loop body as written is the single-read `ScanRecord`. */
  lemma AsWrittenAgreesOnOneRead(r: ReloadingMetadata, mtime: ModTimes)
    ensures ScanRecordAsWritten(r, mtime, mtime) == ScanRecord(r, mtime)
  {
  }

  /**
   * A file written between the two reads: the pass stamps the record with the
   * new time without tainting it, and a later pass over the unchanged file
   * sees nothing to do, so the change is never reloaded.
   */
  lemma WriteBetweenReadsIsLost()
    ensures var r := ReloadingMetadata("/scripts", "Bean.java", 5, false, false, 1);
            var first := ScanRecordAsWritten(r, _ => 5, _ => 7);
            && !first.tainted && !first.taintedOnce && first.timestamp == 7
            && ScanRecordAsWritten(first, _ => 7, _ => 7) == first
  {
  }

  /**
   * With one read per pass, a record that is still untainted after a run of
   * passes saw its file at the stored timestamp in every pass, and kept that
   * timestamp.
   */
  lemma {:induction false} UntaintedMeansUnchanged(m: ClassMap, observations: seq<ModTimes>, k: string)
    requires k in m && !ScanMany(m, observations)[k].tainted
    ensures !m[k].tainted && SameArtifact(m[k], ScanMany(m, observations)[k])
    ensures ScanMany(m, observations)[k].timestamp == m[k].timestamp
    ensures forall i :: 0 <= i < |observations| ==> observations[i](SourceFile(m[k])) == m[k].timestamp
    decreases |observations|
  {
    if observations != [] {
      var before := observations[..|observations| - 1];
      var last := observations[|observations| - 1];
      var mid := ScanMany(m, before);
      assert ScanMany(m, observations)[k] == ScanRecord(mid[k], last);
      UntaintedMeansUnchanged(m, before, k);
      assert SourceFile(mid[k]) == SourceFile(m[k]);
      forall i | 0 <= i < |observations|
        ensures observations[i](SourceFile(m[k])) == m[k].timestamp
      {
        if i < |before| {
          assert observations[i] == before[i];
        }
      }
    }
  }

  /** A modification time that differs from the stored one in any pass taints the record for good. */
  lemma ObservedChangeIsNeverLost(m: ClassMap, observations: seq<ModTimes>, k: string, i: nat)
    requires k in m && !m[k].tainted
    requires i < |observations| && observations[i](SourceFile(m[k])) != m[k].timestamp
    ensures ScanMany(m, observations)[k].tainted
  {
    if !ScanMany(m, observations)[k].tainted {
      UntaintedMeansUnchanged(m, observations, k);
    }
  }
}
