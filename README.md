# Reload engine of MyFaces extension scripting, in Dafny

MyFaces extension scripting lets a JSF application change Java (and Groovy)
source code under a running server. This project models the parts of its
reload engine that decide *when* something is reloaded and *what* is
handed out afterwards:

- **The staleness daemon** (`FileChangedDaemon`, in its older and newer form).
  Once per interval it looks at every class it tracks that is not already
  tainted. It compares the source file's modification time with the stored
  timestamp, taints the record when they differ (setting the sticky
  `taintedOnce`), and, in the newer form, flags the record's scripting engine
  for a full recompile. It always refreshes the stored timestamp.
  `getInstance` creates and starts the daemon once.
- **The JSR 199 compiler facade** (`CompilerFacade`):
  - the class name a source path compiles to, and the class file a class
    name is looked up at;
  - the resolution order of `RecompiledJavaClassloader.loadClass`;
  - the error report built from javac's diagnostics;
  - the swap and restore of the thread's context class loader;
  - the one-time choice of a fresh temporary output directory.
- **The weaving render kit** (`RenderkitProxy`). It rebinds its delegate
  through the weaver before every operation except `getDelegate`. It reloads
  a renderer, response writer or response stream at most once per request,
  remembering this in request attributes. `addRenderer` records which
  component family each renderer class serves.
- **The weaving resource handler** (`ResourceHandlerProxy`). It rebinds its
  delegate before every call except the two queries, `isResourceRequest`
  and `libraryExists`.
- **The `@FacesComponent` listener** (`ComponentImplementationListener`). It
  registers component classes with the application, and on purge rebinds
  the component type to the `PurgedComponent` placeholder.

Java's objects whose fields are updated in place are Dafny classes: the
daemons, the facade, the proxies, the listener, the request, the refresh
context and the application. Their methods are proved against specification
functions: `Scan`/`ScanEngines`, `CompileOutcome`, `Reload`, `DelegateAfter`,
`Registered`/`Purged`. The lemmas state what those functions promise.
Anything outside the core is a parameter the model does not look into:
- the file system's `lastModified`;
- javac's diagnostics;
- reading and defining class bytes, and the parent class loader;
- the weaver, `WeavingContext.isDynamic` and `toString`;
- what the delegate render kit or resource handler answers.

Java's `null` is `Option.None` or `Ref.Null`. A thrown exception is a
`Result.Failure` carrying a `JavaThrowable`. The static fields `instance` and
`tempDir` are held by a `DaemonSingleton` and a `CompilationDir` object.

Files:
- `platform.dfy`: the `Wrappers` and `Platform` modules (Java exceptions,
  `File.separator`).
- `metadata.dfy`: reload records and the specification of one scan pass
  and of runs of passes.
- `refresh.dfy`: the newer daemon.
- `legacy_refresh.dfy`: the older daemon.
- `jsr199.dfy`: the compiler facade.
- `weaving.dfy`: the shared weaving types.
- `renderkit_proxy.dfy`, `resource_handler_proxy.dfy`,
  `component_listener.dfy`: the two proxies and the listener.

### Behaviour of the code that may surprise

- A source file that has disappeared is tainted. `File.lastModified()`
  returns 0 for a missing file (FileChangedDaemon.java:108), so the record
  is tainted and stamped 0, unless its stored timestamp was already 0.
- The daemon compares times with `!=` (FileChangedDaemon.java:108), so a
  file whose modification time moves backwards is tainted too
  (`Metadata.Scan`).
- The daemon reads `lastModified()` twice per record, once to compare and
  once for the new timestamp (FileChangedDaemon.java:108 and :114). A save
  between the two reads is never noticed; see "## Findings".
- The facade's diagnostic collector is a field (CompilerFacade.java:42)
  that is never cleared. After one failed compile every later
  `compileFile` on the same facade fails, and its message repeats the old
  diagnostics first (`Jsr199.CollectedDiagnosticsFailLaterCompiles`).
- A diagnostic with no source makes the report loop throw
  `NullPointerException` at CompilerFacade.java:129 instead of the
  `ClassNotFoundException` of line 134. Since the collector keeps it, so
  does every later compile.
- `loadClass` catches `Exception` only (CompilerFacade.java:96). A
  `ClassFormatError` or `NoClassDefFoundError` from `defineClass` passes
  through `loadClass` and `compileFile` unchanged (`Jsr199.LoadClass`).
- `purge` returns nothing. It rebinds the component type to the
  placeholder even when another class has registered that type since
  (ComponentImplementationListener.java:70-72,
  `ComponentRegistration.PurgeRebindsTypeWhoeverOwnsIt`).
- The facade has a single static temporary directory (CompilerFacade.java:44)
  for every compile. It creates one fresh `RecompiledJavaClassloader` per
  compile that reaches `loadClass` (CompilerFacade.java:140): one with no
  diagnostics collected whose context loader is not already a
  `RecompiledJavaClassloader`.

## Model

| member | source | states |
|---|---|---|
| Metadata.Scan | core/core/src/main/java/org/apache/myfaces/scripting/refresh/FileChangedDaemon.java:104-116 | one pass adds and removes no key; a tainted record is untouched; an untainted record becomes tainted exactly when the observed time of `sourcePath/fileName` differs from its timestamp, takes the observed time as its timestamp, and gets `taintedOnce` exactly when it had it or becomes tainted; path, name and engine never change |
| Metadata.ScanEngines | core/core/src/main/java/org/apache/myfaces/scripting/refresh/FileChangedDaemon.java:109-110 | after a pass the engine of every newly tainted record is flagged TRUE; no engine is removed; TRUE stays TRUE; FALSE is never written; an entry changes only when some record of that engine became tainted |
| Metadata.ScanMany | core/core/src/main/java/org/apache/myfaces/scripting/refresh/FileChangedDaemon.java:88-117 | any number of passes keeps the set of tracked classes |
| Metadata.EmptyScanIsNoop | core/core/src/main/java/org/apache/myfaces/scripting/refresh/FileChangedDaemon.java:95-96 | a pass over an empty class map changes nothing |
| Metadata.TaintedOnceIsSticky | core/core/src/main/java/org/apache/myfaces/scripting/refresh/FileChangedDaemon.java:111 | once `taintedOnce` is set, no number of passes resets it |
| Metadata.TaintedRecordIsFrozen | core/core/src/main/java/org/apache/myfaces/scripting/refresh/FileChangedDaemon.java:105 | a tainted record is left entirely alone by every later pass, however its file changes |
| Metadata.UnchangedFileStaysClean | core/core/src/main/java/org/apache/myfaces/scripting/refresh/FileChangedDaemon.java:108-114 | an untainted record whose file keeps the stored time through a run of passes ends exactly as it was: untainted, with the same timestamp |
| Metadata.EngineFlagsOnlyGrow | core/core/src/main/java/org/apache/myfaces/scripting/refresh/FileChangedDaemon.java:110 | over any run of passes no engine is removed, a TRUE engine flag stays TRUE, and every FALSE flag was FALSE at the start |
| Metadata.NothingStaleAfterScan | core/core/src/main/java/org/apache/myfaces/scripting/refresh/FileChangedDaemon.java:114 | because the timestamp is refreshed, no record is stale after a pass with respect to the times that pass observed |
| Metadata.ScanIsIdempotent | core/core/src/main/java/org/apache/myfaces/scripting/refresh/FileChangedDaemon.java:105-114 | a second pass over unchanged files changes neither the records nor the engine flags: a change is flagged once |
| Metadata.ScanRecordAsWritten | core/core/src/main/java/org/apache/myfaces/scripting/refresh/FileChangedDaemon.java:105-115 | the loop body with its two `lastModified()` reads: a tainted record is untouched; an untainted one is tainted exactly when the first read differs from its timestamp, and takes the second read as its timestamp |
| Metadata.AsWrittenAgreesOnOneRead | core/core/src/main/java/org/apache/myfaces/scripting/refresh/FileChangedDaemon.java:108-114 | when both reads return the same time, the loop body as written is the single-read `ScanRecord` |
| Metadata.WriteBetweenReadsIsLost | core/core/src/main/java/org/apache/myfaces/scripting/refresh/FileChangedDaemon.java:108-114 | a record stamped 5 whose file is 5 at the first read and 7 at the second ends untainted, never tainted once, stamped 7; a later pass over the file still at 7 leaves it so: the change is lost |
| Metadata.UntaintedMeansUnchanged | core/core/src/main/java/org/apache/myfaces/scripting/refresh/FileChangedDaemon.java:105-114 | with one read per pass, a record still untainted after any run of passes was untainted at the start, saw its file at the stored time in every pass and kept that time |
| Metadata.ObservedChangeIsNeverLost | core/core/src/main/java/org/apache/myfaces/scripting/refresh/FileChangedDaemon.java:105-114 | with one read per pass, a time that differs from the stored one in any pass of a run leaves the record tainted at the end of the run |
| Refresh.EmptyScanKeepsEngines | core/core/src/main/java/org/apache/myfaces/scripting/refresh/FileChangedDaemon.java:95-96 | a pass over an empty class map leaves the engine flags alone |
| Refresh.FileChangedDaemon.constructor | core/core/src/main/java/org/apache/myfaces/scripting/refresh/FileChangedDaemon.java:54-69 | a new daemon has empty class and engine maps and is not running |
| Refresh.FileChangedDaemon.SetRunning | core/core/src/main/java/org/apache/myfaces/scripting/refresh/FileChangedDaemon.java:135-137 | sets `running` and nothing else |
| Refresh.FileChangedDaemon.SetClassMap | core/core/src/main/java/org/apache/myfaces/scripting/refresh/FileChangedDaemon.java:152-154 | replaces the class map, possibly by null, and nothing else |
| Refresh.FileChangedDaemon.SetSystemRecompileMap | core/core/src/main/java/org/apache/myfaces/scripting/refresh/FileChangedDaemon.java:144-146 | replaces the engine map, a non-null one, and nothing else |
| Refresh.FileChangedDaemon.ScanPass | core/core/src/main/java/org/apache/myfaces/scripting/refresh/FileChangedDaemon.java:95-117 | the loop body, visiting the entries in any order, leaves a null class map and the engine flags alone, and otherwise yields exactly `Scan` and `ScanEngines` of the old state |
| Refresh.FileChangedDaemon.Run | core/core/src/main/java/org/apache/myfaces/scripting/refresh/FileChangedDaemon.java:87-118 | a daemon that is not running changes nothing; a running one performs one pass per interval, ending at `ScanMany` and `EnginesMany` of the observations |
| Refresh.DaemonSingleton.GetInstance | core/core/src/main/java/org/apache/myfaces/scripting/refresh/FileChangedDaemon.java:74-84 | every call returns the stored instance; only the first creates it, as a started daemon thread with `running` set and empty maps |
| LegacyRefresh.FileChangedDaemon.constructor | core/src/main/java/org/apache/myfaces/scripting/refresh/FileChangedDaemon.java:55-56 | a new daemon has an empty class map and is not running |
| LegacyRefresh.FileChangedDaemon.SetRunning | core/src/main/java/org/apache/myfaces/scripting/refresh/FileChangedDaemon.java:106-108 | sets `running` and nothing else |
| LegacyRefresh.FileChangedDaemon.SetClassMap | core/src/main/java/org/apache/myfaces/scripting/refresh/FileChangedDaemon.java:115-117 | replaces the class map, possibly by null, and nothing else |
| LegacyRefresh.FileChangedDaemon.ScanPass | core/src/main/java/org/apache/myfaces/scripting/refresh/FileChangedDaemon.java:82-97 | the loop body, in any order, leaves a null class map alone and otherwise yields exactly `Scan` of the old map, so every `Metadata` lemma applies to this daemon too |
| LegacyRefresh.FileChangedDaemon.Run | core/src/main/java/org/apache/myfaces/scripting/refresh/FileChangedDaemon.java:74-98 | not running: nothing changes; running: one pass per interval, ending at `ScanMany` of the observations |
| LegacyRefresh.DaemonSingleton.GetInstance | core/src/main/java/org/apache/myfaces/scripting/refresh/FileChangedDaemon.java:60-70 | every call returns the stored instance; only the first creates, marks running and starts it |
| Jsr199.Replace | core/src/main/java/org/apache/myfaces/scripting/loaders/java/jsr199/CompilerFacade.java:142 | `replaceAll` of one character: same length, every occurrence replaced, every other character kept |
| Jsr199.LastIndexOf | core/src/main/java/org/apache/myfaces/scripting/loaders/java/jsr199/CompilerFacade.java:143 | -1 exactly when the character is absent, otherwise a position holding it with none after it |
| Jsr199.ClassNameOf | core/src/main/java/org/apache/myfaces/scripting/loaders/java/jsr199/CompilerFacade.java:142-143 | a path with no dot after separator replacement fails with `StringIndexOutOfBoundsException(-1)`; otherwise the name is the dotted path up to its last dot, with no separator left in it |
| Jsr199.ClassFilePath | core/src/main/java/org/apache/myfaces/scripting/loaders/java/jsr199/CompilerFacade.java:82-83 | the lookup path is `tempDir`, one separator, the class name with every dot turned into a separator, and `.class`: its length, prefix and suffix, and each character of the middle, with no dot left there |
| Jsr199.ClassFilePathInvertsClassName | core/src/main/java/org/apache/myfaces/scripting/loaders/java/jsr199/CompilerFacade.java:82-83 | for `/`-separated paths with no dot in the directories or the base name, the class-file lookup inverts the name derivation: `org/foo/Bar.java` gives `org.foo.Bar`, looked up at `tempDir/org/foo/Bar.class` |
| Jsr199.LoadClass | core/src/main/java/org/apache/myfaces/scripting/loaders/java/jsr199/CompilerFacade.java:80-109 | an existing class file under `tempDir` wins, with no fallback to the parent: the class is defined from it exactly when reading and defining succeed; an `Exception` becomes `ClassNotFoundException` with its text; an `Error` such as `ClassFormatError` passes through; without the file the parent's answer is returned |
| Jsr199.NatStringValue | core/src/main/java/org/apache/myfaces/scripting/loaders/java/jsr199/CompilerFacade.java:128 | the decimal digits of a natural number denote that number |
| Jsr199.DecimalString | core/src/main/java/org/apache/myfaces/scripting/loaders/java/jsr199/CompilerFacade.java:128 | a line number is rendered with a minus sign exactly when it is negative, followed by decimal digits, with no leading zero, that denote its magnitude |
| Jsr199.DiagnosticLine | core/src/main/java/org/apache/myfaces/scripting/loaders/java/jsr199/CompilerFacade.java:126-129 | the line for a diagnostic with a source starts with "Error on line" and the message, and ends with the source |
| Jsr199.ConcatAppend | core/src/main/java/org/apache/myfaces/scripting/loaders/java/jsr199/CompilerFacade.java:131 | appending a run of strings to the `StringBuilder` gives the same text as appending the two halves' texts one after the other |
| Jsr199.ReportAppend | core/src/main/java/org/apache/myfaces/scripting/loaders/java/jsr199/CompilerFacade.java:124-133 | the error text of two runs of diagnostics is the two texts concatenated |
| Jsr199.ReportListsEveryDiagnostic | core/src/main/java/org/apache/myfaces/scripting/loaders/java/jsr199/CompilerFacade.java:125-133 | the report is not fail-fast: every diagnostic's line appears, between the lines of the diagnostics before and after it |
| Jsr199.ErrorReport | core/src/main/java/org/apache/myfaces/scripting/loaders/java/jsr199/CompilerFacade.java:124-133 | the report is produced exactly when every diagnostic has a source; otherwise the loop fails with `NullPointerException` |
| Jsr199.BuildErrorReport | core/src/main/java/org/apache/myfaces/scripting/loaders/java/jsr199/CompilerFacade.java:124-133 | the loop yields `ErrorReport`: the lines of all diagnostics in collection order, or `NullPointerException` at the first diagnostic without a source |
| Jsr199.CollectedDiagnosticsFailLaterCompiles | core/src/main/java/org/apache/myfaces/scripting/loaders/java/jsr199/CompilerFacade.java:122-134 | once the never-cleared collector holds a diagnostic, every later compile fails: with "Compile error of java file:" followed by the old diagnostics and then the new ones when all have a source, and with `NullPointerException` otherwise |
| Jsr199.CompileOutcome | core/src/main/java/org/apache/myfaces/scripting/loaders/java/jsr199/CompilerFacade.java:122-150 | with diagnostics collected the compile fails, with `NullPointerException` exactly when one lacks a source and else with the full report; with none under a recompiling context loader the result is null; with none under a host context loader, a path with no dot fails with `StringIndexOutOfBoundsException(-1)`, and otherwise the compile succeeds exactly when `loadClass` does, returning its class or failing with what it threw; a class is returned only on that path |
| Jsr199.CleanCompileLoadsFromTempDir | core/src/main/java/org/apache/myfaces/scripting/loaders/java/jsr199/CompilerFacade.java:137-145 | with no diagnostics and a host context loader, a source path yields the class defined from its class file under `tempDir`, when the file is there and defines |
| Jsr199.ChooseTempDir | core/src/main/java/org/apache/myfaces/scripting/loaders/java/jsr199/CompilerFacade.java:56-63 | the `while (tempDir.exists())` loop settles on a `myfaces_compilation_` candidate that does not exist, the first such among those drawn |
| Jsr199.CompilerFacade.constructor | core/src/main/java/org/apache/myfaces/scripting/loaders/java/jsr199/CompilerFacade.java:47-68 | the static `tempDir` is chosen only by the first facade, as a path that did not exist; later facades leave it unchanged |
| Jsr199.CompilerFacade.CompileFile | core/src/main/java/org/apache/myfaces/scripting/loaders/java/jsr199/CompilerFacade.java:113-151 | the new diagnostics are added to the collector; the result is `CompileOutcome` of everything collected (the full report or `NullPointerException`, null under a recompiling context loader, else the loaded class or what `loadClass` threw, `Error`s included); the context loader is the same afterwards on every path, and the static `tempDir` stays chosen |
| RenderKitDecorator.Reload | core/myfaces12-extensions/src/main/java/org/apache/myfaces/scripting/jsf/dynamicdecorators/implemetations/RenderkitProxy.java:96-105 | null, static and already-marked instances come back unchanged with the request attributes untouched; any other is replaced by the weaver's result, and both the old and the new instance's keys are marked |
| RenderKitDecorator.EachKeyRewovenAtMostOncePerRequest | core/myfaces12-extensions/src/main/java/org/apache/myfaces/scripting/jsf/dynamicdecorators/implemetations/RenderkitProxy.java:100-116 | across any sequence of reloads in one request no key is rewoven twice, nor one already marked when the request began; attributes only grow and every rewoven key is marked |
| RenderKitDecorator.ReloadAgainIsIdentity | core/myfaces12-extensions/src/main/java/org/apache/myfaces/scripting/jsf/dynamicdecorators/implemetations/RenderkitProxy.java:100-102 | reloading the same instance, or the instance that replaced it, again in the same request returns it unchanged |
| RenderKitDecorator.RenderkitProxy.constructor | core/myfaces12-extensions/src/main/java/org/apache/myfaces/scripting/jsf/dynamicdecorators/implemetations/RenderkitProxy.java:47-49 | stores the delegate unchanged |
| RenderKitDecorator.RenderkitProxy.WeaveDelegate | core/myfaces12-extensions/src/main/java/org/apache/myfaces/scripting/jsf/dynamicdecorators/implemetations/RenderkitProxy.java:92-94 | the delegate becomes the weaver's result for it as a render kit |
| RenderKitDecorator.RenderkitProxy.AlreadyWovenInRequest | core/myfaces12-extensions/src/main/java/org/apache/myfaces/scripting/jsf/dynamicdecorators/implemetations/RenderkitProxy.java:108-116 | test-and-set: answers whether the key was marked, and it is marked afterwards |
| RenderKitDecorator.RenderkitProxy.ReloadInstance | core/myfaces12-extensions/src/main/java/org/apache/myfaces/scripting/jsf/dynamicdecorators/implemetations/RenderkitProxy.java:96-105 | returns and leaves in the request exactly what `Reload` specifies |
| RenderKitDecorator.RenderkitProxy.AddRenderer | core/myfaces12-extensions/src/main/java/org/apache/myfaces/scripting/jsf/dynamicdecorators/implemetations/RenderkitProxy.java:52-65 | rebinds the delegate, forwards the possibly reloaded renderer to it, then maps the renderer's class name to the component family; a null renderer is forwarded and then fails with `NullPointerException` before the map is written |
| RenderKitDecorator.RenderkitProxy.GetRenderer | core/myfaces12-extensions/src/main/java/org/apache/myfaces/scripting/jsf/dynamicdecorators/implemetations/RenderkitProxy.java:67-70 | rebinds the delegate, then returns its renderer as `Reload` specifies |
| RenderKitDecorator.RenderkitProxy.GetResponseStateManager | core/myfaces12-extensions/src/main/java/org/apache/myfaces/scripting/jsf/dynamicdecorators/implemetations/RenderkitProxy.java:72-75 | rebinds the delegate and returns its state manager without reloading it |
| RenderKitDecorator.RenderkitProxy.CreateResponseWriter | core/myfaces12-extensions/src/main/java/org/apache/myfaces/scripting/jsf/dynamicdecorators/implemetations/RenderkitProxy.java:77-80 | rebinds the delegate, then returns its writer as `Reload` specifies |
| RenderKitDecorator.RenderkitProxy.CreateResponseStream | core/myfaces12-extensions/src/main/java/org/apache/myfaces/scripting/jsf/dynamicdecorators/implemetations/RenderkitProxy.java:82-85 | rebinds the delegate, then returns its stream as `Reload` specifies |
| RenderKitDecorator.RenderkitProxy.GetDelegate | core/myfaces12-extensions/src/main/java/org/apache/myfaces/scripting/jsf/dynamicdecorators/implemetations/RenderkitProxy.java:87-89 | returns the current delegate without rebinding it |
| ResourceHandlerDecorator.RebindCount | core/myfaces2-extensions/src/main/java/org/apache/myfaces/scripting/jsf/dynamicdecorators/implemetations/ResourceHandlerProxy.java:40-71 | at most one rebinding per call; none exactly when every call is a query, and one per call exactly when none is |
| ResourceHandlerDecorator.RebindCountAppend | core/myfaces2-extensions/src/main/java/org/apache/myfaces/scripting/jsf/dynamicdecorators/implemetations/ResourceHandlerProxy.java:40-71 | the rebindings of two runs of calls add up |
| ResourceHandlerDecorator.DelegateAfterCountsRebinds | core/myfaces2-extensions/src/main/java/org/apache/myfaces/scripting/jsf/dynamicdecorators/implemetations/ResourceHandlerProxy.java:40-75 | after any sequence of calls the delegate is the original woven once per call other than the two queries, whatever queries were interleaved |
| ResourceHandlerDecorator.QueriesKeepDelegate | core/myfaces2-extensions/src/main/java/org/apache/myfaces/scripting/jsf/dynamicdecorators/implemetations/ResourceHandlerProxy.java:65-71 | a run of `isResourceRequest` and `libraryExists` calls leaves the delegate where it was |
| ResourceHandlerDecorator.ResourceHandlerProxy.constructor | core/myfaces2-extensions/src/main/java/org/apache/myfaces/scripting/jsf/dynamicdecorators/implemetations/ResourceHandlerProxy.java:36-38 | stores the delegate unchanged |
| ResourceHandlerDecorator.ResourceHandlerProxy.WeaveDelegate | core/myfaces2-extensions/src/main/java/org/apache/myfaces/scripting/jsf/dynamicdecorators/implemetations/ResourceHandlerProxy.java:73-75 | the delegate becomes the weaver's result for it as a resource handler |
| ResourceHandlerDecorator.ResourceHandlerProxy.CreateResource | core/myfaces2-extensions/src/main/java/org/apache/myfaces/scripting/jsf/dynamicdecorators/implemetations/ResourceHandlerProxy.java:40-43 | rebinds the delegate once, then returns its resource for the same name |
| ResourceHandlerDecorator.ResourceHandlerProxy.CreateLibraryResource | core/myfaces2-extensions/src/main/java/org/apache/myfaces/scripting/jsf/dynamicdecorators/implemetations/ResourceHandlerProxy.java:45-48 | rebinds the delegate once, then returns its resource for the same name and library |
| ResourceHandlerDecorator.ResourceHandlerProxy.CreateTypedResource | core/myfaces2-extensions/src/main/java/org/apache/myfaces/scripting/jsf/dynamicdecorators/implemetations/ResourceHandlerProxy.java:50-53 | rebinds the delegate once, then returns its resource for the same name, library and content type |
| ResourceHandlerDecorator.ResourceHandlerProxy.GetRendererTypeForResourceName | core/myfaces2-extensions/src/main/java/org/apache/myfaces/scripting/jsf/dynamicdecorators/implemetations/ResourceHandlerProxy.java:55-58 | rebinds the delegate once, then returns its renderer type, null included |
| ResourceHandlerDecorator.ResourceHandlerProxy.HandleResourceRequest | core/myfaces2-extensions/src/main/java/org/apache/myfaces/scripting/jsf/dynamicdecorators/implemetations/ResourceHandlerProxy.java:60-63 | rebinds the delegate once, then has the rebound delegate serve the request |
| ResourceHandlerDecorator.ResourceHandlerProxy.IsResourceRequest | core/myfaces2-extensions/src/main/java/org/apache/myfaces/scripting/jsf/dynamicdecorators/implemetations/ResourceHandlerProxy.java:65-67 | answers with the current delegate, which it does not rebind |
| ResourceHandlerDecorator.ResourceHandlerProxy.LibraryExists | core/myfaces2-extensions/src/main/java/org/apache/myfaces/scripting/jsf/dynamicdecorators/implemetations/ResourceHandlerProxy.java:69-71 | answers with the current delegate, which it does not rebind |
| ComponentRegistration.Registered | core/myfaces2-extensions/src/main/java/org/apache/myfaces/scripting/jsf2/annotation/ComponentImplementationListener.java:50-54 | after registering, the application maps the component type to the class, `_alreadyRegistered` maps the class to the type, and every other class's entry and every other type's binding is kept; no other key is added |
| ComponentRegistration.Purged | core/myfaces2-extensions/src/main/java/org/apache/myfaces/scripting/jsf2/annotation/ComponentImplementationListener.java:70-73 | purging removes only the class's own registration; a registered class's type is rebound to `PurgedComponent` with every other type kept; an unregistered class changes nothing |
| ComponentRegistration.CoveredIsInvariant | core/myfaces2-extensions/src/main/java/org/apache/myfaces/scripting/jsf2/annotation/ComponentImplementationListener.java:50-73 | registering and purging keep every registered class's component type bound in the application |
| ComponentRegistration.PurgeIsIdempotent | core/myfaces2-extensions/src/main/java/org/apache/myfaces/scripting/jsf2/annotation/ComponentImplementationListener.java:70-72 | purging twice is purging once |
| ComponentRegistration.PurgeUndoesRegistration | core/myfaces2-extensions/src/main/java/org/apache/myfaces/scripting/jsf2/annotation/ComponentImplementationListener.java:50-73 | registering a new class and then purging it restores `_alreadyRegistered` and leaves its type bound to the placeholder |
| ComponentRegistration.PurgeRebindsTypeWhoeverOwnsIt | core/myfaces2-extensions/src/main/java/org/apache/myfaces/scripting/jsf2/annotation/ComponentImplementationListener.java:70-73 | purging a class whose type was since registered for another class still binds that type to the placeholder, while the other class stays registered |
| ComponentRegistration.PurgeAfterRemovalRebindsNothing | core/myfaces2-extensions/src/main/java/org/apache/myfaces/scripting/jsf2/annotation/ComponentImplementationListener.java:69-73 | if the inherited `purge` had already removed the class's entry, this `purge` would change nothing: the placeholder is bound only while the entry survives the super call |
| ComponentRegistration.ComponentImplementationListener.constructor | core/myfaces2-extensions/src/main/java/org/apache/myfaces/scripting/jsf2/annotation/ComponentImplementationListener.java:35-38 | the entity parameter is `"value"` and nothing is registered |
| ComponentRegistration.ComponentImplementationListener.SupportsAnnotation | core/myfaces2-extensions/src/main/java/org/apache/myfaces/scripting/jsf2/annotation/ComponentImplementationListener.java:41-43 | true exactly for `javax.faces.component.FacesComponent` |
| ComponentRegistration.ComponentImplementationListener.AddEntity | core/myfaces2-extensions/src/main/java/org/apache/myfaces/scripting/jsf2/annotation/ComponentImplementationListener.java:46-55 | the application and `_alreadyRegistered` become `Registered` of their old contents |
| ComponentRegistration.ComponentImplementationListener.AddEntityFromSource | core/myfaces2-extensions/src/main/java/org/apache/myfaces/scripting/jsf2/annotation/ComponentImplementationListener.java:57-65 | the weaver is asked to load the class, then the state becomes `Registered` of the old contents |
| ComponentRegistration.ComponentImplementationListener.Purge | core/myfaces2-extensions/src/main/java/org/apache/myfaces/scripting/jsf2/annotation/ComponentImplementationListener.java:67-74 | the inherited `purge` first transforms `_alreadyRegistered`; the application and that map then become `Purged` of their contents |

## Findings

| source | as written | input that shows it | evidently intended | confidence | as-written member | corrected member |
|---|---|---|---|---|---|---|
| core/core/src/main/java/org/apache/myfaces/scripting/refresh/FileChangedDaemon.java:108-114 | `lastModified()` is read once for the comparison and again for the new timestamp (the older daemon, core/src/main/java/org/apache/myfaces/scripting/refresh/FileChangedDaemon.java:89-95, does the same) | stored timestamp 5; the file reads 5 at line 108, is saved, and reads 7 at line 114: the record stays untainted with timestamp 7, and no later pass taints it | one read per record per pass, so that every observed change taints the record | not executed | Metadata.WriteBetweenReadsIsLost | Metadata.ObservedChangeIsNeverLost |

The rest of the model (`Metadata.Scan`, both daemons' `ScanPass`) uses the
single-read loop body `Metadata.ScanRecord`.

## Left out

- Threads, `Thread.sleep` and the swallowed `InterruptedException`: the daemon's loop is a sequence of passes, one per element of `observations`. `setDaemon` and `start` are flags.
- Concurrency: `ConcurrentHashMap` versus `Collections.synchronizedMap`, and `synchronized` on `getInstance` and on the `tempDir` choice. Every operation runs to completion on its own.
- Aliasing of `ReloadingMetadata` objects: records are values in the class map, so one record shared by two keys is not modelled.
- The platform's `File.separator` is fixed to `/`. On Windows `replaceAll("\\.", "\\")` would treat the backslash as an escape; this is not modelled.
- All logging (`printInfo`, `log.info`, `log.error`, `log.trace`).
- javac itself (`getTask(...).call()`, the file manager, the class path and options): `CompileFile` receives the diagnostics javac reported.
- `java.io.File` path handling (CompilerFacade.java:59, :83, :118): no normalisation and no `getAbsolutePath()`. `tempDir` is the raw concatenation of `java.io.tmpdir`, a separator and the drawn name, so a `java.io.tmpdir` ending in `/` leaves `//` inside `ClassFilePath`. The file-system oracles receive these raw paths.
- Reading class bytes, `defineClass` and the parent loader are oracles of `ClassFiles`. Reading and defining answer one of: defined, an `Exception` by its text, or an `Error` by its class name.
- The random and clock-based directory names in the `CompilerFacade` constructor: the drawn suffixes are a parameter. `mkdirs` and `deleteOnExit` are left out.
- Jsr199.ChooseTempDir: requires that some drawn name is free, because the Java loop's termination depends on `Math.random`.
- The `FacesContext`, `ServletRequest` and `WeavingContext` lookups: the request, refresh context, application and weaver are parameters.
- The weaver's `reloadScriptingInstance`, `isDynamic` and `toString` are functions the model does not look into. The weaver never answers null to a non-null instance.
- `SingleEntityAnnotationListener.purge`, the super call of `purge`, is a parameter of `Purge`: any effect on `_alreadyRegistered`, and none on the application.
- ComponentRegistration.ComponentImplementationListener.Purge: the inherited `purge` is a parameter that may change `_alreadyRegistered` in any way. The model assumes it leaves the application's components alone; if it removes the class's entry, `PurgeAfterRemovalRebindsNothing` shows the placeholder is never bound.
- Refresh.FileChangedDaemon.SetSystemRecompileMap: a null engine map is not modelled. The Java setter accepts null, and the next pass that taints a record then throws `NullPointerException` at FileChangedDaemon.java:110. That ends the daemon thread with the pass half done, in an order the map's iteration decides.
- The Java casts in the render kit proxy: every woven object is assumed to have the expected type, so no `ClassCastException` is modelled.
- `GroovyCompilerFacade` and `RendererImplementationListener` are not part of this model.
