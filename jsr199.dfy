/**
 * The JSR 199 compiler facade of the scripting core: it compiles one Java
 * source file into a temporary output directory, refuses the result when any
 * diagnostic has been collected, and loads the compiled class through a
 * class loader that prefers the output directory to its parent.
 *
 * javac, the file system, reading and defining class bytes and the parent
 * loader are oracles: `javac`'s diagnostics are a parameter of `CompileFile`,
 * the rest is a `ClassFiles` value.
 */
module Jsr199 {
  import opened Wrappers
  import opened Platform

  // ---------------------------------------------------------------------------
  // String conversions between source paths, class names and class files

  /** `s` with every `from` replaced by `to`. */
  function Replace(s: string, from: char, to: char): (r: string)
    ensures |r| == |s|
    ensures forall i :: 0 <= i < |s| ==> r[i] == (if s[i] == from then to else s[i])
  {
    if s == [] then [] else [if s[0] == from then to else s[0]] + Replace(s[1..], from, to)
  }

  /** `String.lastIndexOf(c)`: the last position of `c`, or -1. */
  function LastIndexOf(s: string, c: char): (i: int)
    ensures -1 <= i < |s|
    ensures i == -1 <==> c !in s
    ensures 0 <= i ==> s[i] == c && forall j :: i < j < |s| ==> s[j] != c
  {
    if s == [] then -1
    else if s[|s| - 1] == c then |s| - 1
    else LastIndexOf(s[..|s| - 1], c)
  }

  /** `filePath.replaceAll("\\\\", ".").replaceAll("\\/", ".")`. */
  function DottedPath(filePath: string): string {
    Replace(Replace(filePath, '\\', '.'), '/', '.')
  }

  /**
   * The class name `compileFile` derives from a path relative to the source
   * root: separators become dots and everything from the last dot on is cut.
   * Without any dot, `substring(0, -1)` throws.
   */
  function ClassNameOf(filePath: string): (r: Result<string, JavaThrowable>)
    ensures r.Failure? <==> '.' !in DottedPath(filePath)
    ensures r.Failure? ==> r.error == StringIndexOutOfBoundsException(-1)
    ensures r.Success? ==>
              var d := DottedPath(filePath);
              && |r.value| < |d| && r.value == d[..|r.value|] && d[|r.value|] == '.'
              && forall j :: |r.value| < j < |d| ==> d[j] != '.'
    ensures r.Success? ==> '/' !in r.value && '\\' !in r.value
  {
    var d := DottedPath(filePath);
    var dot := LastIndexOf(d, '.');
    if dot < 0 then Failure(StringIndexOutOfBoundsException(dot))
    else Success(d[..dot])
  }

  /**
   * The class file `RecompiledJavaClassloader.loadClass` looks for under
   * `tempDir`: the directory, a separator, the class name with every dot a
   * separator, and `.class`.
   */
  function ClassFilePath(tempDir: string, className: string): (p: string)
    ensures |p| == |tempDir| + 1 + |className| + 6
    ensures p[..|tempDir|] == tempDir && p[|tempDir|] == FileSeparator && p[|p| - 6..] == ".class"
    ensures forall i :: 0 <= i < |className| ==>
              p[|tempDir| + 1 + i] == (if className[i] == '.' then FileSeparator else className[i])
    ensures forall i :: |tempDir| < i <= |tempDir| + |className| ==> p[i] != '.'
  {
    tempDir + [FileSeparator] + Replace(className, '.', FileSeparator) + ".class"
  }

  /** Replacing distributes over concatenation. */
  lemma ReplaceAppend(a: string, b: string, from: char, to: char)
    ensures Replace(a + b, from, to) == Replace(a, from, to) + Replace(b, from, to)
  {
    var r := Replace(a + b, from, to);
    var r' := Replace(a, from, to) + Replace(b, from, to);
    assert |r| == |r'|;
    forall i | 0 <= i < |r| ensures r[i] == r'[i] {
      if i < |a| {
        assert (a + b)[i] == a[i];
      } else {
        assert (a + b)[i] == b[i - |a|];
      }
    }
  }

  /** Replacing a character that does not occur changes nothing. */
  lemma ReplaceAbsent(s: string, from: char, to: char)
    requires from !in s
    ensures Replace(s, from, to) == s
  {
    var r := Replace(s, from, to);
    forall i | 0 <= i < |s| ensures r[i] == s[i] {
      assert s[i] != from;
    }
  }

  /** Slashes turned into dots turn back into slashes when the path had no dot. */
  lemma ReplaceRoundTrip(s: string)
    requires '.' !in s
    ensures Replace(Replace(s, '/', '.'), '.', FileSeparator) == s
  {
    var r := Replace(Replace(s, '/', '.'), '.', FileSeparator);
    forall i | 0 <= i < |s| ensures r[i] == s[i] {
      assert s[i] != '.';
    }
  }

  /**
   * For a `/`-separated source path with no dot in its directories or its
   * base name, the class-file lookup inverts the name derivation up to the
   * extension: `org/foo/Bar.java` names `org.foo.Bar`, which is looked up at
   * `tempDir/org/foo/Bar.class`.
   */
  lemma ClassFilePathInvertsClassName(tempDir: string, stem: string, extension: string)
    requires '.' !in stem && '\\' !in stem
    requires '.' !in extension && '/' !in extension && '\\' !in extension
    ensures ClassNameOf(stem + "." + extension) == Success(Replace(stem, '/', '.'))
    ensures ClassFilePath(tempDir, Replace(stem, '/', '.')) == tempDir + [FileSeparator] + stem + ".class"
  {
    var d := DottedPath(stem + "." + extension);
    DottedSourcePath(stem, extension);
    LastDotIsExtensionDot(Replace(stem, '/', '.'), extension);
    assert d[..|stem|] == Replace(stem, '/', '.');
    ReplaceRoundTrip(stem);
  }

  /** The dotted form of `stem.extension`. */
  lemma DottedSourcePath(stem: string, extension: string)
    requires '\\' !in stem
    requires '/' !in extension && '\\' !in extension
    ensures DottedPath(stem + "." + extension) == Replace(stem, '/', '.') + "." + extension
  {
    var p := stem + "." + extension;
    var p1 := Replace(p, '\\', '.');
    var d := Replace(p1, '/', '.');
    var r := Replace(stem, '/', '.');
    var e := r + "." + extension;
    assert |d| == |e|;
    forall i | 0 <= i < |d| ensures d[i] == e[i] {
      if i < |stem| {
        assert p[i] == stem[i] && stem[i] != '\\';
        assert d[i] == r[i];
      } else if i == |stem| {
        assert p[i] == '.';
      } else {
        var j := i - |stem| - 1;
        assert p[i] == extension[j] && extension[j] != '\\' && extension[j] != '/';
        assert e[i] == extension[j];
      }
    }
    assert d == e;
  }

  /** In `prefix.extension` with no dot in the extension, the last dot is the one before it. */
  lemma LastDotIsExtensionDot(prefix: string, extension: string)
    requires '.' !in extension
    ensures LastIndexOf(prefix + "." + extension, '.') == |prefix|
  {
    var d := prefix + "." + extension;
    assert d[|prefix|] == '.';
  }

  // ---------------------------------------------------------------------------
  // Loading a recompiled class

  /** A class loader: one of the host's, or a `RecompiledJavaClassloader` over a parent. */
  datatype Loader = HostLoader(id: nat) | RecompiledJavaClassloader(parent: Loader)

  /** A loaded class: defined from a recompiled class file, or one some other loader handed out. */
  datatype ClassRef = DefinedFrom(name: string, classFile: string) | HostClass(name: string, id: nat)

  /** What reading a class file and `defineClass(name, bytes)` come to. */
  datatype DefineOutcome =
    | Defined
      /** An `Exception` (an `IOException` while reading, say), by its `toString()`. */
    | ExceptionThrown(text: string)
      /** An `Error` of the JVM (`ClassFormatError`, `NoClassDefFoundError`, ...), by its class name. */
    | ErrorThrown(errorClass: string)

  /** The file system and the JVM, as far as `loadClass` asks them. */
  datatype ClassFiles = ClassFiles(
    /** `File.exists()` on the compiled output. */
    fileExists: string -> bool,
    /** Reading the file and defining the class from its bytes. */
    define: (string, string) -> DefineOutcome,
    /** `ClassLoader.loadClass(name)` on the given parent loader. */
    parentLoad: (Loader, string) -> Result<ClassRef, JavaThrowable>)

  /**
   * `RecompiledJavaClassloader.loadClass` on a loader over `parent`: a class
   * file under `tempDir` wins, and never falls back to the parent. An
   * `Exception` while reading or defining it becomes a
   * `ClassNotFoundException`; an `Error` passes through the
   * `catch (Exception e)` untouched. Without a class file the parent decides.
   */
  function LoadClass(files: ClassFiles, tempDir: string, parent: Loader, className: string): (r: Result<ClassRef, JavaThrowable>)
    ensures var target := ClassFilePath(tempDir, className);
            files.fileExists(target) ==>
              && (r.Success? <==> files.define(className, target).Defined?)
              && (r.Success? ==> r.value == DefinedFrom(className, target))
              && (files.define(className, target).ExceptionThrown? ==>
                    r == Failure(ClassNotFoundException(files.define(className, target).text)))
              && (files.define(className, target).ErrorThrown? ==>
                    r == Failure(LinkageError(files.define(className, target).errorClass)))
    ensures !files.fileExists(ClassFilePath(tempDir, className)) ==> r == files.parentLoad(parent, className)
  {
    var target := ClassFilePath(tempDir, className);
    if files.fileExists(target) then
      match files.define(className, target)
      case Defined => Success(DefinedFrom(className, target))
      case ExceptionThrown(e) => Failure(ClassNotFoundException(e))
      case ErrorThrown(e) => Failure(LinkageError(e))
    else
      files.parentLoad(parent, className)
  }

  // ---------------------------------------------------------------------------
  // Compile diagnostics

  /**
   * A javac diagnostic: message, line number (-1 when unknown) and the
   * `toString()` of its source, `None` when `getSource()` is null, as for a
   * diagnostic not tied to a file.
   */
  datatype Diagnostic = Diagnostic(message: string, lineNumber: int, source: Option<string>)

  const CompileErrorPrefix: string := "Compile error of java file:"

  function DigitChar(d: nat): char
    requires d < 10
  {
    ('0' as int + d) as char
  }

  /** The number a string of decimal digits denotes. */
  function DigitsValue(s: string): int
    decreases |s|
  {
    if s == [] then 0 else DigitsValue(s[..|s| - 1]) * 10 + (s[|s| - 1] as int - '0' as int)
  }

  /** Decimal digits of a natural number. */
  function NatString(n: nat): (s: string)
    ensures |s| > 0 && forall i :: 0 <= i < |s| ==> '0' <= s[i] <= '9'
    ensures (n > 0 || |s| > 1) ==> s[0] != '0'
  {
    if n < 10 then [DigitChar(n)] else NatString(n / 10) + [DigitChar(n % 10)]
  }

  /** The digits of `n` denote `n`. */
  lemma {:induction false} NatStringValue(n: nat)
    ensures DigitsValue(NatString(n)) == n
  {
    var s := NatString(n);
    if n < 10 {
      assert s[..|s| - 1] == [];
    } else {
      NatStringValue(n / 10);
      assert s[..|s| - 1] == NatString(n / 10);
    }
  }

  /**
   * Java's decimal rendering of a `long`: a minus sign for a negative
   * number, then the digits of its magnitude, with no leading zero.
   */
  function DecimalString(n: int): (s: string)
    ensures |s| > 0 && (s[0] == '-' <==> n < 0)
    ensures forall i :: (if n < 0 then 1 else 0) <= i < |s| ==> '0' <= s[i] <= '9'
    ensures |s| > (if n < 0 then 2 else 1) ==> s[if n < 0 then 1 else 0] != '0'
    ensures n >= 0 ==> DigitsValue(s) == n
    ensures n < 0 ==> DigitsValue(s[1..]) == -n
  {
    if n < 0 then
      NatStringValue(-n);
      var s := "-" + NatString(-n);
      assert s[1..] == NatString(-n);
      s
    else
      NatStringValue(n);
      NatString(n)
  }

  /** Every diagnostic has a source. */
  predicate Sourced(ds: seq<Diagnostic>) {
    forall i :: 0 <= i < |ds| ==> ds[i].source.Some?
  }

  lemma SourcedAppend(a: seq<Diagnostic>, b: seq<Diagnostic>)
    ensures Sourced(a + b) <==> Sourced(a) && Sourced(b)
  {
    if Sourced(a + b) {
      forall i | 0 <= i < |a| ensures a[i].source.Some? {
        assert (a + b)[i] == a[i];
      }
      forall i | 0 <= i < |b| ensures b[i].source.Some? {
        assert (a + b)[|a| + i] == b[i];
      }
    }
    if Sourced(a) && Sourced(b) {
      forall i | 0 <= i < |a + b| ensures (a + b)[i].source.Some? {
        if i >= |a| {
          assert (a + b)[i] == b[i - |a|];
        }
      }
    }
  }

  /**
   * The text `compileFile` logs and appends for one diagnostic with a source:
   * "Error on line", the message, "------", the line number, " File:" and
   * the source.
   */
  function DiagnosticLine(d: Diagnostic): (line: string)
    requires d.source.Some?
    ensures |line| >= 13 + |d.message| + |d.source.value|
    ensures line[..13] == "Error on line"
    ensures line[13..13 + |d.message|] == d.message
    ensures line[|line| - |d.source.value|..] == d.source.value
  {
    var head := "Error on line" + d.message;
    var line := head + "------" + DecimalString(d.lineNumber) + " File:" + d.source.value;
    assert line == head + ("------" + DecimalString(d.lineNumber) + " File:") + d.source.value;
    assert line[..|head|] == head;
    line
  }

  /** The lines of the diagnostics, in collection order. */
  function Lines(ds: seq<Diagnostic>): (ls: seq<string>)
    requires Sourced(ds)
    ensures |ls| == |ds| && forall i :: 0 <= i < |ds| ==> ls[i] == DiagnosticLine(ds[i])
  {
    seq(|ds|, i requires 0 <= i < |ds| => DiagnosticLine(ds[i]))
  }

  /** `StringBuilder.append` of every string in order. */
  function Concat(ss: seq<string>): string
    decreases |ss|
  {
    if ss == [] then "" else Concat(ss[..|ss| - 1]) + ss[|ss| - 1]
  }

  /** All diagnostics' lines, one after the other. */
  function Report(ds: seq<Diagnostic>): string
    requires Sourced(ds)
  {
    Concat(Lines(ds))
  }

  /**
   * What the loop over the collected diagnostics comes to: the report, or
   * the `NullPointerException` of `getSource().toString()` at the first
   * diagnostic without a source.
   */
  function ErrorReport(ds: seq<Diagnostic>): (r: Result<string, JavaThrowable>)
    ensures r.Success? <==> Sourced(ds)
    ensures r.Failure? ==> r.error == NullPointerException
  {
    if Sourced(ds) then Success(Report(ds)) else Failure(NullPointerException)
  }

  /** Appending two runs of strings is appending their concatenations. */
  lemma {:induction false} ConcatAppend(a: seq<string>, b: seq<string>)
    ensures Concat(a + b) == Concat(a) + Concat(b)
    decreases |b|
  {
    if b == [] {
      assert a + b == a;
    } else {
      var b' := b[..|b| - 1];
      var last := b[|b| - 1];
      assert (a + b)[..|a + b| - 1] == a + b';
      assert (a + b)[|a + b| - 1] == last;
      ConcatAppend(a, b');
      calc {
        Concat(a + b);
        Concat(a + b') + last;
        Concat(a) + Concat(b') + last;
        Concat(a) + Concat(b);
      }
    }
  }

  /** The report of two runs of diagnostics is the two reports, one after the other. */
  lemma ReportAppend(a: seq<Diagnostic>, b: seq<Diagnostic>)
    requires Sourced(a) && Sourced(b)
    ensures Sourced(a + b) && Report(a + b) == Report(a) + Report(b)
  {
    SourcedAppend(a, b);
    assert Lines(a + b) == Lines(a) + Lines(b);
    ConcatAppend(Lines(a), Lines(b));
  }

  /** The report is not fail-fast: every diagnostic's line is in it, between those of the diagnostics around it. */
  lemma ReportListsEveryDiagnostic(ds: seq<Diagnostic>, i: nat)
    requires i < |ds| && Sourced(ds)
    ensures Sourced(ds[..i]) && Sourced(ds[i + 1..])
    ensures Report(ds) == Report(ds[..i]) + DiagnosticLine(ds[i]) + Report(ds[i + 1..])
  {
    var before, after := ds[..i], ds[i + 1..];
    assert ds == before + [ds[i]] + after;
    SourcedAppend(before + [ds[i]], after);
    SourcedAppend(before, [ds[i]]);
    ReportAppend(before + [ds[i]], after);
    ReportAppend(before, [ds[i]]);
    ReportOfOne(ds[i]);
  }

  lemma ReportOfOne(d: Diagnostic)
    requires d.source.Some?
    ensures Sourced([d]) && Report([d]) == DiagnosticLine(d)
  {
    var ls := Lines([d]);
    assert ls == [DiagnosticLine(d)];
    assert ls[..0] == [];
    assert Concat(ls) == "" + ls[0];
  }

  /** One more sourced diagnostic extends the report by its line. */
  lemma ReportStep(ds: seq<Diagnostic>, i: nat)
    requires i < |ds| && Sourced(ds[..i]) && ds[i].source.Some?
    ensures Sourced(ds[..i + 1]) && Report(ds[..i + 1]) == Report(ds[..i]) + DiagnosticLine(ds[i])
  {
    assert ds[..i + 1] == ds[..i] + [ds[i]];
    ReportOfOne(ds[i]);
    ReportAppend(ds[..i], [ds[i]]);
  }

  /**
   * The `for` loop of `compileFile` that appends every diagnostic's line to
   * `errors`, stopping with a `NullPointerException` at a diagnostic without
   * a source.
   */
  method BuildErrorReport(ds: seq<Diagnostic>) returns (r: Result<string, JavaThrowable>)
    ensures r == ErrorReport(ds)
  {
    var errors := "";
    var i := 0;
    while i < |ds|
      invariant 0 <= i <= |ds|
      invariant Sourced(ds[..i]) && errors == Report(ds[..i])
    {
      if ds[i].source.None? {
        assert !Sourced(ds);
        return Failure(NullPointerException);
      }
      ReportStep(ds, i);
      errors := errors + DiagnosticLine(ds[i]);
      i := i + 1;
    }
    assert ds[..i] == ds;
    return Success(errors);
  }

  // ---------------------------------------------------------------------------
  // compileFile

  /**
   * The outcome of `compileFile` once javac has run: `collected` is everything
   * the facade's collector holds, `context` the thread's context loader.
   * None stands for the `null` returned under a recompiling context loader.
   */
  function CompileOutcome(collected: seq<Diagnostic>, context: Loader, files: ClassFiles,
                          tempDir: string, filePath: string): (r: Result<Option<ClassRef>, JavaThrowable>)
    ensures |collected| > 0 ==> r.Failure? && (r.error == NullPointerException <==> !Sourced(collected))
    ensures |collected| > 0 && Sourced(collected) ==>
              r == Failure(ClassNotFoundException(CompileErrorPrefix + Report(collected)))
    ensures |collected| == 0 && context.RecompiledJavaClassloader? ==> r == Success(None)
    ensures |collected| == 0 && !context.RecompiledJavaClassloader? ==>
              && (ClassNameOf(filePath).Failure? ==> r == Failure(StringIndexOutOfBoundsException(-1)))
              && (ClassNameOf(filePath).Success? ==>
                    var l := LoadClass(files, tempDir, context, ClassNameOf(filePath).value);
                    && (l.Success? <==> r.Success?)
                    && (l.Success? ==> r == Success(Some(l.value)))
                    && (l.Failure? ==> r == Failure(l.error)))
    ensures r.Success? && r.value.Some? ==>
              && |collected| == 0 && !context.RecompiledJavaClassloader? && ClassNameOf(filePath).Success?
              && LoadClass(files, tempDir, context, ClassNameOf(filePath).value) == Success(r.value.value)
  {
    if |collected| > 0 then
      match ErrorReport(collected)
      case Success(errors) => Failure(ClassNotFoundException(CompileErrorPrefix + errors))
      case Failure(e) => Failure(e)
    else if context.RecompiledJavaClassloader? then Success(None)
    else
      match ClassNameOf(filePath)
      case Failure(e) => Failure(e)
      case Success(name) =>
        match LoadClass(files, tempDir, context, name)
        case Failure(e) => Failure(e)
        case Success(c) => Success(Some(c))
  }

  /**
   * The collector is never cleared: once a diagnostic has been collected,
   * every later compile fails. Its message repeats the old diagnostics
   * before the new ones; once a diagnostic without a source has been
   * collected, every later compile throws `NullPointerException` instead.
   */
  lemma CollectedDiagnosticsFailLaterCompiles(collected: seq<Diagnostic>, later: seq<Diagnostic>, context: Loader,
                                              files: ClassFiles, tempDir: string, filePath: string)
    requires |collected| > 0
    ensures Sourced(collected) && Sourced(later) ==>
              && Sourced(collected + later)
              && CompileOutcome(collected + later, context, files, tempDir, filePath)
                 == Failure(ClassNotFoundException(CompileErrorPrefix + Report(collected) + Report(later)))
    ensures !Sourced(collected) || !Sourced(later) ==>
              CompileOutcome(collected + later, context, files, tempDir, filePath) == Failure(NullPointerException)
  {
    var all := collected + later;
    assert |all| > 0;
    SourcedAppend(collected, later);
    if Sourced(collected) && Sourced(later) {
      ReportAppend(collected, later);
      assert CompileErrorPrefix + Report(all) == CompileErrorPrefix + Report(collected) + Report(later);
    }
  }

  /**
   * The whole happy path: with no diagnostic and a host context loader, a
   * `/`-separated source path yields the class defined from its class file
   * under `tempDir`, when that file exists and defines.
   */
  lemma CleanCompileLoadsFromTempDir(context: Loader, files: ClassFiles, tempDir: string, stem: string, extension: string)
    requires !context.RecompiledJavaClassloader?
    requires '.' !in stem && '\\' !in stem
    requires '.' !in extension && '/' !in extension && '\\' !in extension
    requires files.fileExists(tempDir + [FileSeparator] + stem + ".class")
    requires files.define(Replace(stem, '/', '.'), tempDir + [FileSeparator] + stem + ".class") == Defined
    ensures CompileOutcome([], context, files, tempDir, stem + "." + extension)
            == Success(Some(DefinedFrom(Replace(stem, '/', '.'), tempDir + [FileSeparator] + stem + ".class")))
  {
    ClassFilePathInvertsClassName(tempDir, stem, extension);
  }

  /** The static `tempDir`, shared by every facade. */
  class CompilationDir {
    var tempDir: Option<string>

    constructor ()
      ensures tempDir == None
    {
      tempDir := None;
    }
  }

  /** The thread whose context class loader `compileFile` swaps. */
  class JavaThread {
    var contextClassLoader: Loader

    constructor (contextClassLoader: Loader)
      ensures this.contextClassLoader == contextClassLoader
    {
      this.contextClassLoader := contextClassLoader;
    }
  }

  const CompilationDirPrefix: string := "myfaces_compilation_"

  /** The directory tried for one random suffix. */
  function TempDirCandidate(baseTempPath: string, suffix: string): string {
    baseTempPath + [FileSeparator] + CompilationDirPrefix + suffix
  }

  /**
   * The constructor's `while (tempDir.exists())` loop, with the random
   * suffixes it draws given in order: it settles on the first candidate that
   * does not exist.
   */
  method ChooseTempDir(baseTempPath: string, suffixes: seq<string>, pathExists: string -> bool) returns (dir: string)
    requires exists i :: 0 <= i < |suffixes| && !pathExists(TempDirCandidate(baseTempPath, suffixes[i]))
    ensures !pathExists(dir)
    ensures exists i :: 0 <= i < |suffixes| && dir == TempDirCandidate(baseTempPath, suffixes[i])
              && forall j :: 0 <= j < i ==> pathExists(TempDirCandidate(baseTempPath, suffixes[j]))
  {
    var i := 0;
    dir := TempDirCandidate(baseTempPath, suffixes[0]);
    while pathExists(dir)
      invariant 0 <= i < |suffixes| && dir == TempDirCandidate(baseTempPath, suffixes[i])
      invariant forall j :: 0 <= j < i ==> pathExists(TempDirCandidate(baseTempPath, suffixes[j]))
      decreases |suffixes| - i
    {
      i := i + 1;
      dir := TempDirCandidate(baseTempPath, suffixes[i]);
    }
  }

  class CompilerFacade {
    const statics: CompilationDir
    /** The `diagnosticCollector` field: every diagnostic javac ever reported to this facade. */
    var diagnostics: seq<Diagnostic>

    ghost predicate Valid()
      reads statics
    {
      statics.tempDir.Some?
    }

    /**
     * Sets up the facade and, the first time any facade is built, chooses
     * the static `tempDir`; later facades leave it alone.
     */
    constructor (statics: CompilationDir, baseTempPath: string, suffixes: seq<string>, pathExists: string -> bool)
      requires statics.tempDir.None? ==>
                 exists i :: 0 <= i < |suffixes| && !pathExists(TempDirCandidate(baseTempPath, suffixes[i]))
      modifies statics
      ensures this.statics == statics && diagnostics == [] && Valid()
      ensures old(statics.tempDir).Some? ==> statics.tempDir == old(statics.tempDir)
      ensures old(statics.tempDir).None? ==> !pathExists(statics.tempDir.value)
    {
      this.statics := statics;
      diagnostics := [];
      new;
      if statics.tempDir.None? {
        var dir := ChooseTempDir(baseTempPath, suffixes, pathExists);
        statics.tempDir := Some(dir);
      }
    }

    /**
     * `compileFile` after javac has reported `reported`: the diagnostics are
     * added to the collector, the outcome is `CompileOutcome` of the whole
     * collector, and the thread's context loader is the same afterwards.
     */
    method CompileFile(thread: JavaThread, files: ClassFiles, filePath: string, reported: seq<Diagnostic>)
      returns (r: Result<Option<ClassRef>, JavaThrowable>)
      requires Valid()
      modifies this`diagnostics, thread
      ensures Valid()
      ensures diagnostics == old(diagnostics) + reported
      ensures thread.contextClassLoader == old(thread.contextClassLoader)
      ensures r == CompileOutcome(diagnostics, old(thread.contextClassLoader), files, statics.tempDir.value, filePath)
    {
      diagnostics := diagnostics + reported;
      if |diagnostics| > 0 {
        var errors := BuildErrorReport(diagnostics);
        if errors.Failure? {
          return Failure(errors.error);
        }
        return Failure(ClassNotFoundException(CompileErrorPrefix + errors.value));
      }
      var oldClassLoader := thread.contextClassLoader;
      if !oldClassLoader.RecompiledJavaClassloader? {
        var classLoader := RecompiledJavaClassloader(oldClassLoader);
        thread.contextClassLoader := classLoader;
        var classFile := ClassNameOf(filePath);
        if classFile.Failure? {
          thread.contextClassLoader := oldClassLoader;
          return Failure(classFile.error);
        }
        var loaded := LoadClass(files, statics.tempDir.value, classLoader.parent, classFile.value);
        thread.contextClassLoader := oldClassLoader;
        if loaded.Failure? {
          return Failure(loaded.error);
        }
        return Success(Some(loaded.value));
      }
      return Success(None);
    }
  }
}
