/** The search for a Vosk model directory (SpeechRecognizer::findModelPath).
    The filesystem is an input: the set of paths that are existing directories
    and the set of paths that are existing files, as plain strings. */
module ModelLocator {
  import opened Native

  datatype FileSystem = FileSystem(dirs: set<string>, files: set<string>)

  /** What findModelPath reads from its surroundings: the application's
      directory, the per-user data directory and the filesystem. */
  datatype Environment = Environment(appDir: string, dataDir: string, fs: FileSystem)

  /** QDir(p).exists(): p names a directory. */
  predicate DirExists(fs: FileSystem, p: string) { p in fs.dirs }

  /** QFile::exists(p): p names a file or a directory. */
  predicate EntryExists(fs: FileSystem, p: string) { p in fs.files || p in fs.dirs }

  /** The four search paths, bundled locations first, the user data directory last. */
  function SearchPaths(env: Environment): seq<string> {
    [ env.appDir + "/model",
      env.appDir + "/../model",
      env.appDir + "/../share/stt.surajyadav/model",
      env.dataDir + "/model" ]
  }

  /** The model subdirectory names tried inside each search path, in order. */
  const ModelNames: seq<string> := ["vosk-model-small-en-us-0.15", "vosk-model-small-en-in-0.4", "model"]

  /** A directory that contains one of the two marker files is a model itself. */
  predicate IsModelDir(fs: FileSystem, p: string) {
    EntryExists(fs, p + "/am/final.mdl") || EntryExists(fs, p + "/graph/HCLG.fst")
  }

  /** One question the search asks, in the order it asks them: is the search
      path itself a model, or does it hold a subdirectory of a given name? */
  datatype Probe = Itself(dir: string) | Named(dir: string, name: string)

  function ProbePath(p: Probe): string {
    match p
    case Itself(d) => d
    case Named(d, n) => d + "/" + n
  }

  /** A probe succeeds only inside an existing search path. */
  predicate Hits(fs: FileSystem, p: Probe) {
    match p
    case Itself(d) => DirExists(fs, d) && IsModelDir(fs, d)
    case Named(d, n) => DirExists(fs, d) && DirExists(fs, d + "/" + n)
  }

  function NamedProbes(dir: string, names: seq<string>): (r: seq<Probe>)
    ensures |r| == |names|
    ensures forall k :: 0 <= k < |names| ==> r[k] == Named(dir, names[k])
  {
    if names == [] then [] else [Named(dir, names[0])] + NamedProbes(dir, names[1..])
  }

  /** The probes made inside one search path: the path itself, then its
      named subdirectories. */
  function ProbesOf(dir: string, names: seq<string>): seq<Probe> {
    [Itself(dir)] + NamedProbes(dir, names)
  }

  /** Every probe, in the order the search makes them, path by path. */
  function Probes(paths: seq<string>, names: seq<string>): seq<Probe> {
    if paths == [] then [] else ProbesOf(paths[0], names) + Probes(paths[1..], names)
  }

  /** The first probe that succeeds, if any. */
  function FirstHit(fs: FileSystem, probes: seq<Probe>): Option<Probe> {
    if probes == [] then None
    else if Hits(fs, probes[0]) then Some(probes[0])
    else FirstHit(fs, probes[1..])
  }

  /** The path of a successful probe, or "" for none. */
  function PathOf(hit: Option<Probe>): string {
    match hit
    case None => ""
    case Some(p) => ProbePath(p)
  }

  /** The path of the first successful probe, or "" when none succeeds. */
  function Located(fs: FileSystem, paths: seq<string>, names: seq<string>): string {
    PathOf(FirstHit(fs, Probes(paths, names)))
  }

  /** The path findModelPath returns. */
  function ModelPath(env: Environment): string {
    Located(env.fs, SearchPaths(env), ModelNames)
  }

  lemma FirstHitSkip(fs: FileSystem, p: Probe, rest: seq<Probe>)
    requires !Hits(fs, p)
    ensures FirstHit(fs, [p] + rest) == FirstHit(fs, rest)
  {
    assert ([p] + rest)[1..] == rest;
  }

  lemma {:induction false} FirstHitAppend(fs: FileSystem, a: seq<Probe>, b: seq<Probe>)
    ensures FirstHit(fs, a + b) == if FirstHit(fs, a).Some? then FirstHit(fs, a) else FirstHit(fs, b)
  {
    if a == [] {
      assert a + b == b;
    } else {
      assert (a + b)[0] == a[0];
      assert (a + b)[1..] == a[1..] + b;
      FirstHitAppend(fs, a[1..], b);
    }
  }

  lemma {:induction false} FirstHitMissesDir(fs: FileSystem, dir: string, names: seq<string>)
    requires !DirExists(fs, dir)
    ensures FirstHit(fs, NamedProbes(dir, names)) == None
  {
    if names != [] {
      FirstHitMissesDir(fs, dir, names[1..]);
    }
  }

  /** A search path that is not an existing directory contributes nothing. */
  lemma SkipMissingDir(fs: FileSystem, paths: seq<string>, names: seq<string>)
    requires paths != [] && !DirExists(fs, paths[0])
    ensures FirstHit(fs, Probes(paths, names)) == FirstHit(fs, Probes(paths[1..], names))
  {
    FirstHitMissesDir(fs, paths[0], names);
    FirstHitSkip(fs, Itself(paths[0]), NamedProbes(paths[0], names));
    FirstHitAppend(fs, ProbesOf(paths[0], names), Probes(paths[1..], names));
  }

  /** The outer loop of findModelPath, over any search paths and names:
      each existing path is first tested as a model itself, then searched
      for a named subdirectory; the first success is returned at once. */
  method Search(fs: FileSystem, searchPaths: seq<string>, names: seq<string>) returns (path: string)
    ensures path == Located(fs, searchPaths, names)
  {
    var i := 0;
    while i < |searchPaths|
      invariant 0 <= i <= |searchPaths|
      invariant FirstHit(fs, Probes(searchPaths, names)) == FirstHit(fs, Probes(searchPaths[i..], names))
    {
      var dir := searchPaths[i];
      ghost var rest := Probes(searchPaths[i + 1..], names);
      assert searchPaths[i..][1..] == searchPaths[i + 1..];
      assert Probes(searchPaths[i..], names) == ProbesOf(dir, names) + rest;
      FirstHitAppend(fs, ProbesOf(dir, names), rest);
      if DirExists(fs, dir) {
        if EntryExists(fs, dir + "/am/final.mdl") || EntryExists(fs, dir + "/graph/HCLG.fst") {
          return dir;
        }
        FirstHitSkip(fs, Itself(dir), NamedProbes(dir, names));
        path := SearchNames(fs, dir, names);
        if path != "" {
          return path;
        }
      } else {
        FirstHitMissesDir(fs, dir, names);
        FirstHitSkip(fs, Itself(dir), NamedProbes(dir, names));
      }
      i := i + 1;
    }
    return "";
  }

  /** The inner loop of findModelPath: the first named subdirectory of an
      existing directory that exists, or "" when there is none. */
  method SearchNames(fs: FileSystem, dir: string, names: seq<string>) returns (path: string)
    requires DirExists(fs, dir)
    ensures path == PathOf(FirstHit(fs, NamedProbes(dir, names)))
    ensures path == "" <==> FirstHit(fs, NamedProbes(dir, names)).None?
  {
    var j := 0;
    while j < |names|
      invariant 0 <= j <= |names|
      invariant FirstHit(fs, NamedProbes(dir, names)) == FirstHit(fs, NamedProbes(dir, names[j..]))
    {
      var modelPath := dir + "/" + names[j];
      assert names[j..][1..] == names[j + 1..];
      assert NamedProbes(dir, names[j..]) == [Named(dir, names[j])] + NamedProbes(dir, names[j + 1..]);
      if DirExists(fs, modelPath) {
        return modelPath;
      }
      FirstHitSkip(fs, Named(dir, names[j]), NamedProbes(dir, names[j + 1..]));
      j := j + 1;
    }
    assert names[j..] == [];
    return "";
  }

  /** SpeechRecognizer::findModelPath: the search over the four paths and the
      three model names. */
  method FindModelPath(env: Environment) returns (path: string)
    ensures path == ModelPath(env)
  {
    path := Search(env.fs, SearchPaths(env), ModelNames);
  }

  /** Every probe is made inside one of the search paths. */
  lemma {:induction false} ProbeDirs(paths: seq<string>, names: seq<string>, k: nat)
    requires k < |Probes(paths, names)|
    ensures Probes(paths, names)[k].dir in paths
  {
    var here := ProbesOf(paths[0], names);
    if k < |here| {
      assert Probes(paths, names)[k] == here[k];
    } else {
      assert Probes(paths, names)[k] == Probes(paths[1..], names)[k - |here|];
      ProbeDirs(paths[1..], names, k - |here|);
    }
  }

  /** Every probe path is non-empty, so "" unambiguously means "no model". */
  lemma ProbePathsNonEmpty(env: Environment, k: nat)
    requires k < |Probes(SearchPaths(env), ModelNames)|
    ensures ProbePath(Probes(SearchPaths(env), ModelNames)[k]) != ""
  {
    ProbeDirs(SearchPaths(env), ModelNames, k);
  }

  lemma {:induction false} FirstHitIsFirst(fs: FileSystem, probes: seq<Probe>)
    ensures FirstHit(fs, probes).None? <==> forall k :: 0 <= k < |probes| ==> !Hits(fs, probes[k])
    ensures FirstHit(fs, probes).Some? ==>
      exists k :: 0 <= k < |probes| && FirstHit(fs, probes) == Some(probes[k]) && Hits(fs, probes[k])
        && forall m :: 0 <= m < k ==> !Hits(fs, probes[m])
  {
    if probes != [] && !Hits(fs, probes[0]) {
      var tail := probes[1..];
      FirstHitIsFirst(fs, tail);
      assert forall m :: 0 <= m < |tail| ==> tail[m] == probes[m + 1];
      if FirstHit(fs, probes).Some? {
        var k :| 0 <= k < |tail| && FirstHit(fs, tail) == Some(tail[k]) && Hits(fs, tail[k])
          && forall m :: 0 <= m < k ==> !Hits(fs, tail[m]);
        assert FirstHit(fs, probes) == Some(probes[k + 1]);
        forall m | 0 <= m < k + 1 ensures !Hits(fs, probes[m]) {
          if m > 0 { assert probes[m] == tail[m - 1]; }
        }
      } else {
        forall m | 0 <= m < |probes| ensures !Hits(fs, probes[m]) {
          if m > 0 { assert probes[m] == tail[m - 1]; }
        }
      }
    }
  }

  /** findModelPath returns "" exactly when no probe succeeds; otherwise it
      returns the path of a successful probe before which every probe failed. */
  lemma ModelPathIsFirstHit(env: Environment)
    ensures var probes := Probes(SearchPaths(env), ModelNames);
      (ModelPath(env) == "" <==> forall k :: 0 <= k < |probes| ==> !Hits(env.fs, probes[k]))
      && (ModelPath(env) != "" ==>
        exists k :: 0 <= k < |probes| && Hits(env.fs, probes[k]) && ModelPath(env) == ProbePath(probes[k])
          && forall m :: 0 <= m < k ==> !Hits(env.fs, probes[m]))
  {
    var probes := Probes(SearchPaths(env), ModelNames);
    FirstHitIsFirst(env.fs, probes);
    if FirstHit(env.fs, probes).Some? {
      var k :| 0 <= k < |probes| && FirstHit(env.fs, probes) == Some(probes[k]) && Hits(env.fs, probes[k])
        && forall m :: 0 <= m < k ==> !Hits(env.fs, probes[m]);
      ProbePathsNonEmpty(env, k);
    }
  }

  /** The probes for two lists of search paths are the probes for each, in order. */
  lemma {:induction false} ProbesAppend(a: seq<string>, b: seq<string>, names: seq<string>)
    ensures Probes(a + b, names) == Probes(a, names) + Probes(b, names)
  {
    if a == [] {
      assert a + b == b;
    } else {
      assert (a + b)[0] == a[0];
      assert (a + b)[1..] == a[1..] + b;
      ProbesAppend(a[1..], b, names);
    }
  }

  /** When the search paths before path i yield nothing, and path i exists
      and is itself a model, path i is returned: before any of its named
      subdirectories and before every later path. */
  lemma ModelDirBeforeSubdirs(fs: FileSystem, paths: seq<string>, names: seq<string>, i: nat)
    requires i < |paths|
    requires DirExists(fs, paths[i]) && IsModelDir(fs, paths[i])
    requires FirstHit(fs, Probes(paths[..i], names)) == None
    ensures Located(fs, paths, names) == paths[i]
  {
    var before, from := paths[..i], paths[i..];
    assert paths == before + from;
    ProbesAppend(before, from, names);
    var here := ProbesOf(paths[i], names);
    assert from[1..] == paths[i + 1..];
    assert Probes(from, names) == here + Probes(paths[i + 1..], names);
    FirstHitAppend(fs, here, Probes(paths[i + 1..], names));
    FirstHitAppend(fs, Probes(before, names), Probes(from, names));
  }
}
