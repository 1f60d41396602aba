/** The path resolver (service/artifact_path_service.go): artifact
    categories, storage targets and their synonyms, the six configured roots,
    and the file names joined below them. */
module ArtifactPaths {
  import opened Wrappers
  import opened GoStrings
  import opened GoPath
  import opened Sanitize

  const Weights: string := "weights"
  const Datasets: string := "datasets"

  const Backend: string := "backend"
  const BaiduNetdisk: string := "baidu_netdisk"
  const OtherLocal: string := "other_local"

  /** The spellings that all mean the Baidu Netdisk target ("百度网盘" is the
      product's Chinese name). */
  const BaiduSynonyms: set<string> :=
    {"baidu_netdisk", "baidu", "baidu-pan", "baidu_pan", "baidupan", "pan.baidu",
     "\U{767E}\U{5EA6}\U{7F51}\U{76D8}"}

  const WeightKeys: set<string> := {"", "weight", "weights", "model", "models"}
  const DatasetKeys: set<string> := {"dataset", "datasets"}

  /** The roots of an ArtifactPathService. */
  datatype PathService = PathService(
    backendWeightsRoot: string, backendDatasetsRoot: string,
    baiduWeightsRoot: string, baiduDatasetsRoot: string,
    otherWeightsRoot: string, otherDatasetsRoot: string)

  /** NewArtifactPathService: the built-in default roots. */
  function DefaultPathService(): PathService
  {
    PathService(
      "/Users/wenzhengfeng/code/go/lucky_project/weights",
      "/Users/wenzhengfeng/code/go/lucky_project/datasets",
      "/project/luckyProject/weights", "/project/luckyProject/datasets",
      "/project/luckyProject/weights", "/project/luckyProject/datasets")
  }

  datatype ArtifactPathSet = ArtifactPathSet(backendPath: string, baiduPath: string, otherLocalPath: string)

  /** NormalizeCategory: the two categories and their accepted spellings,
      compared trimmed and in lower case. */
  function NormalizeCategory(category: string): (r: Result<string>)
    ensures r.Ok? ==> r.value == Weights || r.value == Datasets
    ensures r.Err? ==> r.error == InvalidArtifactCategory
  {
    var value := LowerTrim(category);
    if value in WeightKeys then Ok(Weights)
    else if value in DatasetKeys then Ok(Datasets)
    else Err(InvalidArtifactCategory)
  }

  /** Which spellings name which category. */
  lemma CategorySpellings(category: string)
    ensures NormalizeCategory(category) == Ok(Weights) <==> LowerTrim(category) in WeightKeys
    ensures NormalizeCategory(category) == Ok(Datasets) <==> LowerTrim(category) in DatasetKeys
    ensures NormalizeCategory(category).Err? <==> LowerTrim(category) !in WeightKeys + DatasetKeys
  {
  }

  /** NormalizeStorageTarget: blank or "backend", a Baidu synonym, or
      "other_local"; anything else (including "other") is refused. */
  function NormalizeStorageTarget(target: string): (r: Result<string>)
    ensures r.Ok? ==> r.value == Backend || r.value == BaiduNetdisk || r.value == OtherLocal
    ensures r.Err? ==> r.error == InvalidStorageTarget
  {
    var value := LowerTrim(target);
    if value == "" || value == Backend then Ok(Backend)
    else if value in BaiduSynonyms then Ok(BaiduNetdisk)
    else if value == OtherLocal then Ok(OtherLocal)
    else Err(InvalidStorageTarget)
  }

  /** Which spellings name which target. */
  lemma TargetSpellings(target: string)
    ensures NormalizeStorageTarget(target) == Ok(Backend) <==> LowerTrim(target) in {"", Backend}
    ensures NormalizeStorageTarget(target) == Ok(BaiduNetdisk) <==> LowerTrim(target) in BaiduSynonyms
    ensures NormalizeStorageTarget(target) == Ok(OtherLocal) <==> LowerTrim(target) == OtherLocal
    ensures NormalizeStorageTarget(target).Err?
        <==> LowerTrim(target) !in {"", Backend, OtherLocal} + BaiduSynonyms
  {
  }

  lemma CanonicalKeys()
    ensures LowerTrim(Weights) == Weights && LowerTrim(Datasets) == Datasets
    ensures LowerTrim(Backend) == Backend && LowerTrim(BaiduNetdisk) == BaiduNetdisk
    ensures LowerTrim(OtherLocal) == OtherLocal
  {
    CategoryKeys();
    TargetKeys();
  }

  lemma CategoryKeys()
    ensures LowerTrim(Weights) == Weights && LowerTrim(Datasets) == Datasets
  {
    KeyOf(Weights);
    KeyOf(Datasets);
  }

  lemma TargetKeys()
    ensures LowerTrim(Backend) == Backend && LowerTrim(BaiduNetdisk) == BaiduNetdisk
    ensures LowerTrim(OtherLocal) == OtherLocal
  {
    KeyOf(Backend);
    KeyOf(BaiduNetdisk);
    KeyOf(OtherLocal);
  }

  lemma KeyOf(s: string)
    requires s in {Weights, Datasets, Backend, BaiduNetdisk, OtherLocal}
    ensures LowerTrim(s) == s
  {
    LowerTrimOfKey(s);
  }

  /** A normalised category or target normalises to itself. */
  lemma NormalizeIdempotent(category: string, target: string)
    ensures NormalizeCategory(category).Ok? ==>
      NormalizeCategory(NormalizeCategory(category).value) == NormalizeCategory(category)
    ensures NormalizeStorageTarget(target).Ok? ==>
      NormalizeStorageTarget(NormalizeStorageTarget(target).value) == NormalizeStorageTarget(target)
  {
    if NormalizeCategory(category).Ok? {
      CanonicalCategory(NormalizeCategory(category).value);
    }
    if NormalizeStorageTarget(target).Ok? {
      CanonicalTarget(NormalizeStorageTarget(target).value);
    }
  }

  lemma CanonicalCategory(c: string)
    requires c == Weights || c == Datasets
    ensures NormalizeCategory(c) == Ok(c)
  {
    KeyOf(c);
  }

  lemma CanonicalTarget(t: string)
    requires t == Backend || t == BaiduNetdisk || t == OtherLocal
    ensures NormalizeStorageTarget(t) == Ok(t)
  {
    if t == Backend {
      CanonicalBackend();
    } else if t == BaiduNetdisk {
      CanonicalBaidu();
    } else {
      CanonicalOther();
    }
  }

  lemma CanonicalBackend()
    ensures NormalizeStorageTarget(Backend) == Ok(Backend)
  {
    KeyOf(Backend);
  }

  lemma CanonicalBaidu()
    ensures NormalizeStorageTarget(BaiduNetdisk) == Ok(BaiduNetdisk)
  {
    KeyOf(BaiduNetdisk);
  }

  lemma CanonicalOther()
    ensures NormalizeStorageTarget(OtherLocal) == Ok(OtherLocal)
  {
    KeyOf(OtherLocal);
    OtherNotBaidu();
  }

  lemma OtherNotBaidu()
    ensures OtherLocal !in BaiduSynonyms
  {
  }

  /** The configured root for a normalised category and target. */
  function RootOf(ps: PathService, category: string, target: string): string
  {
    if target == Backend then
      if category == Weights then ps.backendWeightsRoot else ps.backendDatasetsRoot
    else if target == BaiduNetdisk then
      if category == Weights then ps.baiduWeightsRoot else ps.baiduDatasetsRoot
    else
      if category == Weights then ps.otherWeightsRoot else ps.otherDatasetsRoot
  }

  /** ResolveRoot: the trimmed root configured for exactly the normalised
      pair; a category error is reported before a target error. */
  function ResolveRoot(ps: PathService, category: string, target: string): (r: Result<string>)
    ensures NormalizeCategory(category).Err? ==> r == Err(InvalidArtifactCategory)
    ensures NormalizeCategory(category).Ok? && NormalizeStorageTarget(target).Err? ==> r == Err(InvalidStorageTarget)
    ensures r.Ok? <==> NormalizeCategory(category).Ok? && NormalizeStorageTarget(target).Ok?
    ensures r.Ok? ==> r.value == TrimSpace(RootOf(ps, NormalizeCategory(category).value,
                                                   NormalizeStorageTarget(target).value))
    ensures r.Ok? ==> IsTrimmed(r.value)
  {
    var c :- NormalizeCategory(category);
    var t :- NormalizeStorageTarget(target);
    TrimSpaceEnds(RootOf(ps, c, t));
    if t == Backend then
      if c == Weights then Ok(TrimSpace(ps.backendWeightsRoot)) else Ok(TrimSpace(ps.backendDatasetsRoot))
    else if t == BaiduNetdisk then
      if c == Weights then Ok(TrimSpace(ps.baiduWeightsRoot)) else Ok(TrimSpace(ps.baiduDatasetsRoot))
    else
      if c == Weights then Ok(TrimSpace(ps.otherWeightsRoot)) else Ok(TrimSpace(ps.otherDatasetsRoot))
  }

  /** Spellings of the same category and target resolve to the same root. */
  lemma ResolveRootBySpelling(ps: PathService, c1: string, t1: string, c2: string, t2: string)
    requires NormalizeCategory(c1) == NormalizeCategory(c2)
    requires NormalizeStorageTarget(t1) == NormalizeStorageTarget(t2)
    ensures ResolveRoot(ps, c1, t1) == ResolveRoot(ps, c2, t2)
  {
  }

  /** A file name that can be joined below a root: non-empty, trimmed, free
      of separators and not "." (".." is accepted). */
  predicate IsPlainName(n: string)
  {
    n != "" && n != "." && '/' !in n && IsTrimmed(n)
  }

  /** normalizeArtifactFileName: the trimmed base name, unless it is "", "."
      or "/". */
  function NormalizeArtifactFileName(fileName: string): (r: Result<string>)
    ensures r.Err? ==> r.error == ArtifactFileNameEmpty
  {
    var name := TrimSpace(Base(fileName));
    if name == "" || name == "." || name == "/" then Err(ArtifactFileNameEmpty)
    else Ok(name)
  }

  /** What normalizeArtifactFileName accepts is a plain name, and a plain
      name is accepted as itself. */
  lemma NormalizedIsPlain(fileName: string)
    ensures NormalizeArtifactFileName(fileName).Ok? ==> IsPlainName(NormalizeArtifactFileName(fileName).value)
  {
    var b := Base(fileName);
    var name := TrimSpace(b);
    BaseShape(fileName);
    TrimSpaceEnds(b);
    if name != "" && name != "." && name != "/" {
      if '/' in name {
        TrimSpaceChars(b, '/');
      }
    }
  }

  lemma PlainNameAccepted(n: string)
    requires IsPlainName(n)
    ensures NormalizeArtifactFileName(n) == Ok(n)
  {
    BaseOfName(n);
    TrimSpaceOfTrimmed(n);
  }

  /** Normalising a normalised name changes nothing. */
  lemma NormalizeFileNameIdempotent(fileName: string)
    ensures NormalizeArtifactFileName(fileName).Ok? ==>
      NormalizeArtifactFileName(NormalizeArtifactFileName(fileName).value) == NormalizeArtifactFileName(fileName)
  {
    NormalizedIsPlain(fileName);
    if NormalizeArtifactFileName(fileName).Ok? {
      PlainNameAccepted(NormalizeArtifactFileName(fileName).value);
    }
  }

  /** The base name of a path below a directory is its last element. */
  lemma BaseBelow(dir: string, name: string)
    requires name != [] && '/' !in name
    ensures Base(dir + "/" + name) == name
  {
    var s := dir + "/" + name;
    assert s[|s| - 1] == name[|name| - 1];
    LastSlashAppend(dir, name);
    assert s[|dir| + 1..] == name;
  }

  /** BuildPath: resolve the root, then the file name, then refuse a blank
      root; the path is the clean join of the two. */
  function BuildPath(ps: PathService, category: string, target: string, fileName: string): (r: Result<string>)
    ensures ResolveRoot(ps, category, target).Err? ==> r == Err(ResolveRoot(ps, category, target).error)
    ensures ResolveRoot(ps, category, target).Ok? && NormalizeArtifactFileName(fileName).Err?
            ==> r == Err(ArtifactFileNameEmpty)
    ensures r.Ok? <==> ResolveRoot(ps, category, target).Ok? && NormalizeArtifactFileName(fileName).Ok?
                       && ResolveRoot(ps, category, target).value != ""
    ensures (ResolveRoot(ps, category, target).Ok? && NormalizeArtifactFileName(fileName).Ok?
             && ResolveRoot(ps, category, target).value == "") ==> r == Err(InvalidStorageTarget)
    ensures r.Ok? ==> r.value != ""
  {
    var root :- ResolveRoot(ps, category, target);
    var name :- NormalizeArtifactFileName(fileName);
    TrimSpaceOfTrimmed(root);
    CleanNonEmpty(root + "/" + name);
    if TrimSpace(root) == "" then Err(InvalidStorageTarget)
    else Ok(Join(root, name))
  }

  /** BuildPath reads only the base name: any directory part of the file
      name is dropped. */
  lemma BuildPathUsesBaseName(ps: PathService, category: string, target: string, dir: string, name: string)
    requires name != [] && '/' !in name
    ensures BuildPath(ps, category, target, dir + "/" + name) == BuildPath(ps, category, target, name)
  {
    BaseBelow(dir, name);
    BaseOfName(name);
  }

  lemma JoinSlashPush(st: seq<string>, x: string)
    requires st != []
    ensures JoinSlash(st + [x]) == JoinSlash(st) + "/" + x
  {
    assert (st + [x])[..|st|] == st;
  }

  /** Every accepted name other than ".." lands one level below the root:
      the path's elements are the root's clean elements plus the name, and
      below a root that is not "/" or "." the path is the clean root, a
      separator, and the name. */
  lemma BuildPathUnderRoot(ps: PathService, category: string, target: string, fileName: string)
    requires BuildPath(ps, category, target, fileName).Ok?
    requires NormalizeArtifactFileName(fileName).value != ".."
    ensures var root, name := ResolveRoot(ps, category, target).value, NormalizeArtifactFileName(fileName).value;
      && CleanStack(BuildPath(ps, category, target, fileName).value) == CleanStack(root) + [name]
      && Rooted(BuildPath(ps, category, target, fileName).value) == Rooted(root)
      && (CleanStack(root) != [] ==> BuildPath(ps, category, target, fileName).value == Clean(root) + "/" + name)
  {
    var root, name := ResolveRoot(ps, category, target).value, NormalizeArtifactFileName(fileName).value;
    NormalizedIsPlain(fileName);
    TrimSpaceOfTrimmed(root);
    JoinUnderRoot(root, name);
  }

  /** A normal name joined below a non-empty root. */
  lemma JoinUnderRoot(root: string, name: string)
    requires root != "" && NormalName(name)
    ensures CleanStack(Join(root, name)) == CleanStack(root) + [name]
    ensures Rooted(Join(root, name)) == Rooted(root)
    ensures CleanStack(root) != [] ==> Join(root, name) == Clean(root) + "/" + name
  {
    JoinUnderStack(root, name);
    JoinUnderRooted(root, name);
    JoinUnderText(root, name);
  }

  lemma JoinUnderStack(root: string, name: string)
    requires root != "" && NormalName(name)
    ensures CleanStack(Join(root, name)) == CleanStack(root) + [name]
  {
    CleanUnder(root, name);
    CleanIdempotentStack(root + "/" + name);
  }

  lemma JoinUnderRooted(root: string, name: string)
    requires root != "" && NormalName(name)
    ensures Rooted(Join(root, name)) == Rooted(root)
  {
    var s := root + "/" + name;
    CleanStackWellFormed(s);
    RenderRooted(Rooted(s), CleanStack(s));
    assert s[0] == root[0];
  }

  lemma JoinUnderText(root: string, name: string)
    requires root != "" && NormalName(name)
    ensures CleanStack(root) != [] ==> Join(root, name) == Clean(root) + "/" + name
  {
    CleanUnder(root, name);
    if CleanStack(root) != [] {
      JoinSlashPush(CleanStack(root), name);
    }
  }

  /** The clean form of a path has the same elements as the path. */
  lemma CleanIdempotentStack(s: string)
    ensures CleanStack(Clean(s)) == CleanStack(s)
  {
    var r, st := Rooted(s), CleanStack(s);
    CleanStackWellFormed(s);
    if r && st == [] {
      CleanRoot();
      assert CleanStack("/") == [];
    } else if r {
      SplitAfterRoot(st);
      assert Clean(s) == "/" + JoinSlash(st);
    } else if st == [] {
      assert Clean(s) == ".";
      assert Split(".") == ["."];
    } else {
      RenderRooted(r, st);
      SplitJoin(st);
      FoldOfWellFormed(r, st);
    }
  }

  /** ".." is accepted as a file name and resolves to the root's parent. */
  lemma BuildPathDotDotEscapes(ps: PathService, category: string, target: string)
    requires ResolveRoot(ps, category, target).Ok?
    requires var root := ResolveRoot(ps, category, target).value;
      root != "" && CleanStack(root) != [] && CleanStack(root)[|CleanStack(root)| - 1] != ".."
    ensures var root := ResolveRoot(ps, category, target).value;
      BuildPath(ps, category, target, "..")
        == Ok(Render(Rooted(root), CleanStack(root)[..|CleanStack(root)| - 1]))
  {
    var root := ResolveRoot(ps, category, target).value;
    assert BuildPath(ps, category, target, "..") == Ok(Join(root, "..")) by {
      DotDotAccepted();
      BuildPathJoins(ps, category, target, "..", "..");
    }
    assert Join(root, "..") == Render(Rooted(root), CleanStack(root)[..|CleanStack(root)| - 1]) by {
      JoinDotDot(root);
    }
  }

  /** With a root and an accepted name, BuildPath is the join of the two. */
  lemma BuildPathJoins(ps: PathService, category: string, target: string, fileName: string, name: string)
    requires ResolveRoot(ps, category, target).Ok? && ResolveRoot(ps, category, target).value != ""
    requires NormalizeArtifactFileName(fileName) == Ok(name)
    ensures BuildPath(ps, category, target, fileName) == Ok(Join(ResolveRoot(ps, category, target).value, name))
  {
    TrimSpaceOfTrimmed(ResolveRoot(ps, category, target).value);
  }

  lemma DotDotAccepted()
    ensures NormalizeArtifactFileName("..") == Ok("..")
  {
    var d := "..";
    assert Base(d) == d by {
      assert StripTrailingSlashes(d) == d;
      LastSlashNone(d);
    }
    assert TrimSpace(d) == d by {
      TrimSpaceOfTrimmed(d);
    }
  }

  lemma JoinDotDot(root: string)
    requires root != "" && CleanStack(root) != [] && CleanStack(root)[|CleanStack(root)| - 1] != ".."
    ensures Join(root, "..") == Render(Rooted(root), CleanStack(root)[..|CleanStack(root)| - 1])
  {
    CleanParent(root);
    assert (root + "/" + "..")[0] == root[0];
  }

  /** BuildAllPaths: the backend, Baidu and other_local paths of one name;
      the first failure is the answer. */
  function BuildAllPaths(ps: PathService, category: string, fileName: string): (r: Result<ArtifactPathSet>)
    ensures r.Ok? <==> BuildPath(ps, category, Backend, fileName).Ok?
                       && BuildPath(ps, category, BaiduNetdisk, fileName).Ok?
                       && BuildPath(ps, category, OtherLocal, fileName).Ok?
    ensures r.Ok? ==> r.value == ArtifactPathSet(BuildPath(ps, category, Backend, fileName).value,
                                                 BuildPath(ps, category, BaiduNetdisk, fileName).value,
                                                 BuildPath(ps, category, OtherLocal, fileName).value)
    ensures BuildPath(ps, category, Backend, fileName).Err? ==> r == Err(BuildPath(ps, category, Backend, fileName).error)
  {
    var backendPath :- BuildPath(ps, category, Backend, fileName);
    var baiduPath :- BuildPath(ps, category, BaiduNetdisk, fileName);
    var otherPath :- BuildPath(ps, category, OtherLocal, fileName);
    Ok(ArtifactPathSet(backendPath, baiduPath, otherPath))
  }

  /** Every root of the service is set to non-blank text. */
  predicate Configured(ps: PathService)
  {
    TrimSpace(ps.backendWeightsRoot) != "" && TrimSpace(ps.backendDatasetsRoot) != ""
    && TrimSpace(ps.baiduWeightsRoot) != "" && TrimSpace(ps.baiduDatasetsRoot) != ""
    && TrimSpace(ps.otherWeightsRoot) != "" && TrimSpace(ps.otherDatasetsRoot) != ""
  }

  /** With every root configured, BuildAllPaths fails exactly when the
      category or the file name is refused. */
  lemma BuildAllPathsConfigured(ps: PathService, category: string, fileName: string)
    requires Configured(ps)
    ensures BuildAllPaths(ps, category, fileName).Ok?
        <==> NormalizeCategory(category).Ok? && NormalizeArtifactFileName(fileName).Ok?
  {
    CanonicalBackend();
    CanonicalBaidu();
    CanonicalOther();
  }

  /** GenerateStoredFileName, with the random hex suffix as a parameter:
      the artifact name (or the upload's stem), sanitised, then "_", the
      suffix, and the upload's extension. */
  function GenerateStoredFileName(artifactName: string, originalFilename: string, suffix: string): (r: Result<string>)
    ensures r.Err? <==> TrimSpace(Base(originalFilename)) in {"", ".", "/"}
    ensures r.Err? ==> r.error == InvalidUploadFile
  {
    var original := TrimSpace(Base(originalFilename));
    if original == "" || original == "." || original == "/" then Err(InvalidUploadFile)
    else Ok(StoredStem(artifactName, original) + "_" + suffix + Ext(original))
  }

  /** The name part of a stored file: the trimmed artifact name, or else the
      upload's base name without its extension, sanitised. */
  function StoredStem(artifactName: string, original: string): (r: string)
    ensures IsSanitized(r)
  {
    var ext := Ext(original);
    var base0 := TrimSpace(artifactName);
    var base1 := if base0 == "" then TrimSuffix(original, ext) else base0;
    var base2 := Sanitized(base1);
    SanitizedShape(base1);
    SanitizedTrimmed(base2);
    if TrimSpace(base2) == "" then "file" else base2
  }

  /** The 12 lower-case hex digits taken from the SHA-1 of a UUID. */
  predicate IsHexSuffix(s: string)
  {
    |s| == 12 && forall i :: 0 <= i < |s| ==> s[i] in "0123456789abcdef"
  }

  /** The upload's trimmed base name, when accepted, is a non-empty trimmed
      name without separators. */
  lemma UploadBaseName(originalFilename: string)
    requires TrimSpace(Base(originalFilename)) !in {"", ".", "/"}
    ensures var original := TrimSpace(Base(originalFilename));
      original != "" && '/' !in original && IsTrimmed(original)
  {
    var b := Base(originalFilename);
    BaseShape(originalFilename);
    TrimSpaceEnds(b);
    if '/' in TrimSpace(b) {
      TrimSpaceChars(b, '/');
    }
  }

  /** A sanitised stem, "_", a hex suffix and an extension ending in a
      non-space form a plain name. */
  lemma StoredNamePlain(base: string, suffix: string, ext: string)
    requires IsSanitized(base) && IsHexSuffix(suffix)
    requires '/' !in ext && (ext == [] || !IsSpace(ext[|ext| - 1]))
    ensures IsPlainName(base + "_" + suffix + ext)
  {
    var n := base + "_" + suffix + ext;
    AllowedNotSpace(base[0]);
    assert n[0] == base[0];
    if ext == [] {
      assert n[|n| - 1] == suffix[11];
    } else {
      assert n[|n| - 1] == ext[|ext| - 1];
    }
    forall i | 0 <= i < |n|
      ensures n[i] != '/'
    {
      if i < |base| {
        assert n[i] == base[i];
      } else if i == |base| {
        assert n[i] == '_';
      } else if i < |base| + 1 + |suffix| {
        assert n[i] == suffix[i - |base| - 1];
      } else {
        assert n[i] == ext[i - |base| - 1 - |suffix|];
      }
    }
    assert n[|base|] == '_';
  }

  /** The stored name keeps the upload's extension and is itself a plain
      name that BuildPath accepts unchanged. */
  lemma StoredFileNameShape(artifactName: string, originalFilename: string, suffix: string)
    requires IsHexSuffix(suffix)
    requires GenerateStoredFileName(artifactName, originalFilename, suffix).Ok?
    ensures var n := GenerateStoredFileName(artifactName, originalFilename, suffix).value;
      && HasSuffix(n, Ext(TrimSpace(Base(originalFilename))))
      && IsPlainName(n)
      && NormalizeArtifactFileName(n) == Ok(n)
  {
    var original := TrimSpace(Base(originalFilename));
    UploadBaseName(originalFilename);
    var ext := Ext(original);
    var base := StoredStem(artifactName, original);
    var n := base + "_" + suffix + ext;
    assert n[|n| - |ext|..] == ext;
    if ext != [] {
      assert ext[|ext| - 1] == original[|original| - 1];
    }
    StoredNamePlain(base, suffix, ext);
    PlainNameAccepted(n);
  }

  /** deriveFileName: the normalised name given, else the base name of the
      legacy path (with Windows separators turned into '/'), else "". */
  function DeriveFileName(fileName: string, legacyPath: string): (r: string)
    ensures r == "" || IsPlainName(r)
  {
    var name := TrimSpace(fileName);
    var fromName := NormalizeArtifactFileName(name);
    NormalizedIsPlain(name);
    if name != "" && fromName.Ok? then fromName.value
    else
      var legacy := TrimSpace(BackslashToSlash(legacyPath));
      if legacy == "" then ""
      else
        var derived := NormalizeArtifactFileName(legacy);
        NormalizedIsPlain(legacy);
        if derived.Ok? then derived.value else ""
  }

  /** A plain name is derived as itself, whatever the legacy path. */
  lemma DeriveKeepsPlainName(name: string, legacyPath: string)
    requires IsPlainName(name)
    ensures DeriveFileName(name, legacyPath) == name
  {
    TrimSpaceOfTrimmed(name);
    PlainNameAccepted(name);
  }

  /** Without a usable name the legacy path's base name is used. */
  lemma DeriveFromLegacy(legacyDir: string, name: string)
    requires IsPlainName(name) && '\\' !in name && '\\' !in legacyDir
    requires legacyDir == "" || !IsSpace(legacyDir[0])
    ensures DeriveFileName("", legacyDir + "/" + name) == name
  {
    var legacy := legacyDir + "/" + name;
    BackslashFree(legacy);
    assert legacy[|legacy| - 1] == name[|name| - 1];
    assert legacy[0] == (if legacyDir == "" then '/' else legacyDir[0]);
    TrimSpaceOfTrimmed(legacy);
    NameBelowAccepted(legacyDir, name);
    assert TrimSpace("") == "";
  }

  lemma BackslashFree(s: string)
    requires '\\' !in s
    ensures BackslashToSlash(s) == s
  {
  }

  lemma NameBelowAccepted(dir: string, name: string)
    requires IsPlainName(name)
    ensures NormalizeArtifactFileName(dir + "/" + name) == Ok(name)
  {
    BaseBelow(dir, name);
    TrimSpaceOfTrimmed(name);
  }
}
