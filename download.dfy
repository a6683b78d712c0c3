/** sdownloader/download.py: the Scene and Scenes containers and the generic
    S3 download loop shared by the satellite downloaders. */
module Download {
  import opened Errors
  import opened Text
  import opened PosixPath
  import opened Common

  // ---------------------------------------------------------------------
  // Classifying files

  /** Whether `add` files `f` as the scene's zip file:
      `os.path.splitext(os.path.basename(f))[-1] in ['.gz', '.bz', '.bz2']`.
      The test is reached through `ArchiveTest`, whose `depth` argument is never
      a literal, so the verifier does not expand the string computation on its
      own: the bucket proofs treat the test as given, and `ArchiveByExtension`
      opens it where the extension matters. */
  predicate IsArchive(f: string) {
    ArchiveTest(f, |f| + 1)
  }

  predicate ArchiveTest(f: string, depth: nat)
    decreases depth
  {
    if depth > |f| then ArchiveTest(f, |f|) else ArchiveExtension(Ext(BaseName(f)))
  }

  /** Membership in `['.gz', '.bz', '.bz2']`. */
  predicate ArchiveExtension(e: string) {
    e == ".gz" || e == ".bz" || e == ".bz2"
  }

  /** A file is an archive exactly when its extension is one of the three. */
  lemma ArchiveByExtension(f: string)
    ensures IsArchive(f) <==> ArchiveExtension(Ext(BaseName(f)))
  {
    assert IsArchive(f) == ArchiveTest(f, |f|);
  }

  /** The files of `fs` that are not archives, in order. */
  function BandFilesOf(fs: seq<string>): (r: seq<string>)
    ensures |r| <= |fs|
  {
    if fs == [] then []
    else
      var last := fs[|fs| - 1];
      var rest := BandFilesOf(fs[..|fs| - 1]);
      if IsArchive(last) then rest else rest + [last]
  }

  /** The archives of `fs`, in order. */
  function ArchivesOf(fs: seq<string>): (r: seq<string>)
    ensures |r| <= |fs|
  {
    if fs == [] then []
    else
      var last := fs[|fs| - 1];
      var rest := ArchivesOf(fs[..|fs| - 1]);
      if IsArchive(last) then rest + [last] else rest
  }

  /** The archive added last, if any: the one `zip_file` holds. */
  function LastArchive(fs: seq<string>): Option<string>
  {
    var a := ArchivesOf(fs);
    if a == [] then None else Some(a[|a| - 1])
  }

  /** Every added file lands in exactly one bucket: the band files and the
      archives together are a rearrangement of all the files. */
  lemma {:induction false} BucketsPartition(fs: seq<string>)
    ensures multiset(BandFilesOf(fs)) + multiset(ArchivesOf(fs)) == multiset(fs)
  {
    if fs != [] {
      var init := fs[..|fs| - 1];
      BucketsPartition(init);
      assert fs == init + [fs[|fs| - 1]];
    }
  }

  /** The band files are exactly the files that are not archives, and the
      archives exactly the files that are. */
  lemma {:induction false} BucketsClassify(fs: seq<string>)
    ensures forall f :: f in BandFilesOf(fs) <==> f in fs && !IsArchive(f)
    ensures forall f :: f in ArchivesOf(fs) <==> f in fs && IsArchive(f)
  {
    if fs != [] {
      var init := fs[..|fs| - 1];
      BucketsClassify(init);
      assert fs == init + [fs[|fs| - 1]];
    }
  }

  /** The zip file is the last archive added: an archive followed only by
      band files is the zip file, whatever came before it. */
  lemma {:induction false} LaterArchiveWins(fs: seq<string>, a: string, bands: seq<string>)
    requires IsArchive(a)
    requires forall k :: 0 <= k < |bands| ==> !IsArchive(bands[k])
    ensures LastArchive(fs + [a] + bands) == Some(a)
    decreases |bands|
  {
    if bands == [] {
      assert (fs + [a])[..|fs|] == fs;
    } else {
      var init := bands[..|bands| - 1];
      assert (fs + [a] + bands)[..|fs| + 1 + |init|] == fs + [a] + init;
      LaterArchiveWins(fs, a, init);
    }
  }

  /** A scene whose files hold no archive has no zip file. */
  lemma {:induction false} NoArchiveNoZip(fs: seq<string>)
    requires forall k :: 0 <= k < |fs| ==> !IsArchive(fs[k])
    ensures LastArchive(fs) == None && BandFilesOf(fs) == fs
  {
    if fs != [] {
      NoArchiveNoZip(fs[..|fs| - 1]);
      assert fs == fs[..|fs| - 1] + [fs[|fs| - 1]];
    }
  }

  /** Appending files one by one extends both buckets the same way as
      classifying the whole list at once. */
  lemma BucketsOfSnoc(fs: seq<string>, f: string)
    ensures BandFilesOf(fs + [f]) == if IsArchive(f) then BandFilesOf(fs) else BandFilesOf(fs) + [f]
    ensures LastArchive(fs + [f]) == if IsArchive(f) then Some(f) else LastArchive(fs)
  {
    assert (fs + [f])[..|fs|] == fs;
  }

  /** What the constructor's `files` argument is: one string, a list, or
      anything else (None included), which adds nothing. */
  datatype FilesArg = OneFile(f: string) | FileList(fs: seq<string>) | NoFiles

  function Seeded(arg: FilesArg): seq<string> {
    match arg
    case OneFile(f) => [f]
    case FileList(fs) => fs
    case NoFiles => []
  }

  /** The entries of an extracted directory that `glob(join(path, '*' + suffix))`
      returns: names ending in `suffix` that are not hidden, joined to `path`,
      in listing order. */
  function Glob(path: string, listing: seq<string>, suffix: string): (r: seq<string>)
    ensures |r| <= |listing|
  {
    if listing == [] then []
    else
      var e := listing[0];
      var rest := Glob(path, listing[1..], suffix);
      if |e| > 0 && e[0] != '.' && EndsWith(e, suffix) then [PathJoin(path, e)] + rest else rest
  }

  /** The patterns `unzip` collects, in this order. */
  const ImageFormats := [".tif", ".TIF", ".jp2"]

  /** The matches of each pattern of `formats` in turn. */
  function GlobAll(path: string, listing: seq<string>, formats: seq<string>): seq<string>
  {
    if formats == [] then []
    else GlobAll(path, listing, formats[..|formats| - 1]) + Glob(path, listing, formats[|formats| - 1])
  }

  lemma GlobAllStep(path: string, listing: seq<string>, formats: seq<string>, i: int)
    requires 0 <= i < |formats|
    ensures GlobAll(path, listing, formats[..i + 1])
         == GlobAll(path, listing, formats[..i]) + Glob(path, listing, formats[i])
  {
    assert formats[..i + 1][..i] == formats[..i];
  }

  /** The image files `unzip` adds: the `*.tif`, then the `*.TIF`, then the `*.jp2` matches. */
  lemma GlobbedOrder(path: string, listing: seq<string>)
    ensures GlobAll(path, listing, ImageFormats)
         == Glob(path, listing, ".tif") + Glob(path, listing, ".TIF") + Glob(path, listing, ".jp2")
  {
    var f1, f2 := ImageFormats[..1], ImageFormats[..2];
    assert f1[..0] == [] && f2[..1] == f1 && ImageFormats[..2] == f2;
    assert GlobAll(path, listing, f1) == Glob(path, listing, ".tif");
    assert GlobAll(path, listing, f2) == Glob(path, listing, ".tif") + Glob(path, listing, ".TIF");
  }

  /** An entry matched by an image pattern is not an archive. */
  lemma ImageNotArchive(path: string, e: string, suffix: string)
    requires suffix in ImageFormats
    requires '/' !in e && |e| > 0 && e[0] != '.' && EndsWith(e, suffix)
    ensures !IsArchive(PathJoin(path, e))
  {
    assert |suffix| == 4 && suffix[0] == '.';
    var x := suffix[1..];
    assert suffix == "." + x;
    assert '.' !in x;
    assert e[|e| - 4..][0] == '.';
    BaseNameOfJoin(path, e);
    ExtOfSuffix(e, x);
    ExtNotArchive(PathJoin(path, e), e, suffix);
  }

  lemma ExtNotArchive(f: string, e: string, suffix: string)
    requires suffix == ".tif" || suffix == ".TIF" || suffix == ".jp2"
    requires BaseName(f) == e && Ext(e) == suffix
    ensures !IsArchive(f)
  {
    ArchiveByExtension(f);
  }

  /** No image that `unzip` collects from a listing of plain names is an archive. */
  lemma {:induction false} GlobNoArchive(path: string, listing: seq<string>, suffix: string)
    requires suffix in ImageFormats
    requires forall k :: 0 <= k < |listing| ==> '/' !in listing[k]
    ensures forall f :: f in Glob(path, listing, suffix) ==> !IsArchive(f)
  {
    if listing != [] {
      var e, rest := listing[0], listing[1..];
      assert forall k :: 0 <= k < |rest| ==> rest[k] == listing[k + 1];
      GlobNoArchive(path, rest, suffix);
      var g, h := Glob(path, listing, suffix), Glob(path, rest, suffix);
      if |e| > 0 && e[0] != '.' && EndsWith(e, suffix) {
        ImageNotArchive(path, e, suffix);
        assert g == [PathJoin(path, e)] + h;
        assert forall f :: f in g <==> f == PathJoin(path, e) || f in h;
      } else {
        assert g == h;
      }
    }
  }

  /** Adding files with no archive among them extends the band files by
      exactly those files and keeps the zip file. */
  lemma {:induction false} AppendBands(xs: seq<string>, fs: seq<string>)
    requires forall f :: f in fs ==> !IsArchive(f)
    ensures BandFilesOf(xs + fs) == BandFilesOf(xs) + fs
    ensures LastArchive(xs + fs) == LastArchive(xs)
    decreases |fs|
  {
    if fs == [] {
      assert xs + fs == xs;
    } else {
      var init, last := fs[..|fs| - 1], fs[|fs| - 1];
      assert fs == init + [last];
      assert forall f :: f in init ==> f in fs;
      AppendBands(xs, init);
      ConcatAssoc(xs, init, [last]);
      BucketsOfSnoc(xs + init, last);
    }
  }

  // ---------------------------------------------------------------------
  // Scene

  class Scene {
    const name: string
    var zipped: bool
    var files: seq<string>
    var zipFile: Option<string>
    var bandFiles: seq<string>

    /** `files` holds every file added, in order; `band_files` its non-archives;
        `zip_file` its last archive; a zipped scene has one. */
    predicate Valid()
      reads this
    {
      && bandFiles == BandFilesOf(files)
      && zipFile == LastArchive(files)
      && (zipped ==> zipFile.Some?)
    }

    /** `Scene(name, files)`: a string is added once, a list element by element,
        anything else adds nothing. */
    constructor (name: string, arg: FilesArg)
      ensures this.name == name
      ensures files == Seeded(arg)
      ensures zipped <==> zipFile.Some?
      ensures Valid()
    {
      this.name := name;
      zipped := false;
      files := [];
      zipFile := None;
      bandFiles := [];
      new;
      AddEach(Seeded(arg));
    }

    /** `add(f)`: `f` always joins `files`; an archive becomes the zip file,
        anything else joins the band files. */
    method Add(f: string)
      requires Valid()
      modifies this
      ensures Valid()
      ensures files == old(files) + [f]
      ensures IsArchive(f) ==> zipped && zipFile == Some(f) && bandFiles == old(bandFiles)
      ensures !IsArchive(f) ==> zipped == old(zipped) && zipFile == old(zipFile)
                                && bandFiles == old(bandFiles) + [f]
    {
      BucketsOfSnoc(files, f);
      if IsArchive(f) {
        zipped := true;
        zipFile := Some(f);
      } else {
        bandFiles := bandFiles + [f];
      }
      files := files + [f];
    }

    /** `for f in fs: self.add(f)`. */
    method AddEach(fs: seq<string>)
      requires Valid()
      modifies this
      ensures Valid()
      ensures files == old(files) + fs
      ensures old(zipped) ==> zipped
      ensures (old(zipped) <==> old(zipFile).Some?) ==> (zipped <==> zipFile.Some?)
    {
      var i := 0;
      while i < |fs|
        invariant 0 <= i <= |fs|
        invariant Valid()
        invariant files == old(files) + fs[..i]
        invariant old(zipped) ==> zipped
        invariant (old(zipped) <==> old(zipFile).Some?) ==> (zipped <==> zipFile.Some?)
      {
        assert fs[..i + 1] == fs[..i] + [fs[i]];
        Add(fs[i]);
        i := i + 1;
      }
      assert fs[..i] == fs;
    }

    /** `unzip(path)`, with the extracted directory's entries given as
        `listing` (directory entries never contain '/'). A missing or empty
        `path` defaults to the folder named after the scene beside the zip
        file, computed before the zipped check. */
    method Unzip(path: Option<string>, listing: seq<string>) returns (o: Outcome)
      requires Valid()
      requires forall k :: 0 <= k < |listing| ==> '/' !in listing[k]
      modifies this
      ensures Valid()
      ensures (path.None? || path.value == "") && zipFile.None? ==>
                o.Fail? && o.error.TypeError?
      ensures (path.Some? && path.value != "") || zipFile.Some? ==>
                if !old(zipped) then o == Fail(PlainException("Scene does not have a zip file associated with it"))
                else o.Pass?
      ensures o.Fail? ==> unchanged(this)
      ensures o.Pass? ==> && !zipped && zipFile == old(zipFile)
                          && files == old(files) + GlobAll(UnzipPath(path, old(zipFile), name), listing, ImageFormats)
                          && bandFiles == old(bandFiles) + GlobAll(UnzipPath(path, old(zipFile), name), listing, ImageFormats)
    {
      if path.None? || path.value == "" {
        if zipFile.None? {
          return Fail(TypeError("expected str, bytes or os.PathLike object, not NoneType"));
        }
      }
      if !zipped {
        return Fail(PlainException("Scene does not have a zip file associated with it"));
      }
      AddImages(UnzipPath(path, zipFile, name), listing);
      zipped := false;
      o := Pass;
    }

    /** `for f in formats: for image in glob(join(path, f)): self.add(image)`. */
    method AddImages(p: string, listing: seq<string>)
      requires Valid() && zipped
      requires forall k :: 0 <= k < |listing| ==> '/' !in listing[k]
      modifies this
      ensures Valid() && zipped && zipFile == old(zipFile)
      ensures files == old(files) + GlobAll(p, listing, ImageFormats)
      ensures bandFiles == old(bandFiles) + GlobAll(p, listing, ImageFormats)
    {
      var i := 0;
      while i < |ImageFormats|
        invariant 0 <= i <= |ImageFormats|
        invariant Valid() && zipped && zipFile == old(zipFile)
        invariant files == old(files) + GlobAll(p, listing, ImageFormats[..i])
        invariant bandFiles == old(bandFiles) + GlobAll(p, listing, ImageFormats[..i])
      {
        var images := Glob(p, listing, ImageFormats[i]);
        GlobNoArchive(p, listing, ImageFormats[i]);
        AppendBands(files, images);
        GlobAllStep(p, listing, ImageFormats, i);
        ghost var done := GlobAll(p, listing, ImageFormats[..i]);
        AddEach(images);
        ConcatAssoc(old(files), done, images);
        ConcatAssoc(old(bandFiles), done, images);
        i := i + 1;
      }
      assert ImageFormats[..i] == ImageFormats;
    }
  }

  /** The folder `unzip` extracts into. */
  function UnzipPath(path: Option<string>, zipFile: Option<string>, name: string): string {
    if path.Some? && path.value != "" then path.value
    else if zipFile.Some? then PathJoin(DirName(zipFile.value), name)
    else ""
  }

  // ---------------------------------------------------------------------
  // Scenes

  /** A Python value handed to `Scenes`, as its `isinstance` checks see it. */
  datatype PyObj = SceneObj(scene: Scene) | ScenesObj(scenes: Scenes) | OtherObj

  /** A key given to `scenes[key]`: an int, a str, or anything else. */
  datatype Key = IntKey(i: int) | StrKey(s: string) | OtherKey

  /** `validate`: a Scene passes through; anything else raises. */
  function Validate(v: PyObj): (r: Result<Scene>)
    ensures r.Success? <==> v.SceneObj?
    ensures r.Success? ==> r.value == v.scene
    ensures r.Failure? ==> r.error == PlainException("scene must be an instance of Scene")
  {
    if v.SceneObj? then Success(v.scene) else Failure(PlainException("scene must be an instance of Scene"))
  }

  /** The position Python's `xs[i]` denotes in a list of length `n`:
      negative indices count from the end. */
  function ListIndex(n: nat, i: int): (r: Option<nat>)
    ensures r.Some? <==> -(n as int) <= i < n
    ensures r.Some? ==> r.value < n && (i >= 0 ==> r.value == i) && (i < 0 ==> r.value == n + i)
  {
    if 0 <= i < n then Some(i) else if -(n as int) <= i < 0 then Some(n + i) else None
  }

  /** `__getitem__` on the two views. */
  function Lookup(list: seq<Scene>, dict: map<string, Scene>, key: Key): (r: Result<Scene>)
    ensures key.IntKey? ==> (r.Success? <==> -(|list| as int) <= key.i < |list|)
    ensures key.IntKey? && r.Success? ==> r.value == list[ListIndex(|list|, key.i).value]
    ensures key.IntKey? && r.Failure? ==> r.error == IndexError
    ensures key.StrKey? ==> (r.Success? <==> key.s in dict) && (r.Success? ==> r.value == dict[key.s])
    ensures key.StrKey? && r.Failure? ==> r.error == KeyError(key.s)
    ensures key.OtherKey? ==> r == Failure(PlainException("Key is not supported."))
  {
    match key
    case IntKey(i) =>
      var j := ListIndex(|list|, i);
      if j.None? then Failure(IndexError) else Success(list[j.value])
    case StrKey(k) => if k in dict then Success(dict[k]) else Failure(KeyError(k))
    case OtherKey => Failure(PlainException("Key is not supported."))
  }

  /** `__setitem__` on the two views: the key type is checked first, then the
      value is validated, then an int key must be in range. */
  function Store(list: seq<Scene>, dict: map<string, Scene>, key: Key, v: PyObj)
    : (r: Result<(seq<Scene>, map<string, Scene>)>)
    ensures key.OtherKey? ==> r == Failure(PlainException("Key is not supported."))
    ensures !key.OtherKey? && !v.SceneObj? ==> r == Failure(PlainException("scene must be an instance of Scene"))
    ensures key.StrKey? ==> (r.Success? <==> v.SceneObj?)
    ensures key.IntKey? ==> (r.Success? <==> v.SceneObj? && -(|list| as int) <= key.i < |list|)
    ensures key.IntKey? && r.Success? ==> && r.value.1 == dict
                                          && r.value.0 == list[ListIndex(|list|, key.i).value := v.scene]
    ensures key.IntKey? && v.SceneObj? && r.Failure? ==> r.error == IndexError
    ensures key.StrKey? && r.Success? ==> r.value.0 == list && r.value.1 == dict[key.s := v.scene]
  {
    match key
    case OtherKey => Failure(PlainException("Key is not supported."))
    case IntKey(i) =>
      var s := Validate(v);
      if s.Failure? then Failure(s.error)
      else
        var j := ListIndex(|list|, i);
        if j.None? then Failure(IndexError) else Success((list[j.value := s.value], dict))
    case StrKey(k) =>
      var s := Validate(v);
      if s.Failure? then Failure(s.error) else Success((list, dict[k := s.value]))
  }

  /** Reading a key right after storing a Scene under it gives that Scene;
      the other view is left as it was. */
  lemma StoreThenLookup(list: seq<Scene>, dict: map<string, Scene>, key: Key, v: PyObj)
    requires Store(list, dict, key, v).Success?
    ensures var (l, d) := Store(list, dict, key, v).value;
      Lookup(l, d, key) == Success(v.scene)
  {
  }

  /** The map `add` builds: each scene registered under its name, later ones
      replacing earlier ones. */
  function Register(m: map<string, Scene>, l: seq<Scene>): map<string, Scene>
    decreases |l|
  {
    if l == [] then m else Register(m[l[0].name := l[0]], l[1..])
  }

  /** The names that occur in `l`. */
  function NameSet(l: seq<Scene>): set<string> {
    set k | 0 <= k < |l| :: l[k].name
  }

  lemma {:induction false} RegisterSnoc(m: map<string, Scene>, l: seq<Scene>, s: Scene)
    ensures Register(m, l + [s]) == Register(m, l)[s.name := s]
    decreases |l|
  {
    if l == [] {
      assert [s][1..] == [];
    } else {
      assert (l + [s])[1..] == l[1..] + [s];
      RegisterSnoc(m[l[0].name := l[0]], l[1..], s);
    }
  }

  /** The registered names are the old keys plus every name in the list. */
  lemma {:induction false} RegisterKeys(m: map<string, Scene>, l: seq<Scene>)
    ensures Register(m, l).Keys == m.Keys + NameSet(l)
    decreases |l|
  {
    if l != [] {
      RegisterKeys(m[l[0].name := l[0]], l[1..]);
      assert NameSet(l) == {l[0].name} + NameSet(l[1..]) by {
        forall n | n in NameSet(l) ensures n in {l[0].name} + NameSet(l[1..]) {
          var k :| 0 <= k < |l| && l[k].name == n;
          if k > 0 { assert l[1..][k - 1] == l[k]; }
        }
        forall n | n in NameSet(l[1..]) ensures n in NameSet(l) {
          var k :| 0 <= k < |l[1..]| && l[1..][k].name == n;
          assert l[k + 1] == l[1..][k];
        }
      }
    }
  }

  /** A name maps to the last scene of the list that carries it. */
  lemma {:induction false} RegisterLast(m: map<string, Scene>, l: seq<Scene>, i: int)
    requires 0 <= i < |l|
    requires forall j :: i < j < |l| ==> l[j].name != l[i].name
    ensures l[i].name in Register(m, l) && Register(m, l)[l[i].name] == l[i]
    decreases |l|
  {
    if i == 0 {
      RegisterKeep(m[l[0].name := l[0]], l[1..], l[0].name);
    } else {
      forall j | i - 1 < j < |l[1..]| ensures l[1..][j].name != l[1..][i - 1].name {
        assert l[1..][j] == l[j + 1];
      }
      RegisterLast(m[l[0].name := l[0]], l[1..], i - 1);
    }
  }

  /** A name no scene of the list carries keeps its entry. */
  lemma {:induction false} RegisterKeep(m: map<string, Scene>, l: seq<Scene>, n: string)
    requires n in m
    requires forall j :: 0 <= j < |l| ==> l[j].name != n
    ensures n in Register(m, l) && Register(m, l)[n] == m[n]
    decreases |l|
  {
    if l != [] {
      forall j | 0 <= j < |l[1..]| ensures l[1..][j].name != n {
        assert l[1..][j] == l[j + 1];
      }
      RegisterKeep(m[l[0].name := l[0]], l[1..], n);
    }
  }

  class Scenes {
    var scenesList: seq<Scene>
    var scenesDict: map<string, Scene>

    /** The views agree as `add` alone keeps them: the map registers every
        scene of the list under its name, the last of each name winning. */
    predicate Coherent()
      reads this
    {
      scenesDict == Register(map[], scenesList)
    }

    /** `Scenes()`. */
    constructor ()
      ensures scenesList == [] && scenesDict == map[]
      ensures Coherent()
    {
      scenesList := [];
      scenesDict := map[];
    }

    /** `Scenes(scenes)`: validate and add each item; the first non-Scene raises. */
    static method Build(items: seq<PyObj>) returns (r: Result<Scenes>)
      ensures r.Success? <==> forall k :: 0 <= k < |items| ==> items[k].SceneObj?
      ensures r.Failure? ==> r.error == PlainException("scene must be an instance of Scene")
      ensures r.Success? ==>
        && fresh(r.value) && r.value.Coherent()
        && |r.value.scenesList| == |items|
        && (forall k :: 0 <= k < |items| ==> r.value.scenesList[k] == items[k].scene)
    {
      var s := new Scenes();
      var i := 0;
      while i < |items|
        invariant 0 <= i <= |items|
        invariant fresh(s) && s.Coherent()
        invariant forall k :: 0 <= k < i ==> items[k].SceneObj?
        invariant |s.scenesList| == i && forall k :: 0 <= k < i ==> s.scenesList[k] == items[k].scene
      {
        var o := s.Add(items[i]);
        if o.Fail? {
          return Failure(o.error);
        }
        i := i + 1;
      }
      r := Success(s);
    }

    /** `scenes[key]`. */
    function Get(key: Key): (r: Result<Scene>)
      reads this
      ensures r == Lookup(scenesList, scenesDict, key)
      ensures key.StrKey? && Coherent() && r.Success? ==> r.value.name == key.s
    {
      if key.StrKey? && Coherent() && key.s in scenesDict then
        RegisterNames(map[], scenesList, key.s);
        Lookup(scenesList, scenesDict, key)
      else Lookup(scenesList, scenesDict, key)
    }

    /** `scenes[key] = value`: an int key writes the list only, a str key the map only. */
    method SetItem(key: Key, v: PyObj) returns (o: Outcome)
      modifies this
      ensures var r := Store(old(scenesList), old(scenesDict), key, v);
        && (r.Failure? ==> o == Fail(r.error) && unchanged(this))
        && (r.Success? ==> o == Pass && scenesList == r.value.0 && scenesDict == r.value.1)
    {
      var r := Store(scenesList, scenesDict, key, v);
      if r.Failure? {
        return Fail(r.error);
      }
      scenesList, scenesDict := r.value.0, r.value.1;
      o := Pass;
    }

    /** `len(scenes)`: the number of keys of the map. */
    function Len(): (n: nat)
      reads this
      ensures Coherent() ==> n == |NameSet(scenesList)|
    {
      RegisterKeys(map[], scenesList);
      |scenesDict.Keys|
    }

    /** The `scenes` property: the names in list order, repeats included. */
    function Names(): (r: seq<string>)
      reads this
      ensures |r| == |scenesList|
      ensures forall k :: 0 <= k < |r| ==> r[k] == scenesList[k].name
    {
      seq(|scenesList|, k requires 0 <= k < |scenesList| reads this => scenesList[k].name)
    }

    /** `add(scene)`: appended to the list and registered under its name. */
    method Add(v: PyObj) returns (o: Outcome)
      modifies this
      ensures v.SceneObj? ==> && o == Pass
                              && scenesList == old(scenesList) + [v.scene]
                              && scenesDict == old(scenesDict)[v.scene.name := v.scene]
      ensures !v.SceneObj? ==> o == Fail(PlainException("scene must be an instance of Scene")) && unchanged(this)
      ensures old(Coherent()) ==> Coherent()
    {
      var s := Validate(v);
      if s.Failure? {
        return Fail(s.error);
      }
      RegisterSnoc(map[], scenesList, s.value);
      scenesList := scenesList + [s.value];
      scenesDict := scenesDict[s.value.name := s.value];
      o := Pass;
    }

    /** `add_with_files(name, files)`: a new Scene built from the files, added. */
    method AddWithFiles(name: string, files: FilesArg) returns (s: Scene)
      modifies this
      ensures fresh(s) && s.name == name && s.files == Seeded(files) && s.Valid()
      ensures scenesList == old(scenesList) + [s] && scenesDict == old(scenesDict)[name := s]
      ensures old(Coherent()) ==> Coherent()
    {
      s := new Scene(name, files);
      var o := Add(SceneObj(s));
    }

    /** `merge(scenes)`: every scene of the other collection, in its list order,
        is added. Merging a collection into itself never ends in Python (the
        list grows while it is walked), so the other collection must be a
        different object. */
    method Merge(other: PyObj) returns (o: Outcome)
      requires other.ScenesObj? ==> other.scenes != this
      modifies this
      ensures other.ScenesObj? ==> && o == Pass
                                   && scenesList == old(scenesList) + other.scenes.scenesList
                                   && scenesDict == Register(old(scenesDict), other.scenes.scenesList)
      ensures !other.ScenesObj? ==> o == Fail(PlainException("scenes must be an instance of Scenes")) && unchanged(this)
      ensures old(Coherent()) ==> Coherent()
    {
      if !other.ScenesObj? {
        return Fail(PlainException("scenes must be an instance of Scenes"));
      }
      var src := other.scenes;
      var i := 0;
      while i < |src.scenesList|
        invariant 0 <= i <= |src.scenesList|
        invariant scenesList == old(scenesList) + src.scenesList[..i]
        invariant scenesDict == Register(old(scenesDict), src.scenesList[..i])
        invariant old(Coherent()) ==> Coherent()
      {
        var s := src.scenesList[i];
        assert src.scenesList[..i + 1] == src.scenesList[..i] + [s];
        RegisterSnoc(old(scenesDict), src.scenesList[..i], s);
        var r := Add(SceneObj(s));
        RegisterAppend(map[], old(scenesList), src.scenesList[..i + 1]);
        i := i + 1;
      }
      assert src.scenesList[..i] == src.scenesList;
      o := Pass;
    }
  }

  /** Registering two lists in turn is registering their concatenation. */
  lemma {:induction false} RegisterAppend(m: map<string, Scene>, a: seq<Scene>, b: seq<Scene>)
    ensures Register(m, a + b) == Register(Register(m, a), b)
    decreases |a|
  {
    if a == [] {
      assert a + b == b;
    } else {
      assert (a + b)[1..] == a[1..] + b;
      RegisterAppend(m[a[0].name := a[0]], a[1..], b);
    }
  }

  /** Each registered name maps to a scene that carries it. */
  lemma {:induction false} RegisterNames(m: map<string, Scene>, l: seq<Scene>, n: string)
    requires forall k :: k in m ==> m[k].name == k
    requires n in Register(m, l)
    ensures Register(m, l)[n].name == n
    decreases |l|
  {
    if l != [] {
      var m1 := m[l[0].name := l[0]];
      assert forall k :: k in m1 ==> m1[k].name == k;
      RegisterNames(m1, l[1..], n);
    }
  }

  /** Two scenes under one name: the map counts one, the list holds both. */
  method DuplicateNames() returns (len: nat, names: seq<string>)
    ensures len == 1 && names == ["LC8", "LC8"]
  {
    var c := new Scenes();
    var a := new Scene("LC8", NoFiles);
    var b := new Scene("LC8", NoFiles);
    var o1 := c.Add(SceneObj(a));
    var o2 := c.Add(SceneObj(b));
    len := c.Len();
    names := c.Names();
  }

  // ---------------------------------------------------------------------
  // S3DownloadMixin.s3

  /** What a downloader plugs into the mixin: the remote oracle (the URLs that
      answer HEAD with 200), the bands (`None` when the caller gave none), the
      download directory, and its `scene_interpreter` and `amazon_s3_url`. */
  datatype S3Setup<!P> = S3Setup(
    live: set<string>,
    bands: Option<seq<Band>>,
    dir: string,
    interpret: string -> Result<P>,
    s3Url: (P, Band) -> string)

  /** The URLs of a scene's bands, in band order. */
  function BandUrls<P>(p: P, bands: seq<Band>, s3Url: (P, Band) -> string): (r: seq<string>)
    ensures |r| == |bands|
    decreases |bands|
  {
    if bands == [] then [] else BandUrls(p, bands[..|bands| - 1], s3Url) + [s3Url(p, bands[|bands| - 1])]
  }

  lemma {:induction false} BandUrlsAt<P>(p: P, bands: seq<Band>, s3Url: (P, Band) -> string, k: int)
    requires 0 <= k < |bands|
    ensures BandUrls(p, bands, s3Url)[k] == s3Url(p, bands[k])
    decreases |bands|
  {
    if k < |bands| - 1 {
      BandUrlsAt(p, bands[..|bands| - 1], s3Url, k);
    }
  }

  predicate AllLive(live: set<string>, urls: seq<string>) {
    forall u :: u in urls ==> u in live
  }

  /** The folder a scene is stored in: its name with '/' turned into '_',
      joined to the download directory. */
  function SceneFolder(dir: string, scene: string): string {
    PathJoin(dir, ReplaceChar(scene, '/', '_'))
  }

  /** What can be decided about a scene before anything is written: its
      interpretation, the band list, and the existence of every band URL.
      Yields the URLs to fetch, or the exception raised. (`PlanAt` carries the
      definition; the extra step keeps it folded until `ScenePlanSpec`.) */
  function ScenePlan<P>(c: S3Setup<P>, scene: string): Result<seq<string>> {
    PlanAt(c, scene, |scene| + 1)
  }

  function PlanAt<P>(c: S3Setup<P>, scene: string, depth: nat): Result<seq<string>>
    decreases depth
  {
    if depth > |scene| then PlanAt(c, scene, |scene|)
    else
      var p := c.interpret(scene);
      if p.Failure? then Failure(p.error)
      else if c.bands.None? then Failure(TypeError("'NoneType' object is not iterable"))
      else
        var urls := BandUrls(p.value, c.bands.value, c.s3Url);
        if AllLive(c.live, urls) then Success(urls) else Failure(RemoteFileDoesntExist(""))
  }

  /** The plan succeeds exactly when the scene is understood, bands were
      given and every band's URL exists; its URLs are the band URLs in order.
      It fails with the interpreter's exception, then with the TypeError of
      iterating `None`, then with RemoteFileDoesntExist, in that order. */
  lemma ScenePlanSpec<P>(c: S3Setup<P>, scene: string)
    ensures var r := ScenePlan(c, scene); var p := c.interpret(scene);
      && (r.Success? <==> p.Success? && c.bands.Some?
                          && forall k :: 0 <= k < |c.bands.value| ==> c.s3Url(p.value, c.bands.value[k]) in c.live)
      && (r.Success? ==> |r.value| == |c.bands.value|
                         && forall k :: 0 <= k < |r.value| ==> r.value[k] == c.s3Url(p.value, c.bands.value[k]))
      && (p.Failure? ==> r == Failure(p.error))
      && (p.Success? && c.bands.None? ==> r == Failure(TypeError("'NoneType' object is not iterable")))
      && (p.Success? && c.bands.Some? && r.Failure? ==> r == Failure(RemoteFileDoesntExist("")))
  {
    assert ScenePlan(c, scene) == PlanAt(c, scene, |scene|);
    var p := c.interpret(scene);
    if p.Success? && c.bands.Some? {
      var bs := c.bands.value;
      var urls := BandUrls(p.value, bs, c.s3Url);
      forall k | 0 <= k < |bs| ensures urls[k] == c.s3Url(p.value, bs[k]) {
        BandUrlsAt(p.value, bs, c.s3Url, k);
      }
    }
  }

  /** One scene of the loop: plan, create its folder, fetch every URL into it. */
  function S3SceneRun<P>(d: Disk, c: S3Setup<P>, scene: string): (Result<seq<string>>, Disk) {
    var plan := ScenePlan(c, scene);
    if plan.Failure? then (Failure(plan.error), d)
    else
      var folder := SceneFolder(c.dir, scene);
      var fetched := FetchAll(CreateFolder(d, folder), plan.value, folder, []);
      (Success(fetched.0), fetched.1)
  }

  /** Nothing is written for a scene unless its whole plan succeeds; then its
      folder exists, each URL's target is present, the files returned are those
      targets in band order, and nothing present before is lost. */
  lemma S3SceneRunSpec<P>(d: Disk, c: S3Setup<P>, scene: string)
    ensures var (r, d1) := S3SceneRun(d, c, scene); var plan := ScenePlan(c, scene);
      var folder := SceneFolder(c.dir, scene);
      && (r.Success? <==> plan.Success?)
      && (r.Failure? ==> r.error == plan.error && d1 == d)
      && (r.Success? ==> && r.value == Targets(plan.value, folder)
                         && d1.Exists(folder) && d.folders <= d1.folders && d.files <= d1.files
                         && forall f :: f in r.value ==> d1.Exists(f))
  {
    var plan := ScenePlan(c, scene);
    if plan.Success? {
      var folder := SceneFolder(c.dir, scene);
      FetchAllPaths(CreateFolder(d, folder), plan.value, folder, []);
      FetchAllFiles(CreateFolder(d, folder), plan.value, folder, []);
    }
  }

  /** A scene whose folder and targets are all present already is stored
      again without touching the disk. */
  lemma S3SceneRunPresent<P>(d: Disk, c: S3Setup<P>, scene: string)
    requires ScenePlan(c, scene).Success?
    requires d.Exists(SceneFolder(c.dir, scene))
    requires forall f :: f in Targets(ScenePlan(c, scene).value, SceneFolder(c.dir, scene)) ==> d.Exists(f)
    ensures S3SceneRun(d, c, scene) == (Success(Targets(ScenePlan(c, scene).value, SceneFolder(c.dir, scene))), d)
  {
    var urls := ScenePlan(c, scene).value;
    var folder := SceneFolder(c.dir, scene);
    assert CreateFolder(d, folder) == d;
    FetchAllPresent(d, urls, folder, []);
    FetchAllPaths(d, urls, folder, []);
    assert [] + Targets(urls, folder) == Targets(urls, folder);
  }

  /** What the mixin records for one scene: `add_with_files(scene, files)`. */
  datatype SceneRecord = SceneRecord(name: string, files: seq<string>)

  /** The loop of `s3` over the scene list, after the records in `acc`; the
      first exception ends it, keeping what was written so far. */
  function S3Run<P>(d: Disk, c: S3Setup<P>, scenes: seq<string>, acc: seq<SceneRecord>)
    : (Result<seq<SceneRecord>>, Disk)
    decreases |scenes|
  {
    if scenes == [] then (Success(acc), d)
    else
      var (r, d1) := S3SceneRun(d, c, scenes[0]);
      if r.Failure? then (Failure(r.error), d1)
      else S3Run(d1, c, scenes[1..], acc + [SceneRecord(scenes[0], r.value)])
  }

  /** One turn of the loop: the first scene's outcome decides between stopping and going on. */
  lemma S3RunStep<P>(d: Disk, c: S3Setup<P>, scenes: seq<string>, acc: seq<SceneRecord>)
    requires scenes != []
    ensures var (r, d1) := S3SceneRun(d, c, scenes[0]);
      && (r.Failure? ==> S3Run(d, c, scenes, acc) == (Failure(r.error), d1))
      && (r.Success? ==> S3Run(d, c, scenes, acc) == S3Run(d1, c, scenes[1..], acc + [SceneRecord(scenes[0], r.value)]))
  {
  }

  /** The record the loop makes for a scene whose plan succeeds: it does not
      depend on what the disk held. */
  function RecordOf<P>(c: S3Setup<P>, scene: string): SceneRecord {
    var plan := ScenePlan(c, scene);
    SceneRecord(scene, if plan.Success? then Targets(plan.value, SceneFolder(c.dir, scene)) else [])
  }

  /** The records of a list of scenes, in list order. */
  function Records<P>(c: S3Setup<P>, scenes: seq<string>): (r: seq<SceneRecord>)
    ensures |r| == |scenes|
  {
    if scenes == [] then [] else [RecordOf(c, scenes[0])] + Records(c, scenes[1..])
  }

  lemma {:induction false} RecordsAt<P>(c: S3Setup<P>, scenes: seq<string>, k: int)
    requires 0 <= k < |scenes|
    ensures Records(c, scenes)[k] == RecordOf(c, scenes[k])
    ensures Records(c, scenes)[k].name == scenes[k]
  {
    if k > 0 {
      RecordsAt(c, scenes[1..], k - 1);
    }
  }

  /** The loop succeeds exactly when every scene's plan does. */
  lemma {:induction false} S3RunSucceeds<P>(d: Disk, c: S3Setup<P>, scenes: seq<string>, acc: seq<SceneRecord>)
    ensures S3Run(d, c, scenes, acc).0.Success? <==> forall k :: 0 <= k < |scenes| ==> ScenePlan(c, scenes[k]).Success?
    decreases |scenes|
  {
    if scenes != [] {
      var (r0, d1) := S3SceneRun(d, c, scenes[0]);
      S3SceneRunSpec(d, c, scenes[0]);
      if r0.Success? {
        S3RunSucceeds(d1, c, scenes[1..], acc + [SceneRecord(scenes[0], r0.value)]);
        assert forall k :: 1 <= k < |scenes| ==> scenes[k] == scenes[1..][k - 1];
      }
    }
  }

  /** A successful loop yields the earlier records followed by the records
      of its scenes. */
  lemma {:induction false} S3RunRecords<P>(d: Disk, c: S3Setup<P>, scenes: seq<string>, acc: seq<SceneRecord>)
    requires S3Run(d, c, scenes, acc).0.Success?
    ensures S3Run(d, c, scenes, acc).0.value == acc + Records(c, scenes)
    decreases |scenes|
  {
    if scenes != [] {
      var (r0, d1) := S3SceneRun(d, c, scenes[0]);
      S3SceneRunSpec(d, c, scenes[0]);
      var acc1 := acc + [RecordOf(c, scenes[0])];
      S3RunStep(d, c, scenes, acc);
      assert S3Run(d, c, scenes, acc) == S3Run(d1, c, scenes[1..], acc1);
      S3RunRecords(d1, c, scenes[1..], acc1);
      var x, rest := RecordOf(c, scenes[0]), Records(c, scenes[1..]);
      assert Records(c, scenes) == [x] + rest;
      ConcatAssoc(acc, [x], rest);
    }
  }

  /** A failed loop reports the exception of the first scene whose plan fails. */
  lemma {:induction false} S3RunFirstFailure<P>(d: Disk, c: S3Setup<P>, scenes: seq<string>, acc: seq<SceneRecord>)
    requires S3Run(d, c, scenes, acc).0.Failure?
    ensures var e := S3Run(d, c, scenes, acc).0.error;
      exists k :: && 0 <= k < |scenes| && ScenePlan(c, scenes[k]) == Failure(e)
                  && forall j :: 0 <= j < k ==> ScenePlan(c, scenes[j]).Success?
    decreases |scenes|
  {
    var (r0, d1) := S3SceneRun(d, c, scenes[0]);
    S3SceneRunSpec(d, c, scenes[0]);
    var e := S3Run(d, c, scenes, acc).0.error;
    if r0.Failure? {
      assert ScenePlan(c, scenes[0]) == Failure(e);
    } else {
      S3RunFirstFailure(d1, c, scenes[1..], acc + [SceneRecord(scenes[0], r0.value)]);
      var k :| && 0 <= k < |scenes[1..]| && ScenePlan(c, scenes[1..][k]) == Failure(e)
               && forall j :: 0 <= j < k ==> ScenePlan(c, scenes[1..][j]).Success?;
      assert scenes[1..][k] == scenes[k + 1];
      forall j | 0 <= j < k + 1 ensures ScenePlan(c, scenes[j]).Success? {
        if j > 0 { assert scenes[1..][j - 1] == scenes[j]; }
      }
    }
  }

  /** The loop never removes a file or a folder. */
  lemma {:induction false} S3RunGrows<P>(d: Disk, c: S3Setup<P>, scenes: seq<string>, acc: seq<SceneRecord>)
    ensures var d1 := S3Run(d, c, scenes, acc).1; d.files <= d1.files && d.folders <= d1.folders
    decreases |scenes|
  {
    if scenes != [] {
      var (r0, d1) := S3SceneRun(d, c, scenes[0]);
      S3SceneRunSpec(d, c, scenes[0]);
      if r0.Success? {
        S3RunGrows(d1, c, scenes[1..], acc + [SceneRecord(scenes[0], r0.value)]);
      }
    }
  }

  /** Every scene's plan succeeds, and its folder and targets are on the disk. */
  ghost predicate Covers<P>(e: Disk, c: S3Setup<P>, scenes: seq<string>) {
    forall k :: 0 <= k < |scenes| ==> Covered(e, c, scenes[k])
  }

  ghost predicate Covered<P>(e: Disk, c: S3Setup<P>, scene: string) {
    && ScenePlan(c, scene).Success?
    && e.Exists(SceneFolder(c.dir, scene))
    && forall f :: f in Targets(ScenePlan(c, scene).value, SceneFolder(c.dir, scene)) ==> e.Exists(f)
  }

  /** After a successful run, the disk holds every scene's folder and files. */
  lemma {:induction false} S3RunCovers<P>(d: Disk, c: S3Setup<P>, scenes: seq<string>, acc: seq<SceneRecord>)
    requires S3Run(d, c, scenes, acc).0.Success?
    ensures Covers(S3Run(d, c, scenes, acc).1, c, scenes)
    decreases |scenes|
  {
    if scenes != [] {
      var (r0, d1) := S3SceneRun(d, c, scenes[0]);
      S3SceneRunSpec(d, c, scenes[0]);
      var acc1 := acc + [SceneRecord(scenes[0], r0.value)];
      var e := S3Run(d1, c, scenes[1..], acc1).1;
      S3RunCovers(d1, c, scenes[1..], acc1);
      S3RunGrows(d1, c, scenes[1..], acc1);
      assert Covered(e, c, scenes[0]);
      forall k | 0 <= k < |scenes| ensures Covered(e, c, scenes[k]) {
        if k > 0 { assert scenes[k] == scenes[1..][k - 1]; }
      }
    }
  }

  /** A run over a disk that already covers every scene returns what any
      successful run returns and leaves that disk as it is. */
  lemma {:induction false} S3RunOver<P>(d: Disk, e: Disk, c: S3Setup<P>, scenes: seq<string>, acc: seq<SceneRecord>)
    requires S3Run(d, c, scenes, acc).0.Success?
    requires Covers(e, c, scenes)
    ensures S3Run(e, c, scenes, acc) == (S3Run(d, c, scenes, acc).0, e)
    decreases |scenes|
  {
    if scenes != [] {
      assert Covered(e, c, scenes[0]);
      S3SceneRunPresent(e, c, scenes[0]);
      S3SceneRunSpec(d, c, scenes[0]);
      var (r0, d1) := S3SceneRun(d, c, scenes[0]);
      assert Covers(e, c, scenes[1..]) by {
        forall k | 0 <= k < |scenes[1..]| ensures Covered(e, c, scenes[1..][k]) {
          assert scenes[1..][k] == scenes[k + 1];
        }
      }
      S3RunOver(d1, e, c, scenes[1..], acc + [SceneRecord(scenes[0], r0.value)]);
    }
  }

  /** Downloading the same scenes again returns the same records and
      transfers nothing: every file is found in place. */
  lemma S3RunIdempotent<P>(d: Disk, c: S3Setup<P>, scenes: seq<string>)
    requires S3Run(d, c, scenes, []).0.Success?
    ensures var (r, d1) := S3Run(d, c, scenes, []); S3Run(d1, c, scenes, []) == (r, d1)
  {
    S3RunCovers(d, c, scenes, []);
    S3RunOver(d, S3Run(d, c, scenes, []).1, c, scenes, []);
  }

  /** The Scenes object lists one scene per record, in order, each carrying
      the record's name and files, and each consistent. */
  ghost predicate Describes(objs: Scenes, recs: seq<SceneRecord>)
    reads objs, set s | s in objs.scenesList
  {
    && |objs.scenesList| == |recs|
    && forall k :: 0 <= k < |recs| ==>
         && objs.scenesList[k].name == recs[k].name
         && objs.scenesList[k].files == recs[k].files
         && objs.scenesList[k].Valid()
  }

  /** One pass of the loop body of `s3`. */
  method S3Scene<P>(disk: Storage, c: S3Setup<P>, scene: string) returns (r: Result<seq<string>>)
    modifies disk
    ensures (r, disk.State()) == S3SceneRun(old(disk.State()), c, scene)
  {
    ScenePlanSpec(c, scene);
    var p := c.interpret(scene);
    if p.Failure? {
      return Failure(p.error);
    }
    if c.bands.None? {
      return Failure(TypeError("'NoneType' object is not iterable"));
    }
    var bands := c.bands.value;
    var urls: seq<string> := [];
    var i := 0;
    while i < |bands|
      invariant 0 <= i <= |bands| && |urls| == i
      invariant forall k :: 0 <= k < i ==> urls[k] == c.s3Url(p.value, bands[k]) && urls[k] in c.live
    {
      var url := c.s3Url(p.value, bands[i]);
      var exists_ := Probe(c.live, url);
      if exists_.Failure? {
        return Failure(exists_.error);
      }
      urls := urls + [url];
      i := i + 1;
    }
    assert urls == ScenePlan(c, scene).value;
    var sceneFile := scene;
    if '/' in scene {
      sceneFile := ReplaceChar(scene, '/', '_');
    } else {
      ReplaceCharAbsent(scene, '/', '_');
    }
    var folder := PathJoin(c.dir, sceneFile);
    folder := disk.CheckCreateFolder(folder);
    var files := disk.FetchEach(urls, folder, []);
    r := Success(files);
  }

  /** `scene_objs.add_with_files(scene, files)` inside `s3`. */
  method Record(objs: Scenes, name: string, files: seq<string>, ghost recs: seq<SceneRecord>)
    requires objs.Coherent() && Describes(objs, recs)
    modifies objs
    ensures objs.Coherent() && Describes(objs, recs + [SceneRecord(name, files)])
    ensures forall s :: s in objs.scenesList ==> s in old(objs.scenesList) || fresh(s)
  {
    ghost var prev := objs.scenesList;
    var s := objs.AddWithFiles(name, FileList(files));
    ghost var recs' := recs + [SceneRecord(name, files)];
    forall k | 0 <= k < |recs'|
      ensures && objs.scenesList[k].name == recs'[k].name && objs.scenesList[k].files == recs'[k].files
              && objs.scenesList[k].Valid()
    {
      if k < |prev| {
        assert objs.scenesList[k] == prev[k];
      }
    }
  }

  /** `S3DownloadMixin.s3(scenes, bands)`: a list is required; then each scene
      in turn is planned, stored and recorded in a new Scenes object. */
  method S3<P>(disk: Storage, c: S3Setup<P>, scenes: ListArg<string>) returns (r: Result<Scenes>)
    modifies disk
    ensures scenes.NotList? ==> r == Failure(PlainException("Expected scene list")) && unchanged(disk)
    ensures scenes.List? ==>
      var (res, d1) := S3Run(old(disk.State()), c, scenes.items, []);
      && disk.State() == d1
      && (res.Failure? ==> r == Failure(res.error))
      && (res.Success? ==> r.Success? && fresh(r.value) && r.value.Coherent() && Describes(r.value, res.value))
  {
    if scenes.NotList? {
      return Failure(PlainException("Expected scene list"));
    }
    var xs := scenes.items;
    var objs := new Scenes();
    ghost var recs: seq<SceneRecord> := [];
    var i := 0;
    while i < |xs|
      invariant 0 <= i <= |xs|
      invariant S3Run(old(disk.State()), c, xs, []) == S3Run(disk.State(), c, xs[i..], recs)
      invariant fresh(objs) && objs.Coherent() && Describes(objs, recs)
      invariant forall s :: s in objs.scenesList ==> fresh(s)
    {
      assert xs[i..][1..] == xs[i + 1..];
      S3RunStep(disk.State(), c, xs[i..], recs);
      var files := S3Scene(disk, c, xs[i]);
      if files.Failure? {
        return Failure(files.error);
      }
      Record(objs, xs[i], files.value, recs);
      recs := recs + [SceneRecord(xs[i], files.value)];
      i := i + 1;
    }
    assert xs[i..] == [];
    assert S3Run(old(disk.State()), c, xs, []) == (Success(recs), disk.State());
    r := Success(objs);
  }
}
