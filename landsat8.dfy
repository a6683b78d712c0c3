/** The Landsat-8 downloader: Amazon S3 with band augmentation, Google
    Storage, USGS Earth Explorer, and the per-scene fallback between them. */
module Landsat8 {
  import opened Errors
  import opened Text
  import opened PosixPath
  import opened Common
  import opened Download

  /** The USGS inventory as the downloader sees it: `login` yields the SOAP
      fault text when the credentials are refused, `downloads` the URLs
      `api.download('LANDSAT_8', 'EE', scenes)` answers with. */
  datatype Usgs = Usgs(login: (string, string) -> Option<string>, downloads: seq<string> -> seq<string>)

  /** The remote side: the URLs answering HEAD with 200, and USGS. */
  datatype Remote = Remote(live: set<string>, usgs: Usgs)

  /** The message Python raises when a one-argument method is called with two. */
  const GoogleArity := "Landsat8.google() takes 2 positional arguments but 3 were given"

  /** Python truthiness of an optional string: present and not empty. */
  predicate Truthy(s: Option<string>) {
    s.Some? && s.value != ""
  }

  // ---------------------------------------------------------------------
  // s3

  /** The caller's band list after one scene's augmentation: 'QA' appended
      unless 'BQA' is present, then 'MTL' appended unless present. */
  function Augment(bands: seq<Band>): seq<Band> {
    var b := if Name("BQA") !in bands then bands + [Name("QA")] else bands;
    if Name("MTL") !in b then b + [Name("MTL")] else b
  }

  /** Augmentation only appends; 'MTL' is then present; 'QA' is appended
      exactly when 'BQA' is absent, which augmentation never changes. */
  lemma AugmentSpec(bands: seq<Band>)
    ensures var a := Augment(bands);
      && a[..|bands|] == bands && |bands| <= |a| <= |bands| + 2
      && Name("MTL") in a
      && (Name("BQA") in a <==> Name("BQA") in bands)
      && multiset(a)[Name("QA")] == multiset(bands)[Name("QA")] + (if Name("BQA") in bands then 0 else 1)
      && multiset(a)[Name("MTL")] == (if Name("MTL") in bands then multiset(bands)[Name("MTL")] else 1)
  {
    var b := if Name("BQA") !in bands then bands + [Name("QA")] else bands;
    var a := Augment(bands);
    assert a[..|bands|] == bands by {
      assert b[..|bands|] == bands;
      if a != b { assert a[..|b|] == b; }
    }
    assert multiset(b)[Name("MTL")] == multiset(bands)[Name("MTL")];
  }

  /** The setup under which one Landsat-8 scene is planned: the scene
      interpreter and S3 URL template of `common`, with the given bands. */
  function L8Setup(live: set<string>, dir: string, bands: seq<Band>): S3Setup<Anatomy> {
    S3Setup(live, Some(bands), dir, LandsatSceneInterpreter, AmazonS3UrlLandsat8)
  }

  /** One scene of `s3`: interpret it, augment the bands, probe every band
      URL, create `dir/scene`, then fetch every URL into `dir` itself.
      Yields the folder, the disk and the caller's band list. */
  function L8SceneRun(d: Disk, live: set<string>, dir: string, scene: string, bands: Option<seq<Band>>)
    : (Result<string>, Disk, Option<seq<Band>>)
  {
    var sat := LandsatSceneInterpreter(scene);
    if sat.Failure? then (Failure(sat.error), d, bands)
    else if bands.None? then (Failure(TypeError("argument of type 'NoneType' is not iterable")), d, bands)
    else
      var b := Augment(bands.value);
      var plan := ScenePlan(L8Setup(live, dir, b), scene);
      if plan.Failure? then (Failure(plan.error), d, Some(b))
      else
        var folder := PathJoin(dir, scene);
        var fetched := FetchAll(CreateFolder(d, folder), plan.value, dir, []);
        (Success(folder), fetched.1, Some(b))
  }

  /** The scene loop of `s3` after the folders in `acc`. */
  function L8S3Run(d: Disk, live: set<string>, dir: string, scenes: seq<string>, bands: Option<seq<Band>>, acc: seq<string>)
    : (Result<seq<string>>, Disk, Option<seq<Band>>)
    decreases |scenes|
  {
    if scenes == [] then (Success(acc), d, bands)
    else
      var (r, d1, b1) := L8SceneRun(d, live, dir, scenes[0], bands);
      if r.Failure? then (Failure(r.error), d1, b1)
      else L8S3Run(d1, live, dir, scenes[1..], b1, acc + [r.value])
  }

  /** Per scene, nothing is written unless every band URL exists; then the
      folder `dir/scene` is created and every fetch goes into `dir`, not
      into that folder. A bad scene id fails before the bands are touched;
      a missing band fails with RemoteFileDoesntExist after the bands were
      augmented. */
  lemma L8SceneRunSpec(d: Disk, live: set<string>, dir: string, scene: string, bands: Option<seq<Band>>)
    ensures var (r, d1, b1) := L8SceneRun(d, live, dir, scene, bands);
      && (|scene| != 21 ==> r == Failure(IncorrectLandsat8SceneId("Received incorrect scene")) && b1 == bands)
      && (r.Failure? ==> d1 == d)
      && (|scene| == 21 && bands.Some? ==> b1 == Some(Augment(bands.value)))
      && (r.Failure? && |scene| == 21 && bands.Some? ==> r.error == RemoteFileDoesntExist(""))
      && (r.Success? ==> && r.value == PathJoin(dir, scene) && d1.Exists(r.value)
                         && d.files <= d1.files && d.folders <= d1.folders
                         && d.transfers <= d1.transfers
                         && forall k :: |d.transfers| <= k < |d1.transfers| ==> d1.transfers[k].dir == dir)
  {
    var sat := LandsatSceneInterpreter(scene);
    if sat.Success? && bands.Some? {
      var b := Augment(bands.value);
      var c := L8Setup(live, dir, b);
      ScenePlanSpec(c, scene);
      var plan := ScenePlan(c, scene);
      if plan.Success? {
        var folder := PathJoin(dir, scene);
        FetchAllFiles(CreateFolder(d, folder), plan.value, dir, []);
        FetchAllTransfers(CreateFolder(d, folder), plan.value, dir, []);
      }
    }
  }

  /** The folders `s3` returns: `dir/scene` for each scene, in order. */
  function Folders(dir: string, scenes: seq<string>): (r: seq<string>)
    ensures |r| == |scenes|
  {
    if scenes == [] then [] else [PathJoin(dir, scenes[0])] + Folders(dir, scenes[1..])
  }

  lemma {:induction false} FoldersAt(dir: string, scenes: seq<string>, k: int)
    requires 0 <= k < |scenes|
    ensures Folders(dir, scenes)[k] == PathJoin(dir, scenes[k])
  {
    if k > 0 {
      FoldersAt(dir, scenes[1..], k - 1);
    }
  }

  /** A successful `s3` returns one folder per scene, in order, each of them
      created. */
  lemma {:induction false} L8S3RunFolders(d: Disk, live: set<string>, dir: string, scenes: seq<string>,
                                          bands: Option<seq<Band>>, acc: seq<string>)
    requires L8S3Run(d, live, dir, scenes, bands, acc).0.Success?
    ensures var (r, d1, _) := L8S3Run(d, live, dir, scenes, bands, acc);
      && r.value == acc + Folders(dir, scenes)
      && forall f :: f in Folders(dir, scenes) ==> d1.Exists(f)
    decreases |scenes|
  {
    if scenes != [] {
      var (r0, d1, b1) := L8SceneRun(d, live, dir, scenes[0], bands);
      L8SceneRunSpec(d, live, dir, scenes[0], bands);
      var acc1 := acc + [r0.value];
      L8S3RunFolders(d1, live, dir, scenes[1..], b1, acc1);
      L8S3RunGrows(d1, live, dir, scenes[1..], b1, acc1);
      var x, rest := PathJoin(dir, scenes[0]), Folders(dir, scenes[1..]);
      assert Folders(dir, scenes) == [x] + rest;
      ConcatAssoc(acc, [x], rest);
    }
  }

  /** `s3` never removes a file or a folder. */
  lemma {:induction false} L8S3RunGrows(d: Disk, live: set<string>, dir: string, scenes: seq<string>,
                                        bands: Option<seq<Band>>, acc: seq<string>)
    ensures var d1 := L8S3Run(d, live, dir, scenes, bands, acc).1; d.files <= d1.files && d.folders <= d1.folders
    decreases |scenes|
  {
    if scenes != [] {
      var (r0, d1, b1) := L8SceneRun(d, live, dir, scenes[0], bands);
      L8SceneRunSpec(d, live, dir, scenes[0], bands);
      if r0.Success? {
        L8S3RunGrows(d1, live, dir, scenes[1..], b1, acc + [r0.value]);
      }
    }
  }

  /** Because the check looks for 'BQA' but appends 'QA', every scene that
      completes appends one more 'QA' to the caller's list; 'MTL' is appended
      at most once. */
  lemma {:induction false} L8S3RunQA(d: Disk, live: set<string>, dir: string, scenes: seq<string>,
                                     bands: seq<Band>, acc: seq<string>)
    requires Name("BQA") !in bands
    requires L8S3Run(d, live, dir, scenes, Some(bands), acc).0.Success?
    ensures var b := L8S3Run(d, live, dir, scenes, Some(bands), acc).2;
      && b.Some? && multiset(b.value)[Name("QA")] == multiset(bands)[Name("QA")] + |scenes|
      && (scenes != [] ==> multiset(b.value)[Name("MTL")] == (if Name("MTL") in bands then multiset(bands)[Name("MTL")] else 1))
      && Name("BQA") !in b.value
    decreases |scenes|
  {
    if scenes != [] {
      var (r0, d1, b1) := L8SceneRun(d, live, dir, scenes[0], Some(bands));
      L8SceneRunSpec(d, live, dir, scenes[0], Some(bands));
      AugmentSpec(bands);
      var a := Augment(bands);
      assert b1 == Some(a);
      L8S3RunQA(d1, live, dir, scenes[1..], a, acc + [r0.value]);
      if scenes[1..] != [] {
        AugmentSpec(a);
      }
    }
  }

  // ---------------------------------------------------------------------
  // google

  /** One scene of `google`: interpret, build the Google URL, probe it, fetch
      it into `dir`. */
  function GoogleRun(d: Disk, live: set<string>, dir: string, scenes: seq<string>, acc: seq<string>)
    : (Result<seq<string>>, Disk)
    decreases |scenes|
  {
    if scenes == [] then (Success(acc), d)
    else
      var sat := LandsatSceneInterpreter(scenes[0]);
      if sat.Failure? then (Failure(sat.error), d)
      else
        var url := GoogleStorageUrlLandsat8(sat.value);
        var ok := Probe(live, url);
        if ok.Failure? then (Failure(ok.error), d)
        else
          var (p, d1) := FetchStep(d, url, dir);
          GoogleRun(d1, live, dir, scenes[1..], acc + [p])
  }

  /** One turn of the `google` loop. */
  lemma GoogleRunStep(d: Disk, live: set<string>, dir: string, scenes: seq<string>, acc: seq<string>)
    requires scenes != []
    ensures var sat := LandsatSceneInterpreter(scenes[0]);
      && (sat.Failure? ==> GoogleRun(d, live, dir, scenes, acc) == (Failure(sat.error), d))
      && (sat.Success? && GoogleStorageUrlLandsat8(sat.value) !in live ==>
            GoogleRun(d, live, dir, scenes, acc) == (Failure(RemoteFileDoesntExist("")), d))
      && (sat.Success? && GoogleStorageUrlLandsat8(sat.value) in live ==>
            var s := FetchStep(d, GoogleStorageUrlLandsat8(sat.value), dir);
            GoogleRun(d, live, dir, scenes, acc) == GoogleRun(s.1, live, dir, scenes[1..], acc + [s.0]))
  {
  }

  /** The Google URL of a well-formed scene id. */
  function GoogleUrlOf(scene: string): string {
    if |scene| == 21 then GoogleStorageUrlLandsat8(LandsatSceneInterpreter(scene).value) else ""
  }

  /** The Google URLs of a list of scenes, in order. */
  function GoogleUrls(scenes: seq<string>): (r: seq<string>)
    ensures |r| == |scenes|
  {
    if scenes == [] then [] else [GoogleUrlOf(scenes[0])] + GoogleUrls(scenes[1..])
  }

  lemma {:induction false} GoogleUrlsAt(scenes: seq<string>, k: int)
    requires 0 <= k < |scenes|
    ensures GoogleUrls(scenes)[k] == GoogleUrlOf(scenes[k])
  {
    if k > 0 {
      GoogleUrlsAt(scenes[1..], k - 1);
    }
  }

  /** For a single scene `google` either fails without writing — with
      IncorrectLandsat8SceneId for a malformed id, RemoteFileDoesntExist for
      a missing archive — or returns the one fetched path. */
  lemma GoogleOne(d: Disk, live: set<string>, dir: string, scene: string)
    ensures var (r, d1) := GoogleRun(d, live, dir, [scene], []);
      && (|scene| != 21 ==> r == Failure(IncorrectLandsat8SceneId("Received incorrect scene")) && d1 == d)
      && (|scene| == 21 && GoogleUrlOf(scene) !in live ==> r == Failure(RemoteFileDoesntExist("")) && d1 == d)
      && (|scene| == 21 && GoogleUrlOf(scene) in live ==>
            (r, d1) == (Success([PathJoin(dir, FetchName(GoogleUrlOf(scene)))]), FetchStep(d, GoogleUrlOf(scene), dir).1))
  {
    GoogleRunStep(d, live, dir, [scene], []);
    if |scene| == 21 && GoogleUrlOf(scene) in live {
      var p := FetchStep(d, GoogleUrlOf(scene), dir);
      assert [scene][1..] == [];
      assert GoogleRun(d, live, dir, [scene], []) == GoogleRun(p.1, live, dir, [], [] + [p.0]);
      assert [] + [p.0] == [p.0];
    }
  }

  /** `google` succeeds exactly when every id is well formed and every
      archive exists. */
  lemma {:induction false} GoogleRunSucceeds(d: Disk, live: set<string>, dir: string, scenes: seq<string>, acc: seq<string>)
    ensures GoogleRun(d, live, dir, scenes, acc).0.Success?
        <==> forall k :: 0 <= k < |scenes| ==> |scenes[k]| == 21 && GoogleUrlOf(scenes[k]) in live
    decreases |scenes|
  {
    if scenes != [] {
      GoogleRunStep(d, live, dir, scenes, acc);
      if |scenes[0]| == 21 && GoogleUrlOf(scenes[0]) in live {
        var s := FetchStep(d, GoogleUrlOf(scenes[0]), dir);
        GoogleRunSucceeds(s.1, live, dir, scenes[1..], acc + [s.0]);
        assert forall k :: 1 <= k < |scenes| ==> scenes[k] == scenes[1..][k - 1];
      }
    }
  }

  /** A successful `google` returns the earlier paths followed by the stored
      archive of each scene, in scene order. */
  lemma {:induction false} GoogleRunPaths(d: Disk, live: set<string>, dir: string, scenes: seq<string>, acc: seq<string>)
    requires GoogleRun(d, live, dir, scenes, acc).0.Success?
    ensures GoogleRun(d, live, dir, scenes, acc).0.value == acc + Targets(GoogleUrls(scenes), dir)
    decreases |scenes|
  {
    if scenes != [] {
      GoogleRunStep(d, live, dir, scenes, acc);
      var s := FetchStep(d, GoogleUrlOf(scenes[0]), dir);
      GoogleRunPaths(s.1, live, dir, scenes[1..], acc + [s.0]);
      var urls := GoogleUrls(scenes);
      assert urls[1..] == GoogleUrls(scenes[1..]);
      assert Targets(urls, dir) == [s.0] + Targets(GoogleUrls(scenes[1..]), dir);
      ConcatAssoc(acc, [s.0], Targets(GoogleUrls(scenes[1..]), dir));
    }
  }

  // ---------------------------------------------------------------------
  // usgs

  /** `usgs(scenes)`: refused without both credentials; a refused login
      raises USGSInventoryAccessMissing with the fault text; an empty answer
      raises RemoteFileDoesntExist; otherwise every URL is fetched into `dir`. */
  function UsgsRun(d: Disk, svc: Usgs, user: Option<string>, pass: Option<string>, dir: string, scenes: seq<string>)
    : (Result<seq<string>>, Disk)
  {
    if Truthy(user) && Truthy(pass) then
      var fault := svc.login(user.value, pass.value);
      if fault.Some? then (Failure(USGSInventoryAccessMissing(fault.value)), d)
      else
        var urls := svc.downloads(scenes);
        if urls != [] then
          var fetched := FetchAll(d, urls, dir, []);
          (Success(fetched.0), fetched.1)
        else (Failure(RemoteFileDoesntExist(Join(" - ", scenes) + " not available on AWS S3, Google or USGS Earth Explorer")), d)
    else (Failure(RemoteFileDoesntExist(Join(" - ", scenes) + " not available on AWS S3 or Google Storage")), d)
  }

  /** `usgs` succeeds exactly when both credentials are given, the login is
      accepted and USGS offers at least one URL; it then returns one path per
      URL in order, each present afterwards. Every failure leaves the disk
      untouched, and every failure but a refused login is RemoteFileDoesntExist. */
  lemma UsgsSpec(d: Disk, svc: Usgs, user: Option<string>, pass: Option<string>, dir: string, scenes: seq<string>)
    ensures var (r, d1) := UsgsRun(d, svc, user, pass, dir, scenes);
      && (r.Success? <==> Truthy(user) && Truthy(pass) && svc.login(user.value, pass.value).None?
                          && svc.downloads(scenes) != [])
      && (r.Failure? ==> d1 == d)
      && (r.Failure? && !(Truthy(user) && Truthy(pass) && svc.login(user.value, pass.value).Some?) ==>
            r.error.RemoteFileDoesntExist?)
      && (r.Success? ==> && r.value == Targets(svc.downloads(scenes), dir)
                         && forall f :: f in r.value ==> d1.Exists(f))
  {
    if Truthy(user) && Truthy(pass) && svc.login(user.value, pass.value).None? && svc.downloads(scenes) != [] {
      FetchAllPaths(d, svc.downloads(scenes), dir, []);
      FetchAllFiles(d, svc.downloads(scenes), dir, []);
      assert [] + Targets(svc.downloads(scenes), dir) == Targets(svc.downloads(scenes), dir);
    }
  }

  // ---------------------------------------------------------------------
  // download

  /** One scene of `download`: S3 when a band list was given, and on
      RemoteFileDoesntExist the fallback. As written (`written`), the fallback
      call passes one argument too many and raises TypeError; as intended,
      it tries Google and then USGS, each advancing only on
      RemoteFileDoesntExist. */
  function DownloadStep(d: Disk, env: Remote, dir: string, user: Option<string>, pass: Option<string>,
                        scene: string, bands: Option<seq<Band>>, written: bool)
    : (Result<seq<string>>, Disk, Option<seq<Band>>)
  {
    var (s, d1, b1) := if bands.None? then (Failure(RemoteFileDoesntExist("")), d, bands)
                       else L8S3Run(d, env.live, dir, [scene], bands, []);
    if s.Success? || !s.error.RemoteFileDoesntExist? then (s, d1, b1)
    else if written then (Failure(TypeError(GoogleArity)), d1, b1)
    else
      var (g, d2) := GoogleRun(d1, env.live, dir, [scene], []);
      if g.Success? || !g.error.RemoteFileDoesntExist? then (g, d2, b1)
      else
        var (u, d3) := UsgsRun(d2, env.usgs, user, pass, dir, [scene]);
        (u, d3, b1)
  }

  /** The scene loop of `download` after the results in `acc`. */
  function DownloadRun(d: Disk, env: Remote, dir: string, user: Option<string>, pass: Option<string>,
                       scenes: seq<string>, bands: Option<seq<Band>>, written: bool, acc: seq<seq<string>>)
    : (Result<seq<seq<string>>>, Disk, Option<seq<Band>>)
    decreases |scenes|
  {
    if scenes == [] then (Success(acc), d, bands)
    else
      var (r, d1, b1) := DownloadStep(d, env, dir, user, pass, scenes[0], bands, written);
      if r.Failure? then (Failure(r.error), d1, b1)
      else DownloadRun(d1, env, dir, user, pass, scenes[1..], b1, written, acc + [r.value])
  }

  /** A successful download appends exactly one entry per scene, in order. */
  lemma {:induction false} DownloadRunShape(d: Disk, env: Remote, dir: string, user: Option<string>, pass: Option<string>,
                                            scenes: seq<string>, bands: Option<seq<Band>>, written: bool, acc: seq<seq<string>>)
    requires DownloadRun(d, env, dir, user, pass, scenes, bands, written, acc).0.Success?
    ensures var v := DownloadRun(d, env, dir, user, pass, scenes, bands, written, acc).0.value;
      |v| == |acc| + |scenes| && v[..|acc|] == acc
    decreases |scenes|
  {
    if scenes != [] {
      var (r, d1, b1) := DownloadStep(d, env, dir, user, pass, scenes[0], bands, written);
      DownloadRunShape(d1, env, dir, user, pass, scenes[1..], b1, written, acc + [r.value]);
      var v := DownloadRun(d, env, dir, user, pass, scenes, bands, written, acc).0.value;
      assert v[..|acc|] == v[..|acc| + 1][..|acc|];
    }
  }

  /** S3 comes first: with bands given, a scene whose bands all exist is
      answered by S3 with its folder, and Google is not consulted. */
  lemma S3First(d: Disk, env: Remote, dir: string, user: Option<string>, pass: Option<string>,
                scene: string, bands: seq<Band>, written: bool)
    requires |scene| == 21
    requires ScenePlan(L8Setup(env.live, dir, Augment(bands)), scene).Success?
    ensures var (r, _, b) := DownloadStep(d, env, dir, user, pass, scene, Some(bands), written);
      r == Success([PathJoin(dir, scene)]) && b == Some(Augment(bands))
  {
    var (r0, d1, b1) := L8SceneRun(d, env.live, dir, scene, Some(bands));
    L8SceneRunSpec(d, env.live, dir, scene, Some(bands));
    assert r0 == Success(PathJoin(dir, scene));
    assert [scene][1..] == [] && [] + [r0.value] == [r0.value];
    assert L8S3Run(d, env.live, dir, [scene], Some(bands), []) == L8S3Run(d1, env.live, dir, [], b1, [] + [r0.value]);
  }

  /** A malformed id with a band list is not a missing file: S3 raises
      IncorrectLandsat8SceneId before anything is written, and that ends the
      download in both chains. Without a band list it depends on the chain:
      as intended Google raises IncorrectLandsat8SceneId too, while as
      written the fallback call raises TypeError first. */
  lemma BadIdStops(d: Disk, env: Remote, dir: string, user: Option<string>, pass: Option<string>,
                   scene: string, bands: Option<seq<Band>>, written: bool)
    requires |scene| != 21
    ensures var (r, d1, b1) := DownloadStep(d, env, dir, user, pass, scene, bands, written);
      && d1 == d && b1 == bands
      && (bands.Some? || !written ==> r == Failure(IncorrectLandsat8SceneId("Received incorrect scene")))
      && (bands.None? && written ==> r == Failure(TypeError(GoogleArity)))
  {
    GoogleOne(d, env.live, dir, scene);
    if bands.Some? {
      L8SceneRunSpec(d, env.live, dir, scene, bands);
    }
  }

  /** Without a band list S3 is skipped: as intended, Google answers when its
      archive exists, and USGS is asked when it does not. */
  lemma NoBandsGoogle(d: Disk, env: Remote, dir: string, user: Option<string>, pass: Option<string>, scene: string)
    requires |scene| == 21
    ensures var (r, d1, _) := DownloadStep(d, env, dir, user, pass, scene, None, false);
      && (GoogleUrlOf(scene) in env.live ==>
            (r, d1) == (Success([PathJoin(dir, FetchName(GoogleUrlOf(scene)))]), FetchStep(d, GoogleUrlOf(scene), dir).1))
      && (GoogleUrlOf(scene) !in env.live ==> (r, d1) == UsgsRun(d, env.usgs, user, pass, dir, [scene]))
  {
    GoogleOne(d, env.live, dir, scene);
  }

  /** With every Google archive live and no band list, the intended chain
      downloads each scene from Google: entry `|acc| + k` is the one file
      fetched for scene `k`. */
  lemma {:induction false} DownloadRunGoogle(d: Disk, env: Remote, dir: string, user: Option<string>, pass: Option<string>,
                                             scenes: seq<string>, acc: seq<seq<string>>)
    requires forall k :: 0 <= k < |scenes| ==> |scenes[k]| == 21 && GoogleUrlOf(scenes[k]) in env.live
    ensures var r := DownloadRun(d, env, dir, user, pass, scenes, None, false, acc).0;
      && r.Success? && |r.value| == |acc| + |scenes| && r.value[..|acc|] == acc
      && forall k :: 0 <= k < |scenes| ==> r.value[|acc| + k] == [PathJoin(dir, FetchName(GoogleUrlOf(scenes[k])))]
    decreases |scenes|
  {
    if scenes != [] {
      NoBandsGoogle(d, env, dir, user, pass, scenes[0]);
      var (r, d1, b1) := DownloadStep(d, env, dir, user, pass, scenes[0], None, false);
      var acc1 := acc + [r.value];
      DownloadRunGoogle(d1, env, dir, user, pass, scenes[1..], acc1);
      var v := DownloadRun(d, env, dir, user, pass, scenes, None, false, acc).0.value;
      assert v == DownloadRun(d1, env, dir, user, pass, scenes[1..], None, false, acc1).0.value;
      assert v[..|acc|] == v[..|acc1|][..|acc|];
      forall k | 0 <= k < |scenes|
        ensures v[|acc| + k] == [PathJoin(dir, FetchName(GoogleUrlOf(scenes[k])))]
      {
        if k == 0 {
          assert v[|acc|] == v[..|acc1|][|acc|];
        } else {
          assert scenes[k] == scenes[1..][k - 1];
          assert v[|acc| + k] == v[|acc1| + (k - 1)];
        }
      }
    }
  }

  /** S3 reports a missing band (the bands are augmented all the same): as
      written the fallback raises TypeError and nothing is written; as
      intended the scene goes on exactly as if no band list had been given,
      and the caller's list stays augmented. */
  lemma S3MissingFallback(d: Disk, env: Remote, dir: string, user: Option<string>, pass: Option<string>,
                          scene: string, bands: seq<Band>)
    requires |scene| == 21
    requires ScenePlan(L8Setup(env.live, dir, Augment(bands)), scene).Failure?
    ensures DownloadStep(d, env, dir, user, pass, scene, Some(bands), true)
         == (Failure(TypeError(GoogleArity)), d, Some(Augment(bands)))
    ensures var (r, d1, b1) := DownloadStep(d, env, dir, user, pass, scene, Some(bands), false);
      var (r0, d0, _) := DownloadStep(d, env, dir, user, pass, scene, None, false);
      (r, d1) == (r0, d0) && b1 == Some(Augment(bands))
  {
    L8SceneRunSpec(d, env.live, dir, scene, Some(bands));
    var (r0, d1, b1) := L8SceneRun(d, env.live, dir, scene, Some(bands));
    assert r0.Failure?;
    assert L8S3Run(d, env.live, dir, [scene], Some(bands), []) == (Failure(r0.error), d1, b1);
  }

  /** The defect as written: whenever S3 is skipped or reports a missing
      file for the first scene, the fallback call raises TypeError and the
      whole download fails. */
  lemma ArityDefect(d: Disk, env: Remote, dir: string, user: Option<string>, pass: Option<string>,
                    scenes: seq<string>, bands: Option<seq<Band>>, acc: seq<seq<string>>)
    requires scenes != []
    requires bands.None? || (|scenes[0]| == 21 && ScenePlan(L8Setup(env.live, dir, Augment(bands.value)), scenes[0]).Failure?)
    ensures DownloadRun(d, env, dir, user, pass, scenes, bands, true, acc).0 == Failure(TypeError(GoogleArity))
  {
    if bands.Some? {
      S3MissingFallback(d, env, dir, user, pass, scenes[0], bands.value);
    }
  }

  /** A concrete run that shows the defect: a well-formed scene whose Google
      archive exists, with no band list or with bands S3 cannot serve, fails
      as written, while the intended chain downloads it from Google. */
  lemma ArityExample(d: Disk, env: Remote, dir: string, user: Option<string>, pass: Option<string>,
                     scene: string, bands: Option<seq<Band>>)
    requires |scene| == 21 && GoogleUrlOf(scene) in env.live
    requires bands.None? || ScenePlan(L8Setup(env.live, dir, Augment(bands.value)), scene).Failure?
    ensures DownloadRun(d, env, dir, user, pass, [scene], bands, true, []).0 == Failure(TypeError(GoogleArity))
    ensures DownloadRun(d, env, dir, user, pass, [scene], bands, false, []).0
         == Success([[PathJoin(dir, FetchName(GoogleUrlOf(scene)))]])
  {
    ArityDefect(d, env, dir, user, pass, [scene], bands, []);
    NoBandsGoogle(d, env, dir, user, pass, scene);
    if bands.Some? {
      S3MissingFallback(d, env, dir, user, pass, scene, bands.value);
    }
    var (r, d1, b1) := DownloadStep(d, env, dir, user, pass, scene, bands, false);
    assert [scene][1..] == [] && [] + [r.value] == [r.value];
    assert DownloadRun(d, env, dir, user, pass, [scene], bands, false, [])
        == DownloadRun(d1, env, dir, user, pass, [], b1, false, [] + [r.value]);
  }

  // ---------------------------------------------------------------------
  // The downloader object

  class Landsat8 {
    const downloadDir: string
    const usgsUser: Option<string>
    const usgsPass: Option<string>

    /** `Landsat8(download_dir, usgs_user, usgs_pass)`: the download directory is created. */
    constructor (disk: Storage, downloadDir: string, usgsUser: Option<string>, usgsPass: Option<string>)
      modifies disk
      ensures this.downloadDir == downloadDir && this.usgsUser == usgsUser && this.usgsPass == usgsPass
      ensures disk.State() == CreateFolder(old(disk.State()), downloadDir)
    {
      this.downloadDir := downloadDir;
      this.usgsUser := usgsUser;
      this.usgsPass := usgsPass;
      new;
      var _ := disk.CheckCreateFolder(downloadDir);
    }

    /** One scene of `s3`. */
    method S3Scene(disk: Storage, live: set<string>, scene: string, bands: BandList?) returns (r: Result<string>)
      modifies disk, bands
      ensures (r, disk.State(), Items(bands)) == L8SceneRun(old(disk.State()), live, downloadDir, scene, old(Items(bands)))
    {
      var sat := LandsatSceneInterpreter(scene);
      if sat.Failure? {
        return Failure(sat.error);
      }
      if bands == null {
        return Failure(TypeError("argument of type 'NoneType' is not iterable"));
      }
      // Always grab the MTL file and the QA band.
      if Name("BQA") !in bands.items {
        bands.items := bands.items + [Name("QA")];
      }
      if Name("MTL") !in bands.items {
        bands.items := bands.items + [Name("MTL")];
      }
      var c := L8Setup(live, downloadDir, bands.items);
      ScenePlanSpec(c, scene);
      var urls: seq<string> := [];
      var i := 0;
      while i < |bands.items|
        invariant 0 <= i <= |bands.items| && |urls| == i
        invariant forall k :: 0 <= k < i ==> urls[k] == AmazonS3UrlLandsat8(sat.value, bands.items[k]) && urls[k] in live
      {
        var url := AmazonS3UrlLandsat8(sat.value, bands.items[i]);
        var exists_ := Probe(live, url);
        if exists_.Failure? {
          return Failure(exists_.error);
        }
        urls := urls + [url];
        i := i + 1;
      }
      assert urls == ScenePlan(c, scene).value;
      var folder := disk.CheckCreateFolder(PathJoin(downloadDir, scene));
      var _ := disk.FetchEach(urls, downloadDir, []);
      r := Success(folder);
    }

    /** `s3(scenes, bands)`: the folders of the scenes, in order; the caller's
        band list is augmented in place. */
    method S3(disk: Storage, live: set<string>, scenes: ListArg<string>, bands: BandList?) returns (r: Result<seq<string>>)
      modifies disk, bands
      ensures scenes.NotList? ==>
        r == Failure(PlainException("Expected sceneIDs list")) && unchanged(disk) && (bands != null ==> unchanged(bands))
      ensures scenes.List? ==>
        (r, disk.State(), Items(bands)) == L8S3Run(old(disk.State()), live, downloadDir, scenes.items, old(Items(bands)), [])
    {
      if scenes.NotList? {
        return Failure(PlainException("Expected sceneIDs list"));
      }
      var xs := scenes.items;
      var folders: seq<string> := [];
      var i := 0;
      while i < |xs|
        invariant 0 <= i <= |xs|
        invariant L8S3Run(old(disk.State()), live, downloadDir, xs, old(Items(bands)), [])
               == L8S3Run(disk.State(), live, downloadDir, xs[i..], Items(bands), folders)
      {
        assert xs[i..][1..] == xs[i + 1..];
        var f := S3Scene(disk, live, xs[i], bands);
        if f.Failure? {
          return Failure(f.error);
        }
        folders := folders + [f.value];
        i := i + 1;
      }
      assert xs[i..] == [];
      r := Success(folders);
    }

    /** `google(scenes)`: the fetched archive paths, in order. */
    method Google(disk: Storage, live: set<string>, scenes: ListArg<string>) returns (r: Result<seq<string>>)
      modifies disk
      ensures scenes.NotList? ==> r == Failure(PlainException("Expected sceneIDs list")) && unchanged(disk)
      ensures scenes.List? ==> (r, disk.State()) == GoogleRun(old(disk.State()), live, downloadDir, scenes.items, [])
    {
      if scenes.NotList? {
        return Failure(PlainException("Expected sceneIDs list"));
      }
      var xs := scenes.items;
      var files: seq<string> := [];
      var i := 0;
      while i < |xs|
        invariant 0 <= i <= |xs|
        invariant GoogleRun(old(disk.State()), live, downloadDir, xs, []) == GoogleRun(disk.State(), live, downloadDir, xs[i..], files)
      {
        assert xs[i..][1..] == xs[i + 1..];
        var sat := LandsatSceneInterpreter(xs[i]);
        if sat.Failure? {
          return Failure(sat.error);
        }
        var url := GoogleStorageUrlLandsat8(sat.value);
        var ok := Probe(live, url);
        if ok.Failure? {
          return Failure(ok.error);
        }
        var p := disk.Fetch(url, downloadDir);
        files := files + [p];
        i := i + 1;
      }
      assert xs[i..] == [];
      r := Success(files);
    }

    /** `usgs(scenes)`. */
    method UsgsDownload(disk: Storage, svc: Usgs, scenes: ListArg<string>) returns (r: Result<seq<string>>)
      modifies disk
      ensures scenes.NotList? ==> r == Failure(PlainException("Expected sceneIDs list")) && unchanged(disk)
      ensures scenes.List? ==> (r, disk.State()) == UsgsRun(old(disk.State()), svc, usgsUser, usgsPass, downloadDir, scenes.items)
    {
      if scenes.NotList? {
        return Failure(PlainException("Expected sceneIDs list"));
      }
      var xs := scenes.items;
      if Truthy(usgsUser) && Truthy(usgsPass) {
        var fault := svc.login(usgsUser.value, usgsPass.value);
        if fault.Some? {
          return Failure(USGSInventoryAccessMissing(fault.value));
        }
        var urls := svc.downloads(xs);
        if urls != [] {
          var files := disk.FetchEach(urls, downloadDir, []);
          return Success(files);
        }
        return Failure(RemoteFileDoesntExist(Join(" - ", xs) + " not available on AWS S3, Google or USGS Earth Explorer"));
      }
      r := Failure(RemoteFileDoesntExist(Join(" - ", xs) + " not available on AWS S3 or Google Storage"));
    }

    /** One scene of the `download` loop. */
    method Step(disk: Storage, env: Remote, scene: string, bands: BandList?, written: bool)
      returns (r: Result<seq<string>>)
      modifies disk, bands
      ensures (r, disk.State(), Items(bands))
        == DownloadStep(old(disk.State()), env, downloadDir, usgsUser, usgsPass, scene, old(Items(bands)), written)
    {
      var s: Result<seq<string>>;
      if bands == null {
        s := Failure(RemoteFileDoesntExist(""));
      } else {
        s := S3(disk, env.live, List([scene]), bands);
      }
      if s.Success? || !s.error.RemoteFileDoesntExist? {
        return s;
      }
      if written {
        return Failure(TypeError(GoogleArity));
      }
      var g := Google(disk, env.live, List([scene]));
      if g.Success? || !g.error.RemoteFileDoesntExist? {
        return g;
      }
      r := UsgsDownload(disk, env.usgs, List([scene]));
    }

    /** The `download` loop; `written` selects the fallback call as written
        or as intended. */
    method DownloadWith(disk: Storage, env: Remote, scenes: ListArg<string>, bands: BandList?, written: bool)
      returns (r: Result<seq<seq<string>>>)
      modifies disk, bands
      ensures scenes.NotList? ==>
        r == Failure(PlainException("Expected sceneIDs list")) && unchanged(disk) && (bands != null ==> unchanged(bands))
      ensures scenes.List? ==>
        (r, disk.State(), Items(bands)) == DownloadRun(old(disk.State()), env, downloadDir, usgsUser, usgsPass, scenes.items, old(Items(bands)), written, [])
    {
      if scenes.NotList? {
        return Failure(PlainException("Expected sceneIDs list"));
      }
      var xs := scenes.items;
      var files: seq<seq<string>> := [];
      var i := 0;
      while i < |xs|
        invariant 0 <= i <= |xs|
        invariant DownloadRun(old(disk.State()), env, downloadDir, usgsUser, usgsPass, xs, old(Items(bands)), written, [])
               == DownloadRun(disk.State(), env, downloadDir, usgsUser, usgsPass, xs[i..], Items(bands), written, files)
      {
        assert xs[i..][1..] == xs[i + 1..];
        var f := Step(disk, env, xs[i], bands, written);
        if f.Failure? {
          return Failure(f.error);
        }
        files := files + [f.value];
        i := i + 1;
      }
      assert xs[i..] == [];
      r := Success(files);
    }

    /** `download(scenes, bands)` as written: the fallback raises TypeError. */
    method Download(disk: Storage, env: Remote, scenes: ListArg<string>, bands: BandList?)
      returns (r: Result<seq<seq<string>>>)
      modifies disk, bands
      ensures scenes.NotList? ==>
        r == Failure(PlainException("Expected sceneIDs list")) && unchanged(disk) && (bands != null ==> unchanged(bands))
      ensures scenes.List? ==>
        (r, disk.State(), Items(bands)) == DownloadRun(old(disk.State()), env, downloadDir, usgsUser, usgsPass, scenes.items, old(Items(bands)), true, [])
    {
      r := DownloadWith(disk, env, scenes, bands, true);
    }

    /** `download(scenes, bands)` with the fallback calls taking the scene
        list alone: S3, then Google, then USGS. */
    method DownloadIntended(disk: Storage, env: Remote, scenes: ListArg<string>, bands: BandList?)
      returns (r: Result<seq<seq<string>>>)
      modifies disk, bands
      ensures scenes.NotList? ==>
        r == Failure(PlainException("Expected sceneIDs list")) && unchanged(disk) && (bands != null ==> unchanged(bands))
      ensures scenes.List? ==>
        (r, disk.State(), Items(bands)) == DownloadRun(old(disk.State()), env, downloadDir, usgsUser, usgsPass, scenes.items, old(Items(bands)), false, [])
    {
      r := DownloadWith(disk, env, scenes, bands, false);
    }
  }
}
