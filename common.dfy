/** sdownloader/common.py: Landsat-8 id interpretation, URL construction,
    the existence probe and the fetch primitive. */
module Common {
  import opened Errors
  import opened Text
  import opened PosixPath

  // ---------------------------------------------------------------------
  // Landsat-8 scene ids

  /** The dictionary `landsat_scene_interpreter` returns. */
  datatype Anatomy = Anatomy(path: string, row: string, sat: string, scene: string)

  function LandsatSceneInterpreter(sceneName: string): (r: Result<Anatomy>)
    ensures r.Success? <==> |sceneName| == 21
    ensures r.Success? ==> r.value.scene == sceneName
    ensures r.Failure? ==> r.error == IncorrectLandsat8SceneId("Received incorrect scene")
  {
    if |sceneName| == 21 then
      Success(Anatomy(sceneName[3..6], sceneName[6..9], "L" + sceneName[2..3], sceneName))
    else
      Failure(IncorrectLandsat8SceneId("Received incorrect scene"))
  }

  /** A 21-character id is cut into its fixed-width fields, and the fields put
      back in place reproduce the id's first nine characters. */
  lemma InterpreterFields(id: string)
    requires |id| == 21
    ensures LandsatSceneInterpreter(id).Success?
    ensures var a := LandsatSceneInterpreter(id).value;
      && |a.path| == 3 && |a.row| == 3 && |a.sat| == 2
      && a.sat[0] == 'L'
      && id[..9] == id[..2] + a.sat[1..] + a.path + a.row
  {
    var a := LandsatSceneInterpreter(id).value;
    assert a.sat[1..] == id[2..3];
    assert id[..9] == id[..2] + id[2..3] + id[3..6] + id[6..9];
  }

  /** The example of tests/test_common.py:92-96. */
  lemma InterpreterExample()
    ensures LandsatSceneInterpreter("LC80030172015001LGN00")
         == Success(Anatomy("003", "017", "L8", "LC80030172015001LGN00"))
    ensures LandsatSceneInterpreter("LC80030172015001LGN").Failure?
  {
    var id := "LC80030172015001LGN00";
    assert id[3..6] == "003" && id[6..9] == "017" && "L" + id[2..3] == "L8";
  }

  // ---------------------------------------------------------------------
  // Band tokens

  /** A band as the caller supplies it: a number such as 4, or a name such as 'MTL'. */
  datatype Band = Num(n: int) | Name(name: string)

  /** A Python list of bands owned by the caller, which the downloaders may
      change in place. */
  class BandList {
    var items: seq<Band>

    constructor (items: seq<Band>)
      ensures this.items == items
    {
      this.items := items;
    }
  }

  /** The caller's band argument as `isinstance(bands, list)` sees it. */
  function Items(bands: BandList?): Option<seq<Band>>
    reads if bands == null then {} else {bands}
  {
    if bands == null then None else Some(bands.items)
  }

  /** `'%s' % band`. */
  function BandText(b: Band): string {
    match b
    case Num(n) => IntToDecimal(n)
    case Name(s) => s
  }

  // ---------------------------------------------------------------------
  // Path segments

  /** Does `re.sub('(^\/|\/$)', '', s)` delete the first character? */
  predicate LeadingSlash(s: string) {
    |s| > 0 && s[0] == '/'
  }

  /** The index of the '/' that `\/$` matches, or -1: the last character, or the
      one before a final newline (Python's `$` matches there too), provided it
      is not the character the leading match already took. */
  function TrailingSlash(s: string): (t: int)
    ensures t == -1 || (0 <= t < |s| && s[t] == '/')
  {
    var start := if LeadingSlash(s) then 1 else 0;
    if |s| >= 1 && s[|s| - 1] == '/' && |s| - 1 >= start then |s| - 1
    else if |s| >= 2 && s[|s| - 1] == '\n' && s[|s| - 2] == '/' && |s| - 2 >= start then |s| - 2
    else -1
  }

  function Slashes(n: nat): (r: string)
    ensures |r| == n && forall k :: 0 <= k < n ==> r[k] == '/'
  {
    if n == 0 then "" else "/" + Slashes(n - 1)
  }

  /** `remove_slash`: at most one leading and at most one trailing '/' go. */
  function RemoveSlash(value: string): (r: string)
    ensures |value| - 2 <= |r| <= |value|
    ensures LeadingSlash(value) ==> |r| < |value|
    ensures !LeadingSlash(value) && TrailingSlash(value) < 0 ==> r == value
  {
    var lo := if LeadingSlash(value) then 1 else 0;
    var t := TrailingSlash(value);
    if t < 0 then value[lo..] else value[lo..t] + value[t + 1..]
  }

  /** Without a final newline, the result is the input less at most one '/'
      on each side: everything in between is kept, `//` of `http://` included. */
  lemma RemoveSlashSandwich(value: string)
    requires !EndsWith(value, "\n")
    ensures exists a: nat, b: nat :: a <= 1 && b <= 1 && value == Slashes(a) + RemoveSlash(value) + Slashes(b)
  {
    var lo := if LeadingSlash(value) then 1 else 0;
    var t := TrailingSlash(value);
    var r := RemoveSlash(value);
    assert value[..lo] == Slashes(lo);
    if t < 0 {
      assert r == value[lo..];
      assert value == value[..lo] + value[lo..];
      assert value == Slashes(lo) + r + Slashes(0);
    } else {
      assert value[|value| - 1..] == [value[|value| - 1]];
      assert t == |value| - 1;
      assert value[t + 1..] == [];
      assert r == value[lo..t];
      assert value[t..] == Slashes(1);
      assert value == value[..lo] + value[lo..t] + value[t..];
      assert value == Slashes(lo) + r + Slashes(1);
    }
  }

  /** With a final newline, the '/' just before it is the one removed. */
  lemma RemoveSlashBeforeNewline(m: string)
    requires !LeadingSlash(m)
    ensures RemoveSlash(m + "/\n") == m + "\n"
  {
    var s := m + "/\n";
    assert s[|s| - 1] == '\n' && s[|s| - 2] == '/';
    if |m| > 0 {
      assert s[0] == m[0];
      assert TrailingSlash(s) == |s| - 2;
      assert s[..|s| - 2] == m;
      assert s[|s| - 1..] == "\n";
    } else {
      assert s == "/\n";
      assert TrailingSlash(s) == -1;
      assert s[1..] == "\n";
    }
  }

  /** One slash on each side is exactly what is removed, whatever lies between. */
  lemma RemoveSlashUnwraps(c: string)
    ensures RemoveSlash("/" + c + "/") == c
  {
    var s := "/" + c + "/";
    assert LeadingSlash(s);
    assert s[|s| - 1] == '/';
    assert TrailingSlash(s) == |s| - 1;
    assert s[1..|s| - 1] == c;
  }

  /** A segment without any '/' passes through unchanged. */
  lemma RemoveSlashNoSlash(s: string)
    requires '/' !in s
    ensures RemoveSlash(s) == s
  {
    if |s| > 0 { assert s[0] in s; }
  }

  function StripAll(segments: seq<string>): (r: seq<string>)
    ensures |r| == |segments|
    ensures forall k :: 0 <= k < |r| ==> r[k] == RemoveSlash(segments[k])
  {
    seq(|segments|, k requires 0 <= k < |segments| => RemoveSlash(segments[k]))
  }

  /** `url_builder`: the '/'-join of the stripped segments. */
  function UrlBuilder(segments: seq<string>): string {
    Join("/", StripAll(segments))
  }

  /** Splitting a built URL on '/' gives back every stripped segment, empty
      ones included, when no stripped segment holds a '/' of its own. */
  lemma UrlBuilderSplits(segments: seq<string>)
    requires |segments| >= 1
    requires forall k :: 0 <= k < |segments| ==> '/' !in RemoveSlash(segments[k])
    ensures Split(UrlBuilder(segments), '/') == StripAll(segments)
  {
    SplitJoin(StripAll(segments), '/');
  }

  /** Empty segments are kept as empty strings, not dropped. */
  lemma UrlBuilderKeepsEmpty()
    ensures UrlBuilder(["a", "", "b"]) == "a//b"
  {
    RemoveSlashNoSlash("a");
    RemoveSlashNoSlash("b");
    assert StripAll(["a", "", "b"]) == ["a", "", "b"];
  }

  // ---------------------------------------------------------------------
  // Provider URLs

  const S3Base := "http:" + "//landsat-pds.s3.amazonaws.com/"
  const GoogleBase := "http:" + "//storage.googleapis.com/earthengine-public/landsat/"

  /** The S3 file name for a band: `{scene}_B{band}.TIF`, or `{scene}_MTL.txt`. */
  function S3FileName(scene: string, band: Band): string {
    if band != Name("MTL") then scene + "_B" + BandText(band) + ".TIF"
    else scene + "_MTL.txt"
  }

  /** `amazon_s3_url_landsat8`; its error branch cannot be reached, so it is
      total. (The two URL templates carry their definitions one step down, in
      `S3UrlAt` and `GoogleUrlAt`, so that the URL stays folded wherever only
      its identity matters; `AmazonS3UrlShape` and `GoogleUrlShape` unfold it.) */
  function AmazonS3UrlLandsat8(sat: Anatomy, band: Band): string {
    S3UrlAt(sat, band, |sat.scene| + 1)
  }

  function S3UrlAt(sat: Anatomy, band: Band, depth: nat): string
    decreases depth
  {
    if depth > |sat.scene| then S3UrlAt(sat, band, |sat.scene|)
    else UrlBuilder([S3Base, sat.sat, sat.path, sat.row, sat.scene, S3FileName(sat.scene, band)])
  }

  /** `google_storage_url_landsat8`. */
  function GoogleStorageUrlLandsat8(sat: Anatomy): string {
    GoogleUrlAt(sat, |sat.scene| + 1)
  }

  function GoogleUrlAt(sat: Anatomy, depth: nat): string
    decreases depth
  {
    if depth > |sat.scene| then GoogleUrlAt(sat, |sat.scene|)
    else UrlBuilder([GoogleBase, sat.sat, sat.path, sat.row, sat.scene + ".tar.bz"])
  }

  lemma JoinStep(sep: string, x: string, rest: seq<string>)
    requires |rest| >= 1
    ensures Join(sep, [x] + rest) == x + sep + Join(sep, rest)
  {
    assert ([x] + rest)[1..] == rest;
  }

  lemma StripAllClean(segs: seq<string>)
    requires forall k :: 0 <= k < |segs| ==> '/' !in segs[k]
    ensures StripAll(segs) == segs
  {
    forall k | 0 <= k < |segs| ensures StripAll(segs)[k] == segs[k] {
      RemoveSlashNoSlash(segs[k]);
    }
  }

  lemma StripAllCons(x: string, segs: seq<string>)
    ensures StripAll([x] + segs) == [RemoveSlash(x)] + StripAll(segs)
  {
    var l, r := StripAll([x] + segs), [RemoveSlash(x)] + StripAll(segs);
    assert |l| == |r|;
    forall k | 0 <= k < |l| ensures l[k] == r[k] {
      if k > 0 { assert ([x] + segs)[k] == segs[k - 1]; }
    }
  }

  /** A base that ends in one '/' loses exactly that '/'. */
  lemma RemoveSlashOfBase(base: string)
    requires EndsWith(base, "/") && !LeadingSlash(base) && |base| >= 2
    ensures RemoveSlash(base) + "/" == base
  {
    assert base[|base| - 1..] == "/";
    assert base[|base| - 1] == '/';
    assert TrailingSlash(base) == |base| - 1;
    assert RemoveSlash(base) == base[..|base| - 1];
  }

  /** '/'-free segments after a base that ends in one '/'. */
  lemma UrlOfCleanSegments(base: string, segs: seq<string>)
    requires |segs| >= 1
    requires EndsWith(base, "/") && !LeadingSlash(base) && |base| >= 2
    requires forall k :: 0 <= k < |segs| ==> '/' !in segs[k]
    ensures UrlBuilder([base] + segs) == base + Join("/", segs)
  {
    RemoveSlashOfBase(base);
    StripAllClean(segs);
    StripAllCons(base, segs);
    JoinStep("/", RemoveSlash(base), segs);
    assert UrlBuilder([base] + segs) == RemoveSlash(base) + "/" + Join("/", segs);
  }

  /** A '/'-free, '?'-free text after the last '/' is what `fetch` names the file. */
  lemma FetchNameOfSuffix(prefix: string, name: string)
    requires '/' !in name && '?' !in name
    ensures FetchName(prefix + "/" + name) == name
  {
    var u := prefix + "/" + name;
    assert FetchName(u) == FetchNameAt(u, |u|);
    assert u[|prefix|] == '/';
    assert forall k :: |prefix| < k < |u| ==> u[k] == name[k - |prefix| - 1];
    assert LastIndex(u, '/') == |prefix|;
    assert u[|prefix| + 1..] == name;
    assert FirstIndex(name, '?') < 0;
  }

  /** A query string after the last '/'-segment is cut off: the file is named
      by the segment alone. */
  lemma FetchNameWithQuery(prefix: string, name: string, query: string)
    requires '/' !in name && '/' !in query && '?' !in name
    ensures FetchName(prefix + "/" + name + "?" + query) == name
  {
    var tail := name + ("?" + query);
    var u := prefix + "/" + tail;
    assert u == prefix + "/" + name + "?" + query;
    assert FetchName(u) == FetchNameAt(u, |u|);
    assert '/' !in tail by {
      forall k | 0 <= k < |tail| ensures tail[k] != '/' {
        if k < |name| { assert tail[k] == name[k]; }
        else if k > |name| { assert tail[k] == query[k - |name| - 1]; }
      }
    }
    LastIndexBeforeClean(prefix, '/', tail);
    assert AfterLast(u, '/') == tail;
    FirstIndexAfterClean(name, '?', "?" + query);
    assert tail[..|name|] == name;
  }

  /** Joining one more part appends the separator and the part. */
  lemma {:induction false} JoinSnoc(sep: string, parts: seq<string>, x: string)
    requires |parts| >= 1
    ensures Join(sep, parts + [x]) == Join(sep, parts) + sep + x
  {
    if |parts| == 1 {
      assert (parts + [x])[1..] == [x];
    } else {
      assert (parts + [x])[1..] == parts[1..] + [x];
      JoinSnoc(sep, parts[1..], x);
    }
  }

  lemma Assoc(a: string, b: string, c: string, d: string)
    ensures a + (b + c + d) == a + b + c + d
  {
  }

  /** Four parts joined by '/'. */
  lemma Join4(a: string, b: string, c: string, d: string)
    ensures Join("/", [a, b, c, d]) == a + "/" + b + "/" + c + "/" + d
  {
    JoinSnoc("/", [a, b, c], d);
    assert [a, b, c] + [d] == [a, b, c, d];
    Join3(a, b, c);
  }

  /** Three parts joined by '/'. */
  lemma Join3(a: string, b: string, c: string)
    ensures Join("/", [a, b, c]) == a + "/" + b + "/" + c
  {
    JoinSnoc("/", [a, b], c);
    assert [a, b] + [c] == [a, b, c];
    JoinSnoc("/", [a], b);
    assert [a] + [b] == [a, b];
  }

  /** A URL built from a base ending in '/' and '/'-free segments is the base
      followed by the segments joined, and `fetch` names it after the last segment. */
  lemma UrlWithLast(base: string, segs: seq<string>, last: string)
    requires |segs| == 3 || |segs| == 4
    requires EndsWith(base, "/") && !LeadingSlash(base) && |base| >= 2
    requires forall k :: 0 <= k < |segs| ==> '/' !in segs[k]
    requires '/' !in last && '?' !in last
    ensures UrlBuilder([base] + segs + [last]) == base + Join("/", segs + [last])
    ensures FetchName(UrlBuilder([base] + segs + [last])) == last
  {
    var all := segs + [last];
    forall k | 0 <= k < |all| ensures '/' !in all[k] {
      if k < |segs| { assert all[k] == segs[k]; } else { assert all[k] == last; }
    }
    UrlOfCleanSegments(base, all);
    assert [base] + segs + [last] == [base] + all;
    JoinSnoc("/", segs, last);
    var j := Join("/", segs);
    Assoc(base, j, "/", last);
    FetchNameOfSuffix(base + j, last);
  }

  lemma BaseFacts()
    ensures EndsWith(S3Base, "/") && !LeadingSlash(S3Base) && |S3Base| >= 2
    ensures EndsWith(GoogleBase, "/") && !LeadingSlash(GoogleBase) && |GoogleBase| >= 2
  {
    assert S3Base[0] == 'h' && GoogleBase[0] == 'h';
  }

  /** For an id free of '/' and '?', the S3 URL is the base followed by sat,
      path, row, scene and file name, and `fetch` stores it under that file name. */
  lemma AmazonS3UrlShape(id: string, band: Band)
    requires |id| == 21 && '/' !in id && '?' !in id
    requires '/' !in BandText(band) && '?' !in BandText(band)
    ensures var url := AmazonS3UrlLandsat8(LandsatSceneInterpreter(id).value, band);
      && url == S3Base + Join("/", ["L" + id[2..3], id[3..6], id[6..9], id, S3FileName(id, band)])
      && FetchName(url) == S3FileName(id, band)
  {
    var a := LandsatSceneInterpreter(id).value;
    assert AmazonS3UrlLandsat8(a, band) == S3UrlAt(a, band, |a.scene|);
    var f := S3FileName(id, band);
    assert '/' !in f && '?' !in f by {
      assert f == id + "_B" + BandText(band) + ".TIF" || f == id + "_MTL.txt";
    }
    var segs := [a.sat, a.path, a.row, a.scene];
    assert [S3Base, a.sat, a.path, a.row, a.scene, f] == [S3Base] + segs + [f];
    assert segs + [f] == [a.sat, a.path, a.row, a.scene, f];
    BaseFacts();
    UrlWithLast(S3Base, segs, f);
  }

  /** For an id free of '/' and '?', the Google URL is the base followed by sat,
      path, row and `{scene}.tar.bz`, and `fetch` stores it under that name. */
  lemma GoogleUrlShape(id: string)
    requires |id| == 21 && '/' !in id && '?' !in id
    ensures var url := GoogleStorageUrlLandsat8(LandsatSceneInterpreter(id).value);
      && url == GoogleBase + Join("/", ["L" + id[2..3], id[3..6], id[6..9], id + ".tar.bz"])
      && FetchName(url) == id + ".tar.bz"
  {
    var a := LandsatSceneInterpreter(id).value;
    assert GoogleStorageUrlLandsat8(a) == GoogleUrlAt(a, |a.scene|);
    var f := id + ".tar.bz";
    var segs := [a.sat, a.path, a.row];
    BaseFacts();
    assert [GoogleBase, a.sat, a.path, a.row, f] == [GoogleBase] + segs + [f];
    assert segs + [f] == [a.sat, a.path, a.row, f];
    UrlWithLast(GoogleBase, segs, f);
  }

  /** The Google URL of tests/test_common.py:52-57, in full. */
  lemma GoogleUrlExample()
    ensures GoogleStorageUrlLandsat8(LandsatSceneInterpreter("LT81360082013127LGN01").value)
         == GoogleBase + "L8/136/008/" + "LT81360082013127LGN01.tar.bz"
  {
    var id := "LT81360082013127LGN01";
    ExampleFields(id);
    GoogleUrlShape(id);
    ExampleGoogleFile(id);
    var f := id + ".tar.bz";
    Join4("L8", "136", "008", f);
    ExamplePrefix(f);
    ConcatAssoc(GoogleBase, "L8/136/008/", f);
  }

  /** The S3 URL of tests/test_common.py:59-63, in full. */
  lemma AmazonS3UrlExample()
    ensures AmazonS3UrlLandsat8(LandsatSceneInterpreter("LT81360082013127LGN01").value, Num(11))
         == S3Base + "L8/136/008/" + "LT81360082013127LGN01/LT81360082013127LGN01_B11.TIF"
  {
    var id := "LT81360082013127LGN01";
    ExampleFields(id);
    ExampleS3Name(id);
    AmazonS3UrlShape(id, Num(11));
    ExampleS3Tail(id, id + "_B11.TIF");
    ConcatAssoc(S3Base, "L8/136/008/", "LT81360082013127LGN01/LT81360082013127LGN01_B11.TIF");
  }

  lemma ExampleS3Tail(id: string, f: string)
    requires id == "LT81360082013127LGN01" && f == id + "_B11.TIF"
    ensures Join("/", ["L8", "136", "008", id, f])
         == "L8/136/008/" + "LT81360082013127LGN01/LT81360082013127LGN01_B11.TIF"
  {
    JoinSnoc("/", ["L8", "136", "008", id], f);
    assert ["L8", "136", "008", id] + [f] == ["L8", "136", "008", id, f];
    Join4("L8", "136", "008", id);
    ExamplePrefix(id);
    var p := "L8/136/008/";
    assert Join("/", ["L8", "136", "008", id, f]) == p + id + "/" + f;
    Assoc(p, id, "/", f);
    ExampleS3File(id, f);
  }

  /** The fixed-width fields of the example id. */
  lemma ExampleFields(id: string)
    requires id == "LT81360082013127LGN01"
    ensures "L" + id[2..3] == "L8" && id[3..6] == "136" && id[6..9] == "008"
    ensures '/' !in id && '?' !in id
  {
  }

  lemma ExampleS3Name(id: string)
    requires |id| == 21
    ensures S3FileName(id, Num(11)) == id + "_B11.TIF"
  {
    assert BandText(Num(11)) == "11";
  }

  lemma ExampleS3File(id: string, f: string)
    requires id == "LT81360082013127LGN01" && f == id + "_B11.TIF"
    ensures id + "/" + f == "LT81360082013127LGN01/LT81360082013127LGN01_B11.TIF"
  {
  }

  lemma ExampleGoogleFile(id: string)
    requires id == "LT81360082013127LGN01"
    ensures id + ".tar.bz" == "LT81360082013127LGN01.tar.bz"
  {
  }

  lemma ExamplePrefix(x: string)
    ensures "L8" + "/" + "136" + "/" + "008" + "/" + x == "L8/136/008/" + x
  {
    assert "L8" + "/" + "136" + "/" + "008" + "/" == "L8/136/008/";
  }

  /** Concatenation is associative (stated once, for the places that need it spelled out). */
  lemma ConcatAssoc<T>(a: seq<T>, b: seq<T>, c: seq<T>)
    ensures a + (b + c) == a + b + c
  {
  }

  // ---------------------------------------------------------------------
  // Existence probe

  /** `remote_file_exists` once the HEAD status is known: True on 200, raise otherwise. */
  function RemoteFileExists(status: int): (r: Result<bool>)
    ensures r.Success? <==> status == 200
    ensures r.Success? ==> r.value
    ensures r.Failure? ==> r.error.RemoteFileDoesntExist?
  {
    if status == 200 then Success(true) else Failure(RemoteFileDoesntExist(""))
  }

  /** The HEAD status of `url`: 200 for the URLs in `live`, 404 for every other. */
  function StatusOf(live: set<string>, url: string): int {
    if url in live then 200 else 404
  }

  /** Probe a URL against the remote oracle. */
  function Probe(live: set<string>, url: string): Result<bool> {
    RemoteFileExists(StatusOf(live, url))
  }

  // ---------------------------------------------------------------------
  // Fetch

  /** The file name `fetch` derives: the last '/'-segment, cut at the first '?'. */
  function FetchName(url: string): (r: string)
    ensures '/' !in r && '?' !in r
  {
    FetchNameAt(url, |url| + 1)
  }

  function FetchNameAt(url: string, depth: nat): (r: string)
    ensures '/' !in r && '?' !in r
    decreases depth
  {
    if depth > |url| then FetchNameAt(url, |url|) else
    var r := BeforeFirst(AfterLast(url, '/'), '?');
    assert '/' !in r by {
      forall k | 0 <= k < |r| ensures r[k] != '/' {
        var a := AfterLast(url, '/');
        assert r[k] == a[k];
        assert a[k] in a;
      }
    }
    r
  }

  /** A transfer performed by the download primitive: `download(url, dir)`. */
  datatype Transfer = Transfer(url: string, dir: string)

  /** The local disk as the downloader sees it: existing files, created
      folders, and the log of transfers made so far. */
  datatype Disk = Disk(files: set<string>, folders: set<string>, transfers: seq<Transfer>)
  {
    /** `os.path.exists(p)`: true for a file and for a folder alike. */
    predicate Exists(p: string) {
      p in files || p in folders
    }
  }

  /** One `fetch(url, dir)`: the target is `join(dir, name)`; the transfer
      happens exactly when nothing exists at that path, and leaves a file there. */
  function FetchStep(d: Disk, url: string, dir: string): (r: (string, Disk))
    ensures r.0 == PathJoin(dir, FetchName(url))
    ensures d.Exists(r.0) ==> r.1 == d
    ensures !d.Exists(r.0) ==> && r.1.files == d.files + {r.0}
                               && r.1.transfers == d.transfers + [Transfer(url, dir)]
    ensures r.1.Exists(r.0) && d.files <= r.1.files
    ensures r.1.folders == d.folders
  {
    var target := PathJoin(dir, FetchName(url));
    if d.Exists(target) then (target, d)
    else (target, Disk(d.files + {target}, d.folders, d.transfers + [Transfer(url, dir)]))
  }

  /** `check_create_folder(p)`: nothing happens when a file or a folder
      already exists at `p`; otherwise the folder is made. */
  function CreateFolder(d: Disk, p: string): (r: Disk)
    ensures r.Exists(p) && r.files == d.files && r.transfers == d.transfers
    ensures d.Exists(p) ==> r == d
    ensures !d.Exists(p) ==> r.folders == d.folders + {p}
  {
    if d.Exists(p) then d else Disk(d.files, d.folders + {p}, d.transfers)
  }

  /** In order, `acc.append(fetch(url, dir))` for every URL. */
  function FetchAll(d: Disk, urls: seq<string>, dir: string, acc: seq<string>): (r: (seq<string>, Disk))
    ensures r.1.folders == d.folders
    decreases |urls|
  {
    if urls == [] then (acc, d)
    else
      var s := FetchStep(d, urls[0], dir);
      FetchAll(s.1, urls[1..], dir, acc + [s.0])
  }

  /** The paths `fetch` returns for `urls` into `dir`, one per URL. */
  function Targets(urls: seq<string>, dir: string): (r: seq<string>)
    ensures |r| == |urls|
  {
    if urls == [] then [] else [PathJoin(dir, FetchName(urls[0]))] + Targets(urls[1..], dir)
  }

  /** The `k`-th target is where the `k`-th URL is stored. */
  lemma {:induction false} TargetsAt(urls: seq<string>, dir: string, k: int)
    requires 0 <= k < |urls|
    ensures Targets(urls, dir)[k] == PathJoin(dir, FetchName(urls[k]))
  {
    if k > 0 {
      TargetsAt(urls[1..], dir, k - 1);
    }
  }

  /** The batch returns the accumulated paths followed by one target per URL, in order. */
  lemma {:induction false} FetchAllPaths(d: Disk, urls: seq<string>, dir: string, acc: seq<string>)
    ensures FetchAll(d, urls, dir, acc).0 == acc + Targets(urls, dir)
    decreases |urls|
  {
    if urls != [] {
      var s := FetchStep(d, urls[0], dir);
      FetchAllPaths(s.1, urls[1..], dir, acc + [s.0]);
    }
  }

  /** Afterwards the paths that exist are exactly those that existed before plus every target. */
  lemma {:induction false} FetchAllFiles(d: Disk, urls: seq<string>, dir: string, acc: seq<string>)
    ensures forall f :: FetchAll(d, urls, dir, acc).1.Exists(f) <==> d.Exists(f) || f in Targets(urls, dir)
    ensures d.files <= FetchAll(d, urls, dir, acc).1.files && FetchAll(d, urls, dir, acc).1.folders == d.folders
    decreases |urls|
  {
    if urls != [] {
      var s := FetchStep(d, urls[0], dir);
      FetchAllFiles(s.1, urls[1..], dir, acc + [s.0]);
    }
  }

  /** The transfer log only grows, and every new entry is one of the URLs, into `dir`. */
  lemma {:induction false} FetchAllTransfers(d: Disk, urls: seq<string>, dir: string, acc: seq<string>)
    ensures var t := FetchAll(d, urls, dir, acc).1.transfers;
      && |d.transfers| <= |t| <= |d.transfers| + |urls| && t[..|d.transfers|] == d.transfers
      && forall k :: |d.transfers| <= k < |t| ==> t[k].dir == dir && t[k].url in urls
    decreases |urls|
  {
    if urls != [] {
      var s := FetchStep(d, urls[0], dir);
      FetchAllTransfers(s.1, urls[1..], dir, acc + [s.0]);
      var t := FetchAll(d, urls, dir, acc).1.transfers;
      assert t[..|s.1.transfers|] == s.1.transfers;
      assert t[..|d.transfers|] == s.1.transfers[..|d.transfers|];
      forall k | |d.transfers| <= k < |t| ensures t[k].dir == dir && t[k].url in urls {
        if k >= |s.1.transfers| {
          assert t[k].url in urls[1..];
        } else {
          assert t[k] == s.1.transfers[k] == Transfer(urls[0], dir);
        }
      }
    }
  }

  /** Fetching is idempotent: a second `fetch` of the same URL into the same
      directory returns the same path and transfers nothing. */
  lemma FetchIdempotent(d: Disk, url: string, dir: string)
    ensures var (p, d1) := FetchStep(d, url, dir);
      FetchStep(d1, url, dir) == (p, d1)
  {
  }

  /** Repeating a whole batch of fetches transfers nothing and returns the same paths. */
  lemma FetchAllIdempotent(d: Disk, urls: seq<string>, dir: string, acc: seq<string>)
    ensures var (ps, d1) := FetchAll(d, urls, dir, acc);
      FetchAll(d1, urls, dir, acc) == (ps, d1)
  {
    var (ps, d1) := FetchAll(d, urls, dir, acc);
    FetchAllFiles(d, urls, dir, acc);
    FetchAllPresent(d1, urls, dir, acc);
    FetchAllPaths(d, urls, dir, acc);
    FetchAllPaths(d1, urls, dir, acc);
  }

  /** When every target is already present, a batch of fetches changes nothing. */
  lemma {:induction false} FetchAllPresent(d: Disk, urls: seq<string>, dir: string, acc: seq<string>)
    requires forall f :: f in Targets(urls, dir) ==> d.Exists(f)
    ensures FetchAll(d, urls, dir, acc).1 == d
    decreases |urls|
  {
    if urls != [] {
      FetchAllPresent(d, urls[1..], dir, acc + [PathJoin(dir, FetchName(urls[0]))]);
    }
  }

  /** The local file system: the mutable counterpart of `Disk`. */
  class Storage {
    var files: set<string>
    var folders: set<string>
    var transfers: seq<Transfer>

    function State(): Disk
      reads this
    {
      Disk(files, folders, transfers)
    }

    constructor (files: set<string>, folders: set<string>)
      ensures State() == Disk(files, folders, [])
    {
      this.files := files;
      this.folders := folders;
      this.transfers := [];
    }

    /** `fetch(url, path)`: returns `join(path, name)`; downloads only when that
        file is absent (an existing file of any size suppresses the download). */
    method Fetch(url: string, path: string) returns (p: string)
      modifies this
      ensures (p, State()) == FetchStep(old(State()), url, path)
    {
      var filename := FetchName(url);
      p := PathJoin(path, filename);
      if p !in files && p !in folders {
        transfers := transfers + [Transfer(url, path)];
        files := files + {p};
      }
    }

    /** `check_create_folder(p)`: `makedirs` only when nothing exists at `p`. */
    method CheckCreateFolder(p: string) returns (r: string)
      modifies this
      ensures r == p && State() == CreateFolder(old(State()), p)
    {
      if p !in files && p !in folders {
        folders := folders + {p};
      }
      r := p;
    }

    /** The loop `for url in urls: acc.append(fetch(url, dir))`. */
    method FetchEach(urls: seq<string>, dir: string, acc: seq<string>) returns (paths: seq<string>)
      modifies this
      ensures (paths, State()) == FetchAll(old(State()), urls, dir, acc)
    {
      paths := acc;
      var i := 0;
      while i < |urls|
        invariant 0 <= i <= |urls|
        invariant FetchAll(old(State()), urls, dir, acc) == FetchAll(State(), urls[i..], dir, paths)
      {
        assert urls[i..][1..] == urls[i + 1..];
        var p := Fetch(urls[i], dir);
        paths := paths + [p];
        i := i + 1;
      }
    }
  }
}
