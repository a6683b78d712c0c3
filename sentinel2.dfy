/** The Sentinel-2 downloader: band-name conversion in front of the S3 mixin. */
module Sentinel2 {
  import opened Errors
  import opened Common
  import opened Download

  /** `_bandmap`: band names and their Sentinel-2 band numbers. */
  const BandMap: map<string, int> :=
    map["coastal" := 1, "blue" := 2, "green" := 3, "red" := 4, "nir" := 8, "swir1" := 11, "swir2" := 12]

  /** `bands[i] = _bandmap[b]`, keeping `b` when the lookup raises KeyError. */
  function Convert(b: Band): Band {
    if b.Name? && b.name in BandMap then Num(BandMap[b.name]) else b
  }

  /** Every element converted, in place and in order. */
  function ConvertAll(bands: seq<Band>): (r: seq<Band>)
    ensures |r| == |bands|
  {
    if bands == [] then [] else [Convert(bands[0])] + ConvertAll(bands[1..])
  }

  /** The `k`-th band after conversion is the `k`-th band converted: a map
      key becomes its number, anything else stays as it was. */
  lemma {:induction false} ConvertAllAt(bands: seq<Band>, k: int)
    requires 0 <= k < |bands|
    ensures ConvertAll(bands)[k] == Convert(bands[k])
    ensures bands[k].Name? && bands[k].name in BandMap ==> ConvertAll(bands)[k] == Num(BandMap[bands[k].name])
    ensures !(bands[k].Name? && bands[k].name in BandMap) ==> ConvertAll(bands)[k] == bands[k]
  {
    if k > 0 {
      ConvertAllAt(bands[1..], k - 1);
    }
  }

  /** The numbers the map produces are not names, so converting twice is
      converting once. */
  lemma {:induction false} ConvertAllIdempotent(bands: seq<Band>)
    ensures ConvertAll(ConvertAll(bands)) == ConvertAll(bands)
  {
    if bands != [] {
      var c := ConvertAll(bands);
      assert c[1..] == ConvertAll(bands[1..]);
      ConvertAllIdempotent(bands[1..]);
    }
  }

  /** A mixed list: a name of the map becomes its number; a number and a
      name outside the map are kept. */
  lemma ConvertExample()
    ensures ConvertAll([Name("swir1"), Num(4), Name("QA")]) == [Num(11), Num(4), Name("QA")]
  {
    var bs := [Name("swir1"), Num(4), Name("QA")];
    assert "swir1" in BandMap && BandMap["swir1"] == 11;
    assert "QA" !in BandMap;
    assert bs[1..] == [Num(4), Name("QA")] && bs[1..][1..] == [Name("QA")] && bs[1..][1..][1..] == [];
  }

  /** The downloader, with the scene interpreter and S3 URL template it binds
      at construction. */
  class Sentinel2<P> {
    const downloadDir: string
    const interpret: string -> Result<P>
    const s3Url: (P, Band) -> string

    /** `Sentinel2(download_dir)`: the download directory is created. */
    constructor (disk: Storage, downloadDir: string, interpret: string -> Result<P>, s3Url: (P, Band) -> string)
      modifies disk
      ensures this.downloadDir == downloadDir && this.interpret == interpret && this.s3Url == s3Url
      ensures disk.State() == CreateFolder(old(disk.State()), downloadDir)
    {
      this.downloadDir := downloadDir;
      this.interpret := interpret;
      this.s3Url := s3Url;
      new;
      var _ := disk.CheckCreateFolder(downloadDir);
    }

    /** `_band_converter(bands)`: the caller's list, rewritten in place, is
        returned; None comes back as None. */
    method BandConverter(bands: BandList?) returns (r: BandList?)
      modifies bands
      ensures r == bands
      ensures bands != null ==> bands.items == ConvertAll(old(bands.items))
    {
      if bands != null && bands.items != [] {
        ghost var before := bands.items;
        var i := 0;
        while i < |bands.items|
          invariant 0 <= i <= |bands.items| == |before|
          invariant forall k :: 0 <= k < i ==> bands.items[k] == Convert(before[k])
          invariant forall k :: i <= k < |before| ==> bands.items[k] == before[k]
        {
          var b := bands.items[i];
          if b.Name? && b.name in BandMap {
            bands.items := bands.items[i := Num(BandMap[b.name])];
          }
          i := i + 1;
        }
        forall k | 0 <= k < |before| ensures bands.items[k] == ConvertAll(before)[k] {
          ConvertAllAt(before, k);
        }
      }
      r := bands;
    }

    /** `download(scenes, bands)`: the bands are converted first, even when
        the scene list is then refused; then the mixin's `s3` runs with them. */
    method Download(disk: Storage, live: set<string>, scenes: ListArg<string>, bands: BandList?) returns (r: Result<Scenes>)
      modifies disk, bands
      ensures bands != null ==> bands.items == ConvertAll(old(bands.items))
      ensures scenes.NotList? ==> r == Failure(PlainException("Expected scene list")) && unchanged(disk)
      ensures scenes.List? ==>
        var c := S3Setup(live, Items(bands), downloadDir, interpret, s3Url);
        var (res, d1) := S3Run(old(disk.State()), c, scenes.items, []);
        && disk.State() == d1
        && (res.Failure? ==> r == Failure(res.error))
        && (res.Success? ==> r.Success? && fresh(r.value) && r.value.Coherent() && Describes(r.value, res.value))
    {
      var converted := BandConverter(bands);
      if scenes.NotList? {
        return Failure(PlainException("Expected scene list"));
      }
      r := S3(disk, S3Setup(live, Items(converted), downloadDir, interpret, s3Url), scenes);
    }
  }
}
