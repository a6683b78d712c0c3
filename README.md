# sat-download core, modelled in Dafny

This project models the core of `sdownloader`, a Python library that
downloads Landsat-8 and Sentinel-2 satellite imagery. It covers four parts:

- Landsat-8 scene-id interpretation, the S3 and Google Storage URL
  templates, the HEAD-status existence probe and the `fetch` primitive
  (`common.py`);
- the `Scene` and `Scenes` containers and the generic S3 download loop
  that both downloaders share (`download.py`);
- the Landsat-8 downloader, which tries AWS S3 first, then Google Storage,
  then USGS Earth Explorer, adding the QA band and the MTL file to the
  band list (`landsat8.py`);
- the Sentinel-2 downloader, which maps band names to band numbers before
  calling the S3 loop (`sentinel2.py`).

How the model is built:

- **Side effects become values.**
  - The network is a set `live` of URLs that answer HEAD with 200.
  - The local file system is a `Disk` value: existing files, created
    folders and a log of transfers.
  - The USGS service is a pair of functions.
  - Python exceptions are `Failure` values in `Errors.Result` and
    `Errors.Outcome`.
- **Loops are methods with specifications.** Most loops of the source
  are specified by a recursive function. An imperative method (on
  `Common.Storage`, `Download.Scenes`, `Landsat8.Landsat8` or
  `Sentinel2.Sentinel2`) is proved equal to that function. The lemmas
  about the functions then carry the properties over to the methods.
  The loops of `Scene.AddEach` and `Scenes.Build` are instead specified
  directly, element by element, in their `ensures`.
- **Objects the source mutates are classes.** `Scene`, `Scenes`, the
  caller's band list (`Common.BandList`) and the disk (`Common.Storage`)
  are classes with mutable fields.

Files:

| file | module | models |
|---|---|---|
| errors.dfy | `Errors` | the exception kinds and the `Result`/`Outcome` wrappers |
| text.dfy | `Text` | the `str` methods used: `find`, `rfind`, `split`, `join`, `replace`, `str(int)` |
| posixpath.dfy | `PosixPath` | `os.path.join`, `basename`, `split`, `splitext` |
| common.dfy | `Common` | `sdownloader/common.py` |
| download.dfy | `Download` | `sdownloader/download.py` |
| landsat8.dfy | `Landsat8` | `sdownloader/landsat8.py` |
| sentinel2.dfy | `Sentinel2` | `sdownloader/sentinel2.py` |

## Model

| member | source | states |
|---|---|---|
| Common.LandsatSceneInterpreter | sdownloader/common.py:14-45 | it succeeds exactly for 21-character ids, keeps the id as `scene`, and otherwise raises IncorrectLandsat8SceneId('Received incorrect scene') |
| Common.InterpreterFields | sdownloader/common.py:38-43 | path, row and sat have widths 3, 3 and 2; sat starts with 'L'; putting the fields back in place rebuilds the first nine characters of the id |
| Common.InterpreterExample | tests/test_common.py:92-99 | 'LC80030172015001LGN00' gives path 003, row 017, sat L8; a 19-character id fails |
| Common.RemoveSlash | sdownloader/common.py:93-96 | at most one character is removed at each end; a value with no leading '/' and no trailing match comes back unchanged |
| Common.RemoveSlashSandwich | sdownloader/common.py:96 | without a final newline, the input is at most one '/', then the result, then at most one '/': nothing in between is lost (the `//` of `http://` included) |
| Common.RemoveSlashBeforeNewline | sdownloader/common.py:96 | Python's `$` also matches before a final newline, so the '/' before that newline is the one removed |
| Common.RemoveSlashUnwraps | sdownloader/common.py:96 | `'/' + c + '/'` becomes `c`, whatever `c` is |
| Common.RemoveSlashNoSlash | sdownloader/common.py:96 | a segment containing no '/' is unchanged |
| Common.UrlBuilderSplits | sdownloader/common.py:99-103 | splitting a built URL on '/' gives back every stripped segment, empty ones included, when no stripped segment contains a '/' |
| Common.UrlBuilderKeepsEmpty | sdownloader/common.py:103 | an empty segment becomes an empty component (`a//b`); it is not dropped |
| Common.UrlBuilder | sdownloader/common.py:99-103 | definition only: the '/'-join of every segment after `remove_slash`; no contract of its own, its properties are those of UrlBuilderSplits, UrlBuilderKeepsEmpty and UrlOfCleanSegments |
| Common.S3FileName | sdownloader/common.py:122-125 | definition only: `{scene}_B{band}.TIF` for a band other than 'MTL', `{scene}_MTL.txt` for 'MTL'; no contract of its own |
| Common.AmazonS3UrlLandsat8 | sdownloader/common.py:106-129 | definition only: the S3 base, sat, path, row, scene and file name through `url_builder`; total, because the raising branch of line 127 is unreachable; its closed form is AmazonS3UrlShape's |
| Common.GoogleStorageUrlLandsat8 | sdownloader/common.py:132-145 | definition only: the Google base, sat, path, row and `{scene}.tar.bz` through `url_builder`; its closed form is GoogleUrlShape's |
| Common.UrlOfCleanSegments | sdownloader/common.py:99-103 | after a base ending in one '/', '/'-free segments are joined to the base with exactly one '/' between any two |
| Common.AmazonS3UrlShape | sdownloader/common.py:106-129 | for a well-formed id, the S3 URL is the bucket followed by sat/path/row/scene and `{scene}_B{band}.TIF` (or `{scene}_MTL.txt` for 'MTL'); `fetch` stores it under that file name |
| Common.GoogleUrlShape | sdownloader/common.py:132-145 | the Google URL is the bucket followed by sat/path/row and `{scene}.tar.bz`; `fetch` stores it under that name |
| Common.GoogleUrlExample | tests/test_common.py:52-57 | the exact Google URL of scene LT81360082013127LGN01 |
| Common.AmazonS3UrlExample | tests/test_common.py:59-63 | the exact S3 URL of band 11 of that scene |
| Common.RemoteFileExists | sdownloader/common.py:76-90 | True exactly on status 200; RemoteFileDoesntExist on any other status |
| Common.Probe | sdownloader/common.py:76-90 | definition only: `remote_file_exists` on the status the remote set gives (200 for a live URL, 404 otherwise); no contract of its own |
| Common.FetchName | sdownloader/common.py:166-170 | the stored name is the last '/'-segment cut at the first '?': it holds neither '/' nor '?' |
| Common.FetchNameOfSuffix | sdownloader/common.py:166-170 | a '/'-free and '?'-free text after the last '/' is exactly the stored name |
| Common.FetchNameWithQuery | sdownloader/common.py:166-170 | for `prefix/name?query` with no '/' in `name` or `query` and no '?' in `name`, the stored name is `name`: the query is cut off |
| Common.FetchStep | sdownloader/common.py:148-181 | returns `join(path, name)`; when a file or a folder already exists there the disk is unchanged, otherwise exactly one transfer `(url, path)` is logged and that file is added; folders are unchanged and something exists at the path afterwards |
| Common.CreateFolder | sdownloader/common.py:48-60 | when anything (file or folder) exists at the path nothing changes; otherwise the folder is added; files and transfers are untouched either way |
| Common.FetchAllPaths | sdownloader/download.py:158-159 | a batch of fetches returns the earlier paths followed by one target per URL, in URL order |
| Common.FetchAll | sdownloader/download.py:158-159 | `fetch` for each URL in order into one directory, threading the disk; its own ensures says the folders are unchanged, and FetchAllPaths, FetchAllFiles, FetchAllTransfers and FetchAllPresent state the rest |
| Common.Targets | sdownloader/common.py:181 | the paths `fetch` returns for a URL list: one per URL, `join(dir, name)` in URL order (its ensures gives the length) |
| Common.FetchAllFiles | sdownloader/download.py:158-159 | afterwards the paths that exist are exactly those that existed before plus every target; no file is lost and the folders are unchanged |
| Common.FetchAllTransfers | sdownloader/landsat8.py:157-158 | the transfer log only grows, by at most one entry per URL, and every new entry is one of the URLs, into the given directory |
| Common.FetchIdempotent | sdownloader/common.py:172-178 | fetching the same URL into the same directory a second time returns the same path and transfers nothing |
| Common.FetchAllIdempotent | sdownloader/common.py:172-178 | repeating a whole batch of fetches returns the same paths and leaves the disk exactly as it was |
| Common.FetchAllPresent | sdownloader/common.py:172-178 | when every target already exists, a batch of fetches changes nothing |
| Common.Storage.constructor | sdownloader/common.py:148-181 | the disk starts with the given files and folders and no transfers |
| Common.Storage.Fetch | sdownloader/common.py:148-181 | the in-place `fetch` returns the path and leaves the disk in the state `FetchStep` gives |
| Common.Storage.CheckCreateFolder | sdownloader/common.py:48-60 | returns the path and leaves the disk in the state `CreateFolder` gives |
| Common.Storage.FetchEach | sdownloader/download.py:158-159 | the fetch loop returns the paths and leaves the disk in the state `FetchAll` gives |
| Download.Scene.constructor | sdownloader/download.py:14-25 | a string argument is added once, a list element by element, anything else adds nothing; the scene is zipped exactly when it has a zip file |
| Download.Scene.Add | sdownloader/download.py:27-34 | the file always joins `files`; an archive becomes `zip_file` and sets `zipped`; any other file joins `band_files` |
| Download.Scene.AddEach | sdownloader/download.py:24-25 | the files are appended in order; a zipped scene stays zipped |
| Download.Scene.Unzip | sdownloader/download.py:36-57 | with no path and no zip file it raises TypeError; an unzipped scene raises 'Scene does not have a zip file associated with it' and changes nothing; otherwise the `*.tif`, `*.TIF` and `*.jp2` images are added as band files, the zip file is kept and `zipped` is cleared |
| Download.Scene.AddImages | sdownloader/download.py:51-55 | the glob matches of each pattern, in pattern order, are appended to both `files` and `band_files` |
| Download.ArchiveByExtension | sdownloader/download.py:28-29 | a file is an archive exactly when its extension (of its base name) is '.gz', '.bz' or '.bz2' |
| Download.BucketsPartition | sdownloader/download.py:27-34 | the band files and the archives together are a permutation of all added files |
| Download.BucketsClassify | sdownloader/download.py:27-34 | the band files are exactly the non-archives, and the archives exactly the archives |
| Download.LaterArchiveWins | sdownloader/download.py:30-31 | the zip file is the last archive added, whatever came before it |
| Download.NoArchiveNoZip | sdownloader/download.py:27-34 | with no archive among the files there is no zip file and every file is a band file |
| Download.BucketsOfSnoc | sdownloader/download.py:27-34 | adding a file one at a time changes both buckets as classifying the whole list would |
| Download.AppendBands | sdownloader/download.py:53-55 | adding files with no archive among them extends the band files by exactly those files and keeps the zip file |
| Download.GlobbedOrder | sdownloader/download.py:51-55 | the images added are the `*.tif` matches, then the `*.TIF`, then the `*.jp2` |
| Download.ImageNotArchive | sdownloader/download.py:51-55 | a file matched by an image pattern is never taken for an archive |
| Download.GlobNoArchive | sdownloader/download.py:54 | nothing that a glob over plain entry names returns is an archive |
| Download.Glob | sdownloader/download.py:54 | `glob(join(path, '*' + suffix))` over a listing: the non-hidden names ending in the suffix, joined to `path`, in listing order; its ensures says there are at most as many matches as entries |
| Download.GlobAll | sdownloader/download.py:51-55 | definition only: the matches of each pattern in pattern order; no contract of its own, GlobbedOrder and Scene.AddImages state its use |
| Download.Validate | sdownloader/download.py:100-104 | a Scene passes through unchanged; anything else raises 'scene must be an instance of Scene' |
| Download.ListIndex | sdownloader/download.py:73 | Python's `xs[i]`: defined exactly for `-n <= i < n`; a non-negative index is itself and a negative one counts from the end |
| Download.Lookup | sdownloader/download.py:71-77 | an int key in `-len..len-1` gives the list element at the Python position it denotes (`ListIndex`), else IndexError; a str key gives its map entry, else KeyError; any other key raises 'Key is not supported.' |
| Download.Store | sdownloader/download.py:79-85 | the key type is checked first, then the value is validated, then the index (IndexError out of range); an int key replaces the list element at the position it denotes and keeps the rest and the map; a str key sets that map entry and keeps the list |
| Download.StoreThenLookup | sdownloader/download.py:71-85 | reading a key right after a successful store under it gives the stored scene |
| Download.Register | sdownloader/download.py:93-95 | definition only: `scenes_dict[scene.name] = scene` for each scene in order; no contract of its own, RegisterSnoc, RegisterKeys, RegisterLast, RegisterKeep, RegisterAppend and RegisterNames state its properties |
| Download.RegisterSnoc | sdownloader/download.py:93-95 | adding one more scene updates its name's entry and nothing else |
| Download.RegisterKeys | sdownloader/download.py:87-95 | the map's keys are the old keys plus every name in the list |
| Download.RegisterLast | sdownloader/download.py:95 | a name maps to the last scene of the list that carries it |
| Download.RegisterKeep | sdownloader/download.py:95 | a name that no scene of the list carries keeps its entry |
| Download.RegisterAppend | sdownloader/download.py:106-111 | registering two lists in turn is registering their concatenation |
| Download.RegisterNames | sdownloader/download.py:95 | every registered name maps to a scene that carries that name |
| Download.Scenes.constructor | sdownloader/download.py:65-67 | an empty list and an empty map, which agree |
| Download.Scenes.Build | sdownloader/download.py:65-69 | succeeds exactly when every item is a Scene, and then lists them in order; otherwise it raises the validation error |
| Download.Scenes.Get | sdownloader/download.py:71-77 | `scenes[key]` is `Lookup` on the object's list and map; for a str key, when the views agree, the scene found carries that name |
| Download.Scenes.SetItem | sdownloader/download.py:79-85 | the new views are what `Store` gives; on error nothing changes |
| Download.Scenes.Len | sdownloader/download.py:87-88 | when the views agree, the length is the number of distinct names, not the number of scenes |
| Download.Scenes.Names | sdownloader/download.py:113-115 | the names in list order, repeats included |
| Download.Scenes.Add | sdownloader/download.py:93-95 | a Scene is appended to the list and registered under its name, keeping the views in agreement; a non-Scene raises and changes nothing |
| Download.Scenes.AddWithFiles | sdownloader/download.py:97-98 | a new valid Scene with those files is appended and registered |
| Download.Scenes.Merge | sdownloader/download.py:106-111 | every scene of the other collection is added in its list order; a non-Scenes raises 'scenes must be an instance of Scenes' and changes nothing |
| Download.DuplicateNames | sdownloader/download.py:87-95 | two scenes with one name: `len` is 1 while `scenes` lists the name twice |
| Download.BandUrlsAt | sdownloader/download.py:141-147 | the k-th URL is the template applied to the k-th band |
| Download.ScenePlanSpec | sdownloader/download.py:134-147 | a scene can be stored exactly when it is understood, bands were given and every band URL exists, and its URLs are the band URLs in band order; otherwise the interpreter's exception, the TypeError of iterating None, or RemoteFileDoesntExist is raised, in that order |
| Download.ScenePlan | sdownloader/download.py:137-147 | definition only: interpret the scene, then build and probe each band URL, yielding the URLs or the first exception; no contract of its own, ScenePlanSpec states it |
| Download.SceneFolder | sdownloader/download.py:149-154 | definition only: `join(download_dir, scene)` with every '/' of the scene replaced by '_'; no contract of its own |
| Download.S3SceneRun | sdownloader/download.py:134-161 | definition only: one scene of the loop, the plan, then `check_create_folder`, then every fetch into that folder; no contract of its own, S3SceneRunSpec and S3SceneRunPresent state it |
| Download.S3Run | sdownloader/download.py:124-163 | definition only: the scene loop, stopping at the first exception with the disk as it then is; no contract of its own, the S3Run lemmas state it |
| Download.S3SceneRunSpec | sdownloader/download.py:134-161 | nothing is written for a scene unless its whole plan succeeds; then its folder exists and the files returned are the targets of its URLs in that folder, each present, with nothing lost |
| Download.S3SceneRunPresent | sdownloader/download.py:149-159 | a scene whose folder and files are already present is stored again without touching the disk |
| Download.RecordsAt | sdownloader/download.py:161 | the k-th record is the k-th scene's name with its files |
| Download.S3RunSucceeds | sdownloader/download.py:124-163 | the loop succeeds exactly when every scene's plan succeeds |
| Download.S3RunRecords | sdownloader/download.py:134-163 | a successful loop records every scene, in order, with its files |
| Download.S3RunFirstFailure | sdownloader/download.py:134-147 | a failed loop reports the exception of the first scene whose plan fails; every scene before it succeeded |
| Download.S3RunGrows | sdownloader/download.py:134-161 | the loop never removes a file or a folder |
| Download.S3RunCovers | sdownloader/download.py:134-161 | after a successful run, every scene's folder and files are on the disk |
| Download.S3RunOver | sdownloader/download.py:134-161 | a run over a disk that already holds every scene returns the same records and leaves that disk as it is |
| Download.S3RunIdempotent | sdownloader/download.py:124-163 | downloading the same scenes again returns the same records and transfers nothing |
| Download.S3Scene | sdownloader/download.py:135-159 | the loop body (probe every band, create the folder with '/' turned into '_', fetch into it) computes exactly `S3SceneRun` |
| Download.Record | sdownloader/download.py:161 | after `add_with_files`, the Scenes object still stores one valid Scene per record, with the record's name and files |
| Download.S3 | sdownloader/download.py:124-163 | a non-list raises 'Expected scene list' and changes nothing; otherwise the disk ends as `S3Run` says, and on success a new Scenes object lists one scene per record, in order |
| Landsat8.AugmentSpec | sdownloader/landsat8.py:137-142 | the band list is only appended to, by at most two entries; 'MTL' is then present; 'QA' is appended exactly when 'BQA' is absent |
| Landsat8.Augment | sdownloader/landsat8.py:137-142 | definition only: 'QA' appended unless 'BQA' is present, then 'MTL' appended unless present; no contract of its own, AugmentSpec states it |
| Landsat8.L8SceneRun | sdownloader/landsat8.py:134-158 | definition only: one scene of `s3`, interpretation, augmentation, probing, folder creation and fetches into the download directory; no contract of its own, L8SceneRunSpec states it |
| Landsat8.L8S3Run | sdownloader/landsat8.py:124-160 | definition only: the scene loop of `s3`, stopping at the first exception; no contract of its own, L8S3RunFolders, L8S3RunGrows and L8S3RunQA state it |
| Landsat8.L8SceneRunSpec | sdownloader/landsat8.py:134-158 | a bad id fails before the bands are touched; a missing band fails without writing, after the bands were augmented; on success `dir/scene` is created, but every file is fetched into `dir` itself |
| Landsat8.FoldersAt | sdownloader/landsat8.py:155 | the k-th folder is `join(dir, scene_k)` |
| Landsat8.L8S3RunFolders | sdownloader/landsat8.py:124-160 | a successful `s3` returns one folder per scene, in order, each created |
| Landsat8.L8S3RunGrows | sdownloader/landsat8.py:134-158 | `s3` never removes a file or a folder |
| Landsat8.L8S3RunQA | sdownloader/landsat8.py:138-142 | the check is for 'BQA' but 'QA' is appended, so each scene adds one more 'QA' to the caller's list, while 'MTL' is added at most once |
| Landsat8.GoogleUrlsAt | sdownloader/landsat8.py:116-117 | the k-th Google URL is the template for the k-th scene |
| Landsat8.GoogleRun | sdownloader/landsat8.py:93-122 | definition only: interpret, build the Google URL, probe it, fetch it, scene by scene; no contract of its own, GoogleOne, GoogleRunSucceeds and GoogleRunPaths state it |
| Landsat8.GoogleUrlOf | sdownloader/landsat8.py:116-117 | definition only: the Google URL of a well-formed scene id; no contract of its own |
| Landsat8.GoogleOne | sdownloader/landsat8.py:93-122 | for one scene: a bad id raises IncorrectLandsat8SceneId and a missing archive raises RemoteFileDoesntExist, neither writing anything; otherwise the one fetched path is returned |
| Landsat8.GoogleRunSucceeds | sdownloader/landsat8.py:114-122 | `google` succeeds exactly when every id is well formed and every archive exists |
| Landsat8.GoogleRunPaths | sdownloader/landsat8.py:114-122 | a successful `google` returns the stored archive of each scene, in scene order |
| Landsat8.UsgsSpec | sdownloader/landsat8.py:64-91 | succeeds exactly with both credentials, an accepted login and a non-empty answer, returning one stored path per URL; every failure leaves the disk untouched, and every failure but a refused login is RemoteFileDoesntExist |
| Landsat8.UsgsRun | sdownloader/landsat8.py:64-91 | definition only: the credential test, the login, the USGS answer and the fetches, with the source's three failures; no contract of its own, UsgsSpec states it |
| Landsat8.DownloadStep | sdownloader/landsat8.py:47-57 | definition only: S3 when a band list is given, then on RemoteFileDoesntExist the fallback, TypeError as written or Google then USGS as intended; no contract of its own, S3First, BadIdStops, NoBandsGoogle and S3MissingFallback state it |
| Landsat8.DownloadRun | sdownloader/landsat8.py:40-59 | definition only: the scene loop of `download`, stopping at the first exception; no contract of its own, DownloadRunShape, DownloadRunGoogle and ArityDefect state it |
| Landsat8.DownloadRunShape | sdownloader/landsat8.py:40-59 | a successful download returns exactly one entry per scene, after the earlier ones |
| Landsat8.DownloadRunGoogle | sdownloader/landsat8.py:40-59 | with no band list and every Google archive live, the intended download succeeds and entry `k` holds the stored archive of scene `k` |
| Landsat8.S3First | sdownloader/landsat8.py:47-51 | with a band list and every band present, S3 answers with the scene's folder and Google is not consulted |
| Landsat8.BadIdStops | sdownloader/landsat8.py:47-57 | a malformed id writes nothing and leaves the band list alone; with a band list it ends the download with IncorrectLandsat8SceneId in both chains, and without one it does so as intended, while as written it raises TypeError |
| Landsat8.NoBandsGoogle | sdownloader/landsat8.py:48-57 | without a band list, S3 is skipped: in the intended fallback, Google answers when the archive exists, otherwise USGS is asked |
| Landsat8.S3MissingFallback | sdownloader/landsat8.py:47-57 | when S3 reports a missing band, as written the step raises TypeError with the disk untouched; as intended it goes on exactly as the no-bands step does; either way the caller's band list is augmented |
| Landsat8.ArityDefect | sdownloader/landsat8.py:53-57 | as written, a download whose first scene has no band list, or bands S3 cannot serve, fails with TypeError |
| Landsat8.ArityExample | tests/test_landsat8.py:74-83 | one scene with its Google archive available, with no bands or with bands S3 cannot serve (the test passes `[432]`): the written download fails with TypeError, while the intended one returns the Google archive |
| Landsat8.Landsat8.constructor | sdownloader/landsat8.py:17-23 | the fields are set and the download directory is created |
| Landsat8.Landsat8.S3Scene | sdownloader/landsat8.py:134-158 | the loop body, which appends to the caller's band list in place, computes exactly `L8SceneRun`, band list included |
| Landsat8.Landsat8.S3 | sdownloader/landsat8.py:124-160 | a non-list raises 'Expected sceneIDs list' and changes nothing; otherwise the result, the disk and the caller's band list are what `L8S3Run` gives |
| Landsat8.Landsat8.Google | sdownloader/landsat8.py:93-122 | a non-list raises; otherwise the result and the disk are what `GoogleRun` gives |
| Landsat8.Landsat8.UsgsDownload | sdownloader/landsat8.py:64-91 | a non-list raises; otherwise the result and the disk are what `UsgsRun` gives |
| Landsat8.Landsat8.Step | sdownloader/landsat8.py:47-57 | one scene of the loop computes exactly `DownloadStep` |
| Landsat8.Landsat8.DownloadWith | sdownloader/landsat8.py:25-62 | a non-list raises 'Expected sceneIDs list'; otherwise the loop is exactly `DownloadRun` |
| Landsat8.Landsat8.Download | sdownloader/landsat8.py:25-62 | `download` is `DownloadRun` with the fallback as written |
| Landsat8.Landsat8.DownloadIntended | sdownloader/landsat8.py:25-62 | `download` with the fallback calls taking the scene list alone |
| Sentinel2.ConvertAllAt | sdownloader/sentinel2.py:30-37 | each band name of the map becomes its number; any other band stays in place |
| Sentinel2.Convert | sdownloader/sentinel2.py:33-36 | definition only: a band name in the map becomes its number, anything else is kept (the KeyError branch); no contract of its own |
| Sentinel2.ConvertAll | sdownloader/sentinel2.py:30-37 | every band converted in order; its ensures gives the length, ConvertAllAt and ConvertAllIdempotent the contents |
| Sentinel2.ConvertAllIdempotent | sdownloader/sentinel2.py:12-20 | converting twice is converting once, because the map yields numbers, which are not names |
| Sentinel2.ConvertExample | sdownloader/sentinel2.py:12-37 | 'swir1' becomes 11; the number 4 and the name 'QA' are kept |
| Sentinel2.Sentinel2.constructor | sdownloader/sentinel2.py:22-28 | the fields are set and the download directory is created |
| Sentinel2.Sentinel2.BandConverter | sdownloader/sentinel2.py:30-37 | the caller's list is rewritten in place to its conversion and returned; None is returned as None |
| Sentinel2.Sentinel2.Download | sdownloader/sentinel2.py:39-61 | the bands are converted in place even when the scene list is refused; then the mixin's `s3` runs with the converted bands |
| Text.SplitJoin | sdownloader/common.py:166-167 | splitting a join on a separator found in no part gives the parts back |
| Text.DecimalRoundTrip | sdownloader/common.py:123 | the decimal text of a band number reads back as that number |
| Text.ReplaceCharAbsent | sdownloader/download.py:149-152 | replacing a character that does not occur changes nothing, so both branches name the folder alike |
| PosixPath.BaseNameOfJoin | sdownloader/download.py:54 | the base name of `join(dir, name)` is `name` for a plain entry name |
| PosixPath.PathJoin | sdownloader/download.py:154 | `os.path.join(a, b)`: an absolute `b` is the result, otherwise the result ends with `b` |
| PosixPath.BaseName | sdownloader/download.py:29 | `os.path.basename`: the result holds no '/' (BaseNameOfJoin gives it exactly for a joined plain name) |
| PosixPath.DirName | sdownloader/download.py:39 | definition only: `os.path.split(p)[0]`, trailing slashes stripped unless the head is all slashes; no contract of its own |
| PosixPath.Ext | sdownloader/download.py:29 | `os.path.splitext(b)[1]`: empty or starting with '.' (ExtOfSuffix gives it exactly for image names) |
| PosixPath.ExtOfSuffix | sdownloader/download.py:29 | a name ending in `.x` that does not start with a dot has extension `.x` |

## Left out

- HTTP transfers (`requests.head`, `homura.download`): the HEAD status is the set `live` of URLs answering 200. A download is one entry in the disk's transfer log.
- Common.FetchStep: assumes `homura.download(url, path)` stores the file at exactly `join(path, name)`, with the name `fetch` derives from the URL; homura's own naming is not part of this model. Common.FetchIdempotent, Download.S3SceneRunPresent and Download.S3RunIdempotent rest on that assumption.
- Common.FetchStep: when something exists at `path` itself but is a file, not a folder, the download's failure is not modelled; the disk only records which paths exist.
- `get_remote_file_size` and the size comparison in `fetch`: the comparison only chooses a log message, so any existing file suppresses the download. A missing `content-length` header is not modelled.
- Tar extraction and the `tar -xf` fallback in `Scene.unzip`: the extracted directory's entries are a parameter `listing`. Directory entries never contain '/', which `Scene.Unzip` requires of that listing.
- glob magic characters inside the extraction path. glob does not sort its matches: they come in directory-listing order, which is the order of the `listing` parameter.
- The USGS client (`api.login`, `api.download`) and the SOAP parsing of its faults: they are the two functions of `Landsat8.Usgs`, and a refused login yields the fault text directly.
- Logging and `print`.
- `sentinel_scene_interpreter` and `amazon_s3_url_sentinel2` are imported by `sentinel2.py` but not part of this model. `Sentinel2.Sentinel2` takes them as parameters. The URL template is taken as a total function, so an exception `amazon_s3_url_sentinel2` might raise is not modelled.
- `Scene.__str__`, `Scenes.__str__` and `Scenes.unzip` (the last only calls `Scene.unzip` for each scene).
- Download.Scenes.Merge: requires the other collection to be a different object. Merging a collection into itself never ends in Python, because the list grows while it is walked.
- Common.CreateFolder: `os.makedirs` also creates missing parent folders, and the model adds only the path itself; paths are compared as plain strings, without normalisation. Every folder the core creates sits directly under the download directory, which exists.
- `download_dir=None` in `Landsat8.__init__`: the download directory is always a string.
- A band argument that is not a list, other than None, is modelled as null (`Items(bands) == None`). The Python element types of scene lists are not modelled; scene ids are strings.
- The texts of exceptions the Python runtime raises (TypeError) are given as in CPython 3, but nothing depends on them beyond their kind. `RemoteFileDoesntExist` raised without arguments has the empty message.
- PosixPath.Ext: its contract says only that the extension is empty or starts with '.'. The exact extension is proved only where it matters, for the image names `unzip` collects (`PosixPath.ExtOfSuffix`).
- Common.FetchAllTransfers: says which URLs and directory the new transfers use, not their order.

## Findings

| source | as written | input that shows it | evidently intended | confidence | as-written member | corrected member |
|---|---|---|---|---|---|---|
| sdownloader/landsat8.py:55-57 | `download` calls `self.google([scene], self.download_dir)` and `self.usgs([scene], self.download_dir)`, but `google` (line 93) and `usgs` (line 64) take only the scene list, so every fallback raises TypeError | `download(['LC80030172015001LGN00'])` with no bands, or with `bands=[432]` while S3 lacks a band, and the Google archive available | call `self.google([scene])`, then `self.usgs([scene])`, as tests/test_landsat8.py:83 expects | high; not executed | Landsat8.ArityExample | Landsat8.NoBandsGoogle |
