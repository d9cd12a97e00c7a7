# Icon cache of alfred-apple-app-search, in Dafny

This project models the icon cache of the Alfred workflow `alfred-apple-app-search`.
`downloadAllImages` in `main.go` takes the artwork URLs of the search results and turns
each one into an icon. It works out a cache path for the URL from the hex MD5 of the URL,
under `<temp dir>/net.nkcmr.alfred-apple-app-search/`. If that file exists, the path is used
as it is. If not, the file is created and the artwork is downloaded into it. Any failure
leaves the error icon in that URL's slot. `main` then gives item `i` the icon in slot `i`.

The model has these modules:

- `Hex`: `hex.EncodeToString`, with its inverse and index characterisation.
- `Paths`: `strings.TrimRight` and the directory part of a path (`filepath.Dir`).
- `CacheKey`: `md5hash` and the cache path. MD5 is a parameter, a function from strings
  to 16 bytes.
- `Engine`: the behaviour as a specification over values. The filesystem is a set of
  directories and a set of files. The network is a log of requested URLs. An oracle says
  which `MkdirAll`, `Stat`, `Create`, `Get` and `Copy` calls fail. `Dl` is one call of
  `dl`, and `Run` is the whole batch. The lemmas state the cache properties.
- `Downloader`: class `Host` holds the directories, files and request log as fields. Its
  methods (`MkdirAll`, `OpenFileIfNotExists`, `Get`, `Copy`, `Dl`, `DownloadAllImages`)
  change that state in place and fill a pre-sized output array by index. `MkdirAll`,
  `OpenFileIfNotExists`, `Dl` and `DownloadAllImages` are proved equal to their `Engine`
  specifications. `Get` and `Copy` stand for `client.Get` and `io.Copy`, and take their
  outcome from the fault oracle.
- `Feedback`: the index pairing in `main` (`images[i]`, `icons[i]`, `fb.Items[i]`).

How the code behaves on failure:

- On failure, `dl` calls `die`, which calls `runtime.Goexit`. Only that URL's goroutine
  ends. Its deferred `<-sem` and `wg.Done()` still run, so the other URLs carry on. The
  failed slot keeps `aw.IconError`, and the batch returns normally.
- `client.Get` returns an error only when the transport fails. The response status is not
  checked, so the body of an error response is copied into the cache file and the slot
  gets the image icon. The `get` oracle therefore stands for transport errors only.
- The cache file is created before the request is sent. So when the request or the copy
  fails, the file stays behind, and a later run treats it as a cache hit (`SecondRun`).

The model runs the batch sequentially, in index order. Each goroutine writes only its own
slot, so for distinct URLs the result is the same as the concurrent run.

`dl` hands `filepath.Dir(filename)` to `os.MkdirAll`. `Host.Dl` does the same. In
`Engine` that directory is written as the cache directory, which `CachePathLayout`
proves to be `Dir` of every cache path.

## Model

| member | source | states |
|---|---|---|
| `Hex.HexEncode` | main.go:37-42 | the encoding of the MD5 sum has two characters per byte, each in 0-9 or a-f |
| `Hex.HexEncodeAt` | main.go:41 | byte k is spelt by characters 2k (high nibble) and 2k+1 (low nibble) |
| `Hex.HexDecodeEncode` | main.go:41 | reading the hex string back gives the original bytes |
| `Hex.HexEncodeInjective` | main.go:41 | two byte strings have the same encoding exactly when they are equal |
| `Paths.TrimRight` | main.go:72 | the result is a prefix of the input that does not end in a cutset character, and everything cut off is cutset characters |
| `Paths.LastIndex` | main.go:75 | the result is the position of the last occurrence of the character, or -1 when there is none |
| `Paths.Dir` | main.go:75 | with no `/` in the path the result is `.`; with a single leading `/` it is `/`; otherwise it is everything before the last `/` |
| `Paths.DirOfJoin` | main.go:75 | the directory part of `dir/name`, for a slash-free name, is `dir` |
| `CacheKey.Md5Hash` | main.go:37-42 | the result is exactly 32 characters, each in 0-9 or a-f |
| `CacheKey.CachePath` | main.go:70-74 | the path starts with the cache directory, then one `/`, and ends in `.png`; it is 37 characters longer than the directory (the 32 hex digits of the name are stated by `CachePathLayout`) |
| `CacheKey.CachePathLayout` | main.go:70-75 | the path ends in `.png`; it is 32 hex digits plus `.png` directly inside the cache directory, and that directory is what `MkdirAll` is given |
| `CacheKey.CacheDirLayout` | main.go:70-72 | the temp directory contributes a prefix of itself that does not end in `/`, followed by exactly one `/` and the namespace |
| `CacheKey.CachePathInjective` | main.go:70-74 | two URLs get the same cache path exactly when their MD5 sums agree, so equal URLs always share a path |
| `Engine.MkdirAll` | main.go:75-78 | succeeds exactly when the directory exists or may be created, and adds it on success |
| `Engine.Open` | main.go:44-56 | missing path: the file is created, returned, and not reported as existing, or, when creation fails, the create error; present path: no file, `true`, no error, nothing created; other stat error: that stat error, no file; only a created file changes the file set |
| `Engine.Dl` | main.go:68-111 | one URL sends at most one request, for itself and only on a cache miss; a cache hit sends none |
| `Engine.DlEffect` | main.go:75-106 | one URL only adds its own cache file and the cache directory; afterwards it cannot reach the network again, and if it got past the open step its file is a cache hit |
| `Engine.DlOutcome` | main.go:75-110 | dl fails exactly when MkdirAll, Stat or Create fails, or, on a miss, the request or the copy fails; a hit needs the file to be present, a download needs it absent and both network steps to succeed |
| `Engine.IconFor` | main.go:69-110 | the slot is `aw.IconError` exactly when dl failed, and otherwise the image icon whose value is the URL's cache path |
| `Engine.DlOverSettled` | main.go:79-106 | a URL that is cached, or whose directory, stat or create step fails for good, sends no request; a cache hit yields the cached result |
| `Engine.DlFresh` | main.go:79-110 | for a URL whose file is absent, when only the network can fail: the file is created, the URL is requested, and the step fails exactly when the request does |
| `Engine.Run` | main.go:65-124 | the output has exactly one slot per URL, failures included |
| `Engine.RunGrows` | main.go:75-106 | the cache never shrinks, the request log only grows, and only creatable files and directories are added |
| `Engine.RunAppend` | main.go:112-123 | running a batch in two parts gives the same slots and store as one run |
| `Engine.RunSlot` | main.go:107-121 | slot i holds what `dl(i, urls[i])` produced: slots are paired with URLs by index |
| `Engine.RunShape` | main.go:69-110 | every slot is the error icon or an image icon whose value is the cache path of that slot's URL, and it is the image exactly when that URL's dl did not fail (a hit or a completed download) |
| `Engine.RunCaches` | main.go:49-103 | after a run, every URL whose file was opened or created has its cache entry, including URLs whose download then failed |
| `Engine.RunSettles` | main.go:79-106 | after a run, no URL of the batch can reach the network again |
| `Engine.RunOverSettled` | main.go:92-106 | a run over URLs that cannot reach the network sends no request, and each cache hit gets its image icon |
| `Engine.SecondRun` | main.go:44-110 | running the same batch again sends no request, and every URL whose cache file the first run created or found gets its image icon |
| `Engine.RunFreshBatch` | main.go:92-110 | with fresh, distinct cache paths and only the network failing, every URL is requested in order and every cache file is created |
| `Engine.RunIsolatesFailures` | main.go:59-123 | a failed request leaves only its own slot as the error icon; every other URL is still requested and gets its image icon |
| `Downloader.Host.MkdirAll` | main.go:75-78 | the host's directories change as `Engine.MkdirAll` says, and nothing else changes |
| `Downloader.Host.OpenFileIfNotExists` | main.go:44-56 | returns the triple and updates the files as `Engine.Open` says |
| `Downloader.Host.Get` | main.go:94-98 | the request is logged and fails exactly when the oracle says |
| `Downloader.Host.Dl` | main.go:68-111 | writes slot i as `Engine.Dl` specifies, leaves every other slot alone, and moves the host to `Engine.Dl`'s store |
| `Downloader.Host.DownloadAllImages` | main.go:58-125 | returns a fresh array of `len(urls)` slots whose contents, with the new host state, are `Engine.Run` of the old state |
| `Feedback.ShowResults` | main.go:183-211 | item i carries result i's title and the icon resolved for result i's artwork URL; the host ends in `Engine.Run`'s store |

## Left out

- Goroutines, the `sem` channel used as a counting semaphore, `sync.WaitGroup` and
  `runtime.Goexit` are left out. The model runs the batch sequentially, in index order.
  The `concurrency` argument therefore has no effect, and the concurrency bound is not
  modelled.
- When the same URL appears twice in one batch, the concurrent run races on one file. The
  sequential model has no race: the second occurrence is a cache hit.
- MD5 itself is left out. It is a parameter of the model, a function from strings to 16
  bytes.
- `filepath.Dir` is modelled without its `Clean` step. A temp directory containing `.`,
  `..` or repeated slashes would be normalised by Go and is not here.
- The HTTP client (with its 5-second timeout), the response bytes and the file contents are
  left out. A request or copy only succeeds or fails, as an oracle says.
- `Engine.Faults`: an operation fails or succeeds the same way every time for the same
  path or URL. A fault that appears in one run and not in the next is out of the model.
  Several lemmas rely on this: the fault cases of `Settled` in `DlEffect` and
  `RunSettles`, the stat condition of `Hit` in `DlEffect` and `RunCaches`, and
  `SecondRun`, which is built on them. `RunOverSettled` does not rely on it when its
  URLs are already in the cache.
- `f.Close`, `resp.Body.Close` and the `debug`/`die` messages on standard error are
  left out. They have no effect on the slots or the cache set.
- `ctx` is accepted but never used by `downloadAllImages`. `sigContext` is signal
  handling, so it is left out.
- The iTunes query, its HTTP request and JSON decoding, the Alfred item fields other than
  the title and icon, the star-rating subtitle (floating point) and the JSON output are
  left out. They are wrappers over the network and a UI library that is not part of this
  model.
