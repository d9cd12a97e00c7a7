/** downloadAllImages and the calls it makes, as methods of the host they run
    on: its directories and files, and the log of requests it sends. Each
    method is proved to do what the specification in Engine says. */
module Downloader {
  import opened Wrappers
  import opened Paths
  import opened CacheKey
  import opened Engine

  class Host {
    const env: Env
    var dirs: set<string>
    var files: set<string>
    var requests: seq<string>

    constructor (env: Env, dirs: set<string>, files: set<string>)
      ensures this.env == env
      ensures State() == Store(dirs, files, [])
    {
      this.env := env;
      this.dirs := dirs;
      this.files := files;
      this.requests := [];
    }

    function State(): Store
      reads this
    {
      Store(dirs, files, requests)
    }

    /** os.MkdirAll. */
    method MkdirAll(dir: string) returns (err: Option<FsError>)
      modifies this
      ensures (err, dirs) == Engine.MkdirAll(env, old(dirs), dir)
      ensures files == old(files) && requests == old(requests)
    {
      if dir in dirs {
        err := None;
      } else if env.faults.mkdir(dir) {
        err := Some(MkdirError(dir));
      } else {
        dirs := dirs + {dir};
        err := None;
      }
    }

    /** openFileIfNotExists: a new file and false on a miss, no file and true
      on a hit, no file and the error otherwise. */
    method OpenFileIfNotExists(filename: string) returns (f: Option<File>, found: bool, err: Option<FsError>)
      modifies this
      ensures (Opened(f, found, err), files) == Open(env, old(files), filename)
      ensures dirs == old(dirs) && requests == old(requests)
    {
      if env.faults.stat(filename) {
        return None, false, Some(StatError(filename));
      }
      if filename !in files {
        if env.faults.create(filename) {
          return None, false, Some(CreateError(filename));
        }
        files := files + {filename};
        return Some(File(filename)), false, None;
      }
      return None, true, None;
    }

    /** client.Get: the request is sent, and may fail. */
    method Get(url: string) returns (err: Option<FsError>)
      modifies this
      ensures requests == old(requests) + [url]
      ensures err == if env.faults.get(url) then Some(RequestError(url)) else None
      ensures dirs == old(dirs) && files == old(files)
    {
      requests := requests + [url];
      err := if env.faults.get(url) then Some(RequestError(url)) else None;
    }

    /** io.Copy of the response body into the cache file; the bytes are not
        modelled, only whether the copy fails. */
    method Copy(f: File, url: string) returns (err: Option<FsError>)
      ensures err == if env.faults.copy(url) then Some(CopyError(url)) else None
    {
      err := if env.faults.copy(url) then Some(CopyError(url)) else None;
    }

    /** dl(i, url): slot i becomes the error icon, and the image icon only
      when the file was found or fully downloaded; every failure returns
      early and leaves the error icon. */
    method Dl(output: array<Option<Icon>>, i: nat, url: string)
      requires i < output.Length
      modifies this, output
      ensures output[i] == Some(IconFor(env, url, Engine.Dl(env, old(State()), url).0))
      ensures forall k :: 0 <= k < output.Length && k != i ==> output[k] == old(output[k])
      ensures State() == Engine.Dl(env, old(State()), url).1
    {
      output[i] := Some(ErrorIcon);
      var filename := CachePath(env.tempDir, env.md5, url);
      CachePathLayout(env.tempDir, env.md5, url);
      var err := MkdirAll(Dir(filename));
      if err.Some? {
        return;
      }
      var f, found, openErr := OpenFileIfNotExists(filename);
      if openErr.Some? {
        return;
      }
      if !found {
        var getErr := Get(url);
        if getErr.Some? {
          return;
        }
        var copyErr := Copy(f.value, url);
        if copyErr.Some? {
          return;
        }
      }
      output[i] := Some(ImageIcon(filename));
    }

    /** downloadAllImages: one slot per URL, allocated nil, then dl for each
      index in turn. */
    method DownloadAllImages(urls: seq<string>) returns (output: array<Option<Icon>>)
      modifies this
      ensures fresh(output) && output.Length == |urls|
      ensures forall i :: 0 <= i < |urls| ==> output[i] == Some(Run(env, old(State()), urls).0[i])
      ensures State() == Run(env, old(State()), urls).1
    {
      output := new Option<Icon>[|urls|](_ => None);
      ghost var st0 := State();
      var i := 0;
      while i < |urls|
        invariant 0 <= i <= |urls|
        invariant State() == Run(env, st0, urls[..i]).1
        invariant forall k :: 0 <= k < i ==> output[k] == Some(Run(env, st0, urls[..i]).0[k])
        invariant forall k :: i <= k < |urls| ==> output[k] == None
      {
        ghost var prev := Run(env, st0, urls[..i]);
        ghost var step := Engine.Dl(env, prev.1, urls[i]);
        Dl(output, i, urls[i]);
        ghost var next := urls[..i + 1];
        assert next[..i] == urls[..i] && next[i] == urls[i];
        assert Run(env, st0, next) == (prev.0 + [IconFor(env, urls[i], step.0)], step.1);
        i := i + 1;
      }
      assert urls[..|urls|] == urls;
    }
  }
}
