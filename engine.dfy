/** The icon-cache resolution of downloadAllImages, as a specification over
    values: one step per URL (dl) and the sequential run over a batch. The
    filesystem is a set of directories and a set of files; the network is a log
    of requested URLs; whatever the environment might make fail is an oracle. */
module Engine {
  import opened Wrappers
  import opened CacheKey

  /** Which operations the environment makes fail: os.MkdirAll on a
      directory, os.Stat with an error other than "does not exist", os.Create,
      client.Get and io.Copy of a URL's response. */
  datatype Faults = Faults(
    mkdir: string -> bool,
    stat: string -> bool,
    create: string -> bool,
    get: string -> bool,
    copy: string -> bool)

  /** os.TempDir(), MD5 and the faults: everything a run depends on besides
      the store. */
  datatype Env = Env(tempDir: string, md5: string -> Digest, faults: Faults)

  /** Existing directories, existing files, and every URL requested so far. */
  datatype Store = Store(dirs: set<string>, files: set<string>, requests: seq<string>)

  /** aw.IconError, or an image icon whose value is a file path. */
  datatype Icon = ErrorIcon | ImageIcon(value: string)

  datatype FsError =
    | MkdirError(dir: string)
    | StatError(path: string)
    | CreateError(path: string)
    | RequestError(url: string)
    | CopyError(url: string)

  datatype File = File(path: string)

  /** The (file, exists, err) triple openFileIfNotExists returns. */
  datatype Opened = Opened(file: Option<File>, found: bool, err: Option<FsError>)

  /** How dl ended for one URL: a die() with its error, a cache hit, or a
      finished download. */
  datatype Step = Failed(err: FsError) | Cached | Downloaded

  function CachePathOf(env: Env, url: string): string {
    CachePath(env.tempDir, env.md5, url)
  }

  /** The directory dl hands to os.MkdirAll: filepath.Dir of every cache
      path, which is the cache directory (CacheKey.CachePathLayout). */
  function CacheDirOf(env: Env): string {
    CacheDir(env.tempDir)
  }

  /** os.MkdirAll(dir): nothing to do when it exists, else create it unless
      the environment refuses. */
  function MkdirAll(env: Env, dirs: set<string>, dir: string): (r: (Option<FsError>, set<string>))
    ensures r.0.None? <==> dir in dirs || !env.faults.mkdir(dir)
    ensures r.1 == if r.0.None? then dirs + {dir} else dirs
  {
    if dir in dirs then (None, dirs)
    else if env.faults.mkdir(dir) then (Some(MkdirError(dir)), dirs)
    else (None, dirs + {dir})
  }

  /** openFileIfNotExists: stat the path; create it when it does not exist,
      report it as existing when it does, pass any other stat error on. */
  function Open(env: Env, files: set<string>, path: string): (r: (Opened, set<string>))
    ensures r.1 == if r.0.file.Some? then files + {path} else files
    ensures r.0.file.Some? ==> r.0.file.value == File(path) && path !in files && !r.0.found && r.0.err.None?
    ensures r.0.found <==> path in files && !env.faults.stat(path)
    ensures r.0.found ==> r.0.file.None? && r.0.err.None?
    ensures r.0.err.None? && !r.0.found ==> r.0.file == Some(File(path))
    ensures r.0.err.Some? ==> r.0.file.None? && !r.0.found
    ensures r.0.err.Some? ==> r.0.err.value == if env.faults.stat(path) then StatError(path) else CreateError(path)
    ensures r.0.err.None? <==> !env.faults.stat(path) && (path in files || !env.faults.create(path))
    ensures r.0.err.None? ==> path in r.1
  {
    if env.faults.stat(path) then (Opened(None, false, Some(StatError(path))), files)
    else if path !in files then
      if env.faults.create(path) then (Opened(None, false, Some(CreateError(path))), files)
      else (Opened(Some(File(path)), false, None), files + {path})
    else (Opened(None, true, None), files)
  }

  /** A store b reachable from a: nothing removed, the request log extended,
      and only directories and files the environment lets be created added. */
  ghost predicate Grows(env: Env, a: Store, b: Store) {
    && a.dirs <= b.dirs
    && a.files <= b.files
    && a.requests <= b.requests
    && (forall d :: d in b.dirs - a.dirs ==> !env.faults.mkdir(d))
    && (forall p :: p in b.files - a.files ==> !env.faults.create(p))
  }

  /** The cache entry of url is in place and can be stat'ed: dl reports a hit. */
  ghost predicate Hit(env: Env, st: Store, url: string) {
    var p := CachePathOf(env, url);
    CacheDirOf(env) in st.dirs && p in st.files && !env.faults.stat(p)
  }

  /** dl can no longer reach the network for url: its cache entry exists, or
      one of the steps before the request fails for good. */
  ghost predicate Settled(env: Env, st: Store, url: string) {
    var p := CachePathOf(env, url);
    || p in st.files
    || (CacheDirOf(env) !in st.dirs && env.faults.mkdir(CacheDirOf(env)))
    || env.faults.stat(p)
    || env.faults.create(p)
  }

  /** The step got past openFileIfNotExists, so the cache file exists. */
  predicate PastOpen(s: Step) {
    !(s.Failed? && (s.err.MkdirError? || s.err.StatError? || s.err.CreateError?))
  }

  /** dl(i, url) run against the store st: at most one request, for url,
      and only on a cache miss; a hit requests nothing. */
  function Dl(env: Env, st: Store, url: string): (r: (Step, Store))
    ensures r.1.requests == st.requests || r.1.requests == st.requests + [url]
    ensures r.1.requests != st.requests ==> CachePathOf(env, url) !in st.files
    ensures r.0 == Cached ==> r.1.requests == st.requests
    ensures r.0 == Downloaded ==> r.1.requests == st.requests + [url]
  {
    var path := CachePathOf(env, url);
    var mk := MkdirAll(env, st.dirs, CacheDirOf(env));
    if mk.0.Some? then (Failed(mk.0.value), st)
    else
      var op := Open(env, st.files, path);
      var st1 := st.(dirs := mk.1, files := op.1);
      if op.0.err.Some? then (Failed(op.0.err.value), st1)
      else if op.0.found then (Cached, st1)
      else
        var st2 := st1.(requests := st1.requests + [url]);
        if env.faults.get(url) then (Failed(RequestError(url)), st2)
        else if env.faults.copy(url) then (Failed(CopyError(url)), st2)
        else (Downloaded, st2)
  }

  /** What dl does to the store: it only grows, by at most the URL's cache
      file; afterwards the URL is settled, and a cache hit when dl got past
      openFileIfNotExists. */
  lemma DlEffect(env: Env, st: Store, url: string)
    ensures var r := Dl(env, st, url);
            && Grows(env, st, r.1)
            && r.1.files <= st.files + {CachePathOf(env, url)}
            && r.1.dirs <= st.dirs + {CacheDirOf(env)}
            && Settled(env, r.1, url)
            && (PastOpen(r.0) ==> Hit(env, r.1, url))
  {
  }

  /** When dl fails: exactly when MkdirAll, Stat or Create fails, or, on a
      cache miss, the request or the copy does. A hit needs the file to be
      there; a download needs it absent and both network steps to succeed. */
  lemma DlOutcome(env: Env, st: Store, url: string)
    ensures var p := CachePathOf(env, url);
            var r := Dl(env, st, url);
            && (r.0.Failed? <==>
                  || (CacheDirOf(env) !in st.dirs && env.faults.mkdir(CacheDirOf(env)))
                  || env.faults.stat(p)
                  || (p !in st.files && (env.faults.create(p) || env.faults.get(url) || env.faults.copy(url))))
            && (r.0 == Cached ==> p in st.files && !env.faults.stat(p))
            && (r.0 == Downloaded ==> p !in st.files && !env.faults.get(url) && !env.faults.copy(url))
  {
  }

  /** The slot dl leaves behind: aw.IconError unless it reached the end. */
  function IconFor(env: Env, url: string, s: Step): (icon: Icon)
    ensures icon == ErrorIcon <==> s.Failed?
    ensures icon != ErrorIcon ==> icon == ImageIcon(CachePathOf(env, url))
  {
    if s.Failed? then ErrorIcon else ImageIcon(CachePathOf(env, url))
  }

  /** downloadAllImages run one URL after another: the output slots and the
      final store. There is one slot per URL, failures included. */
  function Run(env: Env, st: Store, urls: seq<string>): (r: (seq<Icon>, Store))
    ensures |r.0| == |urls|
    decreases |urls|
  {
    if urls == [] then ([], st)
    else
      var last := urls[|urls| - 1];
      var prev := Run(env, st, urls[..|urls| - 1]);
      var step := Dl(env, prev.1, last);
      (prev.0 + [IconFor(env, last, step.0)], step.1)
  }

  /** A run only grows the store. */
  lemma {:induction false} RunGrows(env: Env, st: Store, urls: seq<string>)
    ensures Grows(env, st, Run(env, st, urls).1)
    decreases |urls|
  {
    if urls != [] {
      var init := urls[..|urls| - 1];
      RunGrows(env, st, init);
      DlEffect(env, Run(env, st, init).1, urls[|urls| - 1]);
    }
  }

  /** A run over a ++ b is the run over a followed by the run over b. */
  lemma {:induction false} RunAppend(env: Env, st: Store, a: seq<string>, b: seq<string>)
    ensures var ra := Run(env, st, a);
            var rb := Run(env, ra.1, b);
            Run(env, st, a + b) == (ra.0 + rb.0, rb.1)
    decreases |b|
  {
    if b != [] {
      var n := |b| - 1;
      var b' := b[..n];
      assert (a + b)[..|a + b| - 1] == a + b';
      assert (a + b)[|a + b| - 1] == b[n];
      RunAppend(env, st, a, b');
      var ra := Run(env, st, a);
      var rb' := Run(env, ra.1, b');
      RunLast(env, st, a + b);
      RunLast(env, ra.1, b);
      var step := Dl(env, rb'.1, b[n]);
      var icon := IconFor(env, b[n], step.0);
      assert (ra.0 + rb'.0) + [icon] == ra.0 + (rb'.0 + [icon]);
    } else {
      assert a + b == a;
      assert Run(env, st, a).0 + [] == Run(env, st, a).0;
    }
  }

  /** A run over a non-empty batch is the run over all but the last URL,
      then dl on the last one. */
  lemma RunLast(env: Env, st: Store, urls: seq<string>)
    requires urls != []
    ensures var n := |urls| - 1;
            var prev := Run(env, st, urls[..n]);
            var step := Dl(env, prev.1, urls[n]);
            Run(env, st, urls) == (prev.0 + [IconFor(env, urls[n], step.0)], step.1)
  {
  }

  /** Slot i holds what dl(i, urls[i]) produced on the store left by the
      first i URLs: results are paired with their URLs by index. */
  lemma {:induction false} RunSlot(env: Env, st: Store, urls: seq<string>, i: nat)
    requires i < |urls|
    ensures var before := Run(env, st, urls[..i]).1;
            Run(env, st, urls).0[i] == IconFor(env, urls[i], Dl(env, before, urls[i]).0)
  {
    var pre, post := urls[..i + 1], urls[i + 1..];
    assert urls == pre + post;
    RunAppend(env, st, pre, post);
    assert pre[..i] == urls[..i];
  }

  /** Every slot is the error icon or the image at its own URL's cache path,
      and it is the image exactly when that URL's dl did not fail. */
  lemma RunShape(env: Env, st: Store, urls: seq<string>)
    ensures forall i :: 0 <= i < |urls| ==>
      Run(env, st, urls).0[i] == ErrorIcon || Run(env, st, urls).0[i] == ImageIcon(CachePathOf(env, urls[i]))
    ensures forall i :: 0 <= i < |urls| ==>
      (Run(env, st, urls).0[i] == ImageIcon(CachePathOf(env, urls[i])) <==>
       !Dl(env, Run(env, st, urls[..i]).1, urls[i]).0.Failed?)
  {
    forall i | 0 <= i < |urls|
      ensures Run(env, st, urls).0[i] == ErrorIcon || Run(env, st, urls).0[i] == ImageIcon(CachePathOf(env, urls[i]))
      ensures Run(env, st, urls).0[i] == ImageIcon(CachePathOf(env, urls[i])) <==>
              !Dl(env, Run(env, st, urls[..i]).1, urls[i]).0.Failed?
    {
      RunSlot(env, st, urls, i);
    }
  }

  /** After a run, every URL whose dl got past openFileIfNotExists has its
      cache entry in place, including URLs whose download then failed. */
  lemma {:induction false} RunCaches(env: Env, st: Store, urls: seq<string>, i: nat)
    requires i < |urls|
    requires PastOpen(Dl(env, Run(env, st, urls[..i]).1, urls[i]).0)
    ensures Hit(env, Run(env, st, urls).1, urls[i])
    ensures CachePathOf(env, urls[i]) in Run(env, st, urls).1.files
  {
    var pre, post := urls[..i + 1], urls[i + 1..];
    assert urls == pre + post;
    RunAppend(env, st, pre, post);
    assert pre[..i] == urls[..i];
    DlEffect(env, Run(env, st, urls[..i]).1, urls[i]);
    var mid := Run(env, st, pre).1;
    assert Hit(env, mid, urls[i]);
    RunGrows(env, mid, post);
  }

  lemma SettledStable(env: Env, a: Store, b: Store, url: string)
    requires Settled(env, a, url) && Grows(env, a, b)
    ensures Settled(env, b, url)
  {
    var p := CachePathOf(env, url);
    if CacheDirOf(env) !in a.dirs && env.faults.mkdir(CacheDirOf(env)) {
      assert CacheDirOf(env) !in b.dirs - a.dirs;
    }
  }

  /** dl on a settled URL issues no request, and a hit yields Cached. */
  lemma DlOverSettled(env: Env, st: Store, url: string)
    requires Settled(env, st, url)
    ensures Dl(env, st, url).1.requests == st.requests
    ensures Hit(env, st, url) ==> Dl(env, st, url).0 == Cached
  {
  }

  /** dl on a fresh cache path when only the network can fail: the file is
      created, the URL requested, and the step fails exactly when the request
      does. */
  lemma DlFresh(env: Env, st: Store, url: string)
    requires OnlyRequestsFail(env.faults)
    requires CachePathOf(env, url) !in st.files
    ensures Dl(env, st, url).1.requests == st.requests + [url]
    ensures Dl(env, st, url).1.files == st.files + {CachePathOf(env, url)}
    ensures Dl(env, st, url).0 == if env.faults.get(url) then Failed(RequestError(url)) else Downloaded
  {
    var p := CachePathOf(env, url);
    assert !env.faults.mkdir(CacheDirOf(env)) && !env.faults.stat(p) && !env.faults.create(p) && !env.faults.copy(url);
  }

  /** After a run, no URL of the batch can reach the network again. */
  lemma {:induction false} RunSettles(env: Env, st: Store, urls: seq<string>)
    ensures forall i :: 0 <= i < |urls| ==> Settled(env, Run(env, st, urls).1, urls[i])
    decreases |urls|
  {
    if urls != [] {
      var init := urls[..|urls| - 1];
      RunSettles(env, st, init);
      var mid := Run(env, st, init).1;
      var post := Run(env, st, urls).1;
      assert post == Dl(env, mid, urls[|urls| - 1]).1;
      DlEffect(env, mid, urls[|urls| - 1]);
      forall i | 0 <= i < |urls|
        ensures Settled(env, post, urls[i])
      {
        if i < |urls| - 1 {
          assert urls[i] == init[i];
          SettledStable(env, mid, post, urls[i]);
        }
      }
    }
  }

  /** A run over URLs that are all settled issues no request, and every URL
      that is a cache hit gets its image icon. */
  lemma {:induction false} RunOverSettled(env: Env, st: Store, urls: seq<string>)
    requires forall i :: 0 <= i < |urls| ==> Settled(env, st, urls[i])
    ensures Run(env, st, urls).1.requests == st.requests
    ensures forall i :: 0 <= i < |urls| && Hit(env, st, urls[i]) ==>
      Run(env, st, urls).0[i] == ImageIcon(CachePathOf(env, urls[i]))
    decreases |urls|
  {
    if urls != [] {
      var n := |urls| - 1;
      var init := urls[..n];
      forall i | 0 <= i < n ensures Settled(env, st, init[i]) {
        assert init[i] == urls[i];
      }
      RunOverSettled(env, st, init);
      var r := Run(env, st, init);
      RunGrows(env, st, init);
      SettledStable(env, st, r.1, urls[n]);
      DlOverSettled(env, r.1, urls[n]);
      if Hit(env, st, urls[n]) {
        assert Hit(env, r.1, urls[n]);
      }
      forall i | 0 <= i < n && Hit(env, st, urls[i])
        ensures Run(env, st, urls).0[i] == ImageIcon(CachePathOf(env, urls[i]))
      {
        assert init[i] == urls[i];
      }
    }
  }

  /** Running the same batch a second time issues no request, and every URL
      whose cache file the first run left in place (a hit, a download, or a
      download that failed after the file was created) now gets its image. */
  lemma SecondRun(env: Env, st: Store, urls: seq<string>)
    ensures var r1 := Run(env, st, urls);
            var r2 := Run(env, r1.1, urls);
            && r2.1.requests == r1.1.requests
            && forall i :: 0 <= i < |urls| && PastOpen(Dl(env, Run(env, st, urls[..i]).1, urls[i]).0) ==>
                 r2.0[i] == ImageIcon(CachePathOf(env, urls[i]))
  {
    var r1 := Run(env, st, urls);
    RunSettles(env, st, urls);
    RunOverSettled(env, r1.1, urls);
    forall i | 0 <= i < |urls| && PastOpen(Dl(env, Run(env, st, urls[..i]).1, urls[i]).0)
      ensures Hit(env, r1.1, urls[i])
    {
      RunCaches(env, st, urls, i);
    }
  }

  /** Only the network fails. */
  ghost predicate OnlyRequestsFail(f: Faults) {
    forall s :: !f.mkdir(s) && !f.stat(s) && !f.create(s) && !f.copy(s)
  }

  /** The cache paths of a batch of URLs. */
  ghost function CachePaths(env: Env, urls: seq<string>): set<string> {
    set u | u in urls :: CachePathOf(env, u)
  }

  lemma CachePathsSnoc(env: Env, urls: seq<string>, u: string)
    ensures CachePaths(env, urls + [u]) == CachePaths(env, urls) + {CachePathOf(env, u)}
  {
    assert forall v :: v in urls + [u] <==> v in urls || v == u;
  }

  /** With distinct MD5 sums, the last URL's cache path is not among the
      earlier ones. */
  lemma LastPathFresh(env: Env, urls: seq<string>)
    requires |urls| > 0
    requires forall i, j :: 0 <= i < j < |urls| ==> env.md5(urls[i]) != env.md5(urls[j])
    ensures CachePathOf(env, urls[|urls| - 1]) !in CachePaths(env, urls[..|urls| - 1])
  {
    var n := |urls| - 1;
    var p := CachePathOf(env, urls[n]);
    if p in CachePaths(env, urls[..n]) {
      var u :| u in urls[..n] && p == CachePathOf(env, u);
      var j :| 0 <= j < n && urls[j] == u;
      CachePathInjective(env.tempDir, env.md5, u, urls[n]);
      assert false;
    }
  }

  /** With only the network failing and fresh, distinct cache paths, a run
      requests every URL in order and creates every cache file. */
  lemma {:induction false} RunFreshBatch(env: Env, st: Store, urls: seq<string>)
    requires OnlyRequestsFail(env.faults)
    requires forall i, j :: 0 <= i < j < |urls| ==> env.md5(urls[i]) != env.md5(urls[j])
    requires forall i :: 0 <= i < |urls| ==> CachePathOf(env, urls[i]) !in st.files
    ensures Run(env, st, urls).1.requests == st.requests + urls
    ensures Run(env, st, urls).1.files == st.files + CachePaths(env, urls)
    decreases |urls|
  {
    if urls == [] {
      assert CachePaths(env, urls) == {};
    } else {
      var n := |urls| - 1;
      var init, last := urls[..n], urls[n];
      assert urls == init + [last];
      RunFreshBatch(env, st, init);
      LastPathFresh(env, urls);
      FreshBatchStep(env, st, init, last);
    }
  }

  /** One more URL with a fresh cache path extends the requests by that URL
      and the files by its path. */
  lemma FreshBatchStep(env: Env, st: Store, init: seq<string>, last: string)
    requires OnlyRequestsFail(env.faults)
    requires Run(env, st, init).1.requests == st.requests + init
    requires Run(env, st, init).1.files == st.files + CachePaths(env, init)
    requires CachePathOf(env, last) !in st.files
    requires CachePathOf(env, last) !in CachePaths(env, init)
    ensures Run(env, st, init + [last]).1.requests == st.requests + (init + [last])
    ensures Run(env, st, init + [last]).1.files == st.files + CachePaths(env, init + [last])
  {
    var urls := init + [last];
    assert urls[..|urls| - 1] == init && urls[|urls| - 1] == last;
    DlFresh(env, Run(env, st, init).1, last);
    CachePathsSnoc(env, init, last);
    assert (st.requests + init) + [last] == st.requests + urls;
  }

  /** Per-item isolation: under the same conditions, a URL whose request
      fails keeps the error icon and every other URL gets its image; the
      failure does not stop the URLs after it. */
  lemma RunIsolatesFailures(env: Env, st: Store, urls: seq<string>)
    requires OnlyRequestsFail(env.faults)
    requires forall i, j :: 0 <= i < j < |urls| ==> env.md5(urls[i]) != env.md5(urls[j])
    requires forall i :: 0 <= i < |urls| ==> CachePathOf(env, urls[i]) !in st.files
    ensures Run(env, st, urls).1.requests == st.requests + urls
    ensures forall i :: 0 <= i < |urls| ==>
      Run(env, st, urls).0[i] == if env.faults.get(urls[i]) then ErrorIcon else ImageIcon(CachePathOf(env, urls[i]))
  {
    RunFreshBatch(env, st, urls);
    forall i | 0 <= i < |urls|
      ensures Run(env, st, urls).0[i] == if env.faults.get(urls[i]) then ErrorIcon else ImageIcon(CachePathOf(env, urls[i]))
    {
      IsolatedSlot(env, st, urls, i);
    }
  }

  lemma IsolatedSlot(env: Env, st: Store, urls: seq<string>, i: nat)
    requires OnlyRequestsFail(env.faults)
    requires forall i, j :: 0 <= i < j < |urls| ==> env.md5(urls[i]) != env.md5(urls[j])
    requires forall i :: 0 <= i < |urls| ==> CachePathOf(env, urls[i]) !in st.files
    requires i < |urls|
    ensures Run(env, st, urls).0[i] == if env.faults.get(urls[i]) then ErrorIcon else ImageIcon(CachePathOf(env, urls[i]))
  {
    var pre := urls[..i + 1];
    assert pre[..i] == urls[..i] && pre[i] == urls[i];
    RunFreshBatch(env, st, urls[..i]);
    LastPathFresh(env, pre);
    DlFresh(env, Run(env, st, urls[..i]).1, urls[i]);
    RunSlot(env, st, urls, i);
  }
}
