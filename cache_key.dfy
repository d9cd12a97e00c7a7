/** Where an icon URL is cached: a file named by the hex MD5 of the URL, with a
    .png extension, in a namespace directory under the temp directory. */
module CacheKey {
  import opened Hex
  import opened Paths

  /** An MD5 sum: 16 bytes. MD5 itself is a parameter of the model. */
  type Digest = s: seq<byte> | |s| == 16 witness [0, 0, 0, 0, 0, 0, 0, 0, 0, 0, 0, 0, 0, 0, 0, 0]

  /** The directory name that keeps this tool's cache apart from others
      sharing the temp directory. */
  const Namespace: string := "net.nkcmr.alfred-apple-app-search"

  /** md5hash: the MD5 sum of s, hex-encoded: 32 characters from 0-9a-f. */
  function Md5Hash(md5: string -> Digest, s: string): (h: string)
    ensures |h| == 32
    ensures forall k :: 0 <= k < |h| ==> IsHexChar(h[k])
  {
    HexEncode(md5(s))
  }

  /** The cache directory: the temp directory without trailing slashes, then
      the namespace. */
  function CacheDir(tempDir: string): string {
    TrimRight(tempDir, "/") + "/" + Namespace
  }

  /** The file name a URL is cached under: its hex MD5 and ".png". */
  function FileName(md5: string -> Digest, url: string): string {
    Md5Hash(md5, url) + ".png"
  }

  /** The cache path of a URL, as the Sprintf in dl builds it. */
  function CachePath(tempDir: string, md5: string -> Digest, url: string): (p: string)
    ensures |p| == |CacheDir(tempDir)| + 37
    ensures p[..|CacheDir(tempDir)|] == CacheDir(tempDir)
    ensures p[|CacheDir(tempDir)|] == '/'
    ensures p[|p| - 4..] == ".png"
  {
    CacheDir(tempDir) + "/" + FileName(md5, url)
  }

  /** The cache path is a .png file, named by 32 hex digits, directly inside
      the cache directory. */
  lemma CachePathLayout(tempDir: string, md5: string -> Digest, url: string)
    ensures var p := CachePath(tempDir, md5, url);
            && Dir(p) == CacheDir(tempDir)
            && |p| == |CacheDir(tempDir)| + 37
            && p[|p| - 4..] == ".png"
            && forall k :: |CacheDir(tempDir)| < k < |p| - 4 ==> IsHexChar(p[k])
  {
    DirOfJoin(CacheDir(tempDir), FileName(md5, url));
  }

  /** The temp directory contributes a prefix of itself that does not end in
      '/', followed by exactly one '/' and the namespace. */
  lemma CacheDirLayout(tempDir: string)
    ensures var d := TrimRight(tempDir, "/");
            var c := CacheDir(tempDir);
            && d <= tempDir
            && c[..|d|] == d
            && (|d| == 0 || c[|d| - 1] != '/')
            && c[|d|] == '/'
            && c[|d| + 1..] == Namespace
  {
  }

  /** Two URLs share a cache path exactly when their MD5 sums agree; in
      particular equal URLs always get equal paths. */
  lemma CachePathInjective(tempDir: string, md5: string -> Digest, u: string, v: string)
    ensures CachePath(tempDir, md5, u) == CachePath(tempDir, md5, v) <==> md5(u) == md5(v)
  {
    var pu, pv := CachePath(tempDir, md5, u), CachePath(tempDir, md5, v);
    var n := |CacheDir(tempDir)| + 1;
    if pu == pv {
      assert pu == CacheDir(tempDir) + "/" + Md5Hash(md5, u) + ".png";
      assert pv == CacheDir(tempDir) + "/" + Md5Hash(md5, v) + ".png";
      assert pu[n..n + 32] == Md5Hash(md5, u);
      assert pv[n..n + 32] == Md5Hash(md5, v);
      HexEncodeInjective(md5(u), md5(v));
    }
  }
}
