/** The two string helpers the cache path is built with: Go's strings.TrimRight
    and the directory part of a slash-separated path (filepath.Dir). */
module Paths {

  /** strings.TrimRight(s, cutset): drops every trailing character that occurs
      in cutset. The result is the longest prefix of s that does not end in a
      cutset character, and everything cut off is cutset characters. */
  function TrimRight(s: string, cutset: string): (r: string)
    ensures r <= s
    ensures r == [] || r[|r| - 1] !in cutset
    ensures forall k :: |r| <= k < |s| ==> s[k] in cutset
  {
    if s != [] && s[|s| - 1] in cutset then TrimRight(s[..|s| - 1], cutset) else s
  }

  /** Index of the last occurrence of c in s, or -1 when there is none. */
  function LastIndex(s: string, c: char): (k: int)
    ensures -1 <= k < |s|
    ensures k >= 0 ==> s[k] == c
    ensures forall j :: k < j < |s| ==> s[j] != c
  {
    if s == [] then -1
    else if s[|s| - 1] == c then |s| - 1
    else LastIndex(s[..|s| - 1], c)
  }

  /** filepath.Dir on a slash-separated path: everything before the last '/',
      "/" when that slash is the first character, "." when there is none. */
  function Dir(p: string): (r: string)
    ensures '/' !in p ==> r == "."
    ensures |p| > 0 && p[0] == '/' && '/' !in p[1..] ==> r == "/"
    ensures forall k :: 0 < k < |p| && p[k] == '/' && '/' !in p[k + 1..] ==> r == p[..k]
  {
    var k := LastIndex(p, '/');
    if k < 0 then "." else if k == 0 then "/" else p[..k]
  }

  /** A path made of a directory and a slash-free file name has that
      directory as its Dir. */
  lemma DirOfJoin(dir: string, name: string)
    requires dir != []
    requires forall k :: 0 <= k < |name| ==> name[k] != '/'
    ensures Dir(dir + "/" + name) == dir
  {
    var p := dir + "/" + name;
    var k := LastIndex(p, '/');
    assert p[|dir|] == '/';
    assert forall j :: |dir| < j < |p| ==> p[j] == name[j - |dir| - 1];
    assert k == |dir|;
    assert p[..k] == dir;
  }
}
