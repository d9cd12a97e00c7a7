/** The part of main that pairs search results with icons by index: the
    artwork URL of result i goes into images[i], and item i receives icons[i]. */
module Feedback {
  import opened Wrappers
  import opened Engine
  import opened Downloader

  /** The fields of an iTunes search result that the pairing uses. */
  datatype SearchResult = SearchResult(name: string, artwork: string)

  /** An Alfred item: the title it was built with and the icon set on it. */
  datatype Item = Item(title: string, icon: Option<Icon>)

  /** The artwork URL of every result, in order. */
  function Artworks(results: seq<SearchResult>): seq<string> {
    seq(|results|, i requires 0 <= i < |results| => results[i].artwork)
  }

  /** Builds one item per result while collecting the artwork URLs, resolves
      the icons, and gives item i the icon of slot i. */
  method ShowResults(host: Host, results: seq<SearchResult>) returns (items: seq<Item>)
    modifies host
    ensures |items| == |results|
    ensures forall i :: 0 <= i < |results| ==>
      items[i] == Item(results[i].name, Some(Run(host.env, old(host.State()), Artworks(results)).0[i]))
    ensures host.State() == Run(host.env, old(host.State()), Artworks(results)).1
  {
    var images := new string[|results|];
    items := [];
    for i := 0 to |results|
      modifies images
      invariant |items| == i
      invariant forall k :: 0 <= k < i ==> items[k] == Item(results[k].name, None)
      invariant forall k :: 0 <= k < i ==> images[k] == results[k].artwork
    {
      items := items + [Item(results[i].name, None)];
      images[i] := results[i].artwork;
    }
    ghost var urls := images[..];
    assert urls == Artworks(results);
    ghost var st0 := host.State();
    var icons := host.DownloadAllImages(images[..]);
    ghost var slots := Run(host.env, st0, urls).0;
    assert forall k :: 0 <= k < |results| ==> icons[k] == Some(slots[k]);
    for i := 0 to icons.Length
      invariant |items| == |results|
      invariant forall k :: 0 <= k < i ==> items[k] == Item(results[k].name, icons[k])
      invariant forall k :: i <= k < |results| ==> items[k] == Item(results[k].name, None)
    {
      items := items[i := items[i].(icon := icons[i])];
    }
  }
}
