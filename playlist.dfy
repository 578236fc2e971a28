/**
 * The uploads-playlist walk of `getYoutubeData`: every playlist item becomes a
 * video record, and the pages are read one after another until a page comes
 * back without a continuation token.
 *
 * The network is replaced by its answers: a page request is one element of a
 * sequence of responses, in request order. Date parsing (`new Date(...)`,
 * `toLocaleString`, `getFullYear`) is replaced by a given `DateReader`.
 */
module Playlist {
  import opened Optional

  /** The outcome of a call that may throw: its value, or the thrown error's message. */
  datatype Fetch<T> = Got(value: T) | Threw(message: string)

  /** `snippet.thumbnails.{maxres,high,medium}.url`; `None` when any link of the chain is absent. */
  datatype Thumbnails = Thumbnails(maxres: Option<string>, high: Option<string>, medium: Option<string>)

  /** The fields of a playlist item that the mapping reads; `None` for an absent field. */
  datatype PlaylistItem = PlaylistItem(
    videoId: Option<string>,
    title: Option<string>,
    description: Option<string>,
    thumbnails: Thumbnails,
    publishedAt: Option<string>)

  /** One page of `playlistItems.list`. */
  datatype PlaylistPage = PlaylistPage(items: Option<seq<PlaylistItem>>, nextPageToken: Option<string>)

  /**
   * What the host's `Date` makes of a `publishedAt` string: the long month name,
   * the full year and the instant in milliseconds. Taken as given.
   */
  datatype DateReader = DateReader(monthName: string -> string, fullYear: string -> int, time: string -> int)

  /** The normalised video record. */
  datatype Video = Video(
    id: string,
    title: string,
    description: string,
    thumbnail: string,
    publishedAt: string,
    month: string,
    year: int,
    isShort: bool,
    url: string)

  /** JavaScript truthiness of an optional string: present and not empty. */
  predicate Truthy(o: Option<string>) {
    o.Some? && o.value != ""
  }

  /** `o || ''` */
  function OrEmpty(o: Option<string>): string {
    if Truthy(o) then o.value else ""
  }

  /** The thumbnail candidates, best resolution first. */
  function Ranked(t: Thumbnails): seq<Option<string>> {
    [t.maxres, t.high, t.medium]
  }

  /** `c0 || c1 || ... || ''`: the first truthy candidate, or the empty string. */
  function FirstTruthy(cands: seq<Option<string>>): (r: string)
    ensures r == "" <==> forall i | 0 <= i < |cands| :: !Truthy(cands[i])
    ensures r != "" ==> exists i | 0 <= i < |cands| :: cands[i] == Some(r) && forall j | 0 <= j < i :: !Truthy(cands[j])
  {
    if cands == [] then ""
    else if Truthy(cands[0]) then cands[0].value
    else
      var r := FirstTruthy(cands[1..]);
      assert forall i | 1 <= i < |cands| :: cands[i] == cands[1..][i - 1];
      r
  }

  /** `maxres?.url || high?.url || medium?.url || ''` */
  function Thumbnail(t: Thumbnails): string {
    FirstTruthy(Ranked(t))
  }

  function LowerChar(c: char): char {
    if 'A' <= c <= 'Z' then (c as int + 32) as char else c
  }

  /** `toLowerCase()` on the ASCII letters. */
  function Lower(s: string): (r: string)
    ensures |r| == |s| && forall i | 0 <= i < |s| :: r[i] == LowerChar(s[i])
  {
    if s == [] then [] else [LowerChar(s[0])] + Lower(s[1..])
  }

  /** `p` occurs in `s` starting at index `i`. */
  predicate OccursAt(s: string, p: string, i: nat) {
    i + |p| <= |s| && s[i..i + |p|] == p
  }

  /** `s.includes(p)` */
  predicate Contains(s: string, p: string) {
    exists i: nat | i <= |s| :: OccursAt(s, p, i)
  }

  /** The short-form test as written: the lower-cased title includes "#shorts" or "short"; no title is not short. */
  predicate IsShortTitle(title: Option<string>) {
    title.Some? && (Contains(Lower(title.value), "#shorts") || Contains(Lower(title.value), "short"))
  }

  /** Whatever contains "#shorts" contains "short": the first test never decides anything. */
  lemma ShortsTestSubsumed(s: string)
    ensures Contains(s, "#shorts") ==> Contains(s, "short")
  {
    if Contains(s, "#shorts") {
      var i: nat :| i <= |s| && OccursAt(s, "#shorts", i);
      assert s[i + 1..i + 6] == s[i..i + 7][1..6] == "short";
      assert OccursAt(s, "short", i + 1);
    }
  }

  /** The record built for one playlist item. */
  function ToVideo(item: PlaylistItem, dates: DateReader): Video {
    var published := OrEmpty(item.publishedAt);
    Video(
      id := OrEmpty(item.videoId),
      title := OrEmpty(item.title),
      description := OrEmpty(item.description),
      thumbnail := Thumbnail(item.thumbnails),
      publishedAt := published,
      month := dates.monthName(published),
      year := dates.fullYear(published),
      isShort := IsShortTitle(item.title),
      url := "https://youtube.com/watch?v=" + item.videoId.GetOr("undefined"))
  }

  /**
   * What a video record says about its item: absent or empty text fields become
   * "", the thumbnail is the best one available, `isShort` holds exactly when
   * the lower-cased title contains "short", month and year are those of the
   * publication date, and the watch URL carries the raw video id.
   */
  lemma ToVideoSpec(item: PlaylistItem, dates: DateReader)
    ensures var v := ToVideo(item, dates);
      && v.id == OrEmpty(item.videoId) && v.title == OrEmpty(item.title)
      && v.description == OrEmpty(item.description) && v.publishedAt == OrEmpty(item.publishedAt)
      && (v.thumbnail == "" <==> forall i | 0 <= i < 3 :: !Truthy(Ranked(item.thumbnails)[i]))
      && (v.thumbnail != "" ==> exists i | 0 <= i < 3 ::
            Ranked(item.thumbnails)[i] == Some(v.thumbnail) && forall j | 0 <= j < i :: !Truthy(Ranked(item.thumbnails)[j]))
      && (v.isShort <==> Contains(Lower(v.title), "short"))
      && v.month == dates.monthName(v.publishedAt) && v.year == dates.fullYear(v.publishedAt)
      && v.url == "https://youtube.com/watch?v=" + item.videoId.GetOr("undefined")
  {
    ShortsTestSubsumed(Lower(item.title.GetOr("")));
    assert Lower("") == "";
  }

  /** `items.map(...)` */
  function ToVideos(items: seq<PlaylistItem>, dates: DateReader): (r: seq<Video>)
    ensures |r| == |items|
  {
    seq(|items|, i requires 0 <= i < |items| => ToVideo(items[i], dates))
  }

  /** Each item becomes the video at its own position. */
  lemma ToVideosAt(items: seq<PlaylistItem>, dates: DateReader, i: nat)
    requires i < |items|
    ensures ToVideos(items, dates)[i] == ToVideo(items[i], dates)
  {
  }

  /** A response that ends the walk: it threw, or it carries no continuation token. */
  predicate Stops(p: Fetch<PlaylistPage>) {
    p.Threw? || !Truthy(p.value.nextPageToken)
  }

  /** The upstream eventually answers with a last page (or fails). */
  predicate HasStop(pages: seq<Fetch<PlaylistPage>>) {
    exists i | 0 <= i < |pages| :: Stops(pages[i])
  }

  /** The index of the last response the walk reads. */
  function FirstStop(pages: seq<Fetch<PlaylistPage>>): (k: nat)
    requires HasStop(pages)
    ensures k < |pages| && Stops(pages[k])
    ensures forall j | 0 <= j < k :: !Stops(pages[j])
  {
    if Stops(pages[0]) then 0
    else
      assert HasStop(pages[1..]) by {
        var i :| 0 <= i < |pages| && Stops(pages[i]);
        assert pages[1..][i - 1] == pages[i];
      }
      1 + FirstStop(pages[1..])
  }

  /** The items a response contributes: none when it threw or has no item list. */
  function PageItems(p: Fetch<PlaylistPage>): seq<PlaylistItem> {
    if p.Got? && p.value.items.Some? then p.value.items.value else []
  }

  /** The videos of all responses, page after page, each page in its own order. */
  function Uploads(pages: seq<Fetch<PlaylistPage>>, dates: DateReader): seq<Video> {
    if pages == [] then []
    else Uploads(pages[..|pages| - 1], dates) + ToVideos(PageItems(pages[|pages| - 1]), dates)
  }

  /** The number of items over all responses. */
  function ItemCount(pages: seq<Fetch<PlaylistPage>>): nat {
    if pages == [] then 0 else ItemCount(pages[..|pages| - 1]) + |PageItems(pages[|pages| - 1])|
  }

  lemma UploadsSnoc(pages: seq<Fetch<PlaylistPage>>, dates: DateReader, i: nat)
    requires i < |pages|
    ensures Uploads(pages[..i + 1], dates) == Uploads(pages[..i], dates) + ToVideos(PageItems(pages[i]), dates)
  {
    assert pages[..i + 1][..i] == pages[..i];
  }

  /** One video per item: the accumulated list is as long as the pages' item counts together. */
  lemma {:induction false} UploadsLength(pages: seq<Fetch<PlaylistPage>>, dates: DateReader)
    ensures |Uploads(pages, dates)| == ItemCount(pages)
  {
    if pages != [] {
      UploadsLength(pages[..|pages| - 1], dates);
    }
  }

  /** The item behind each accumulated video: the `k`-th video is the mapped `k`-th item over all pages. */
  lemma {:induction false} UploadsAt(pages: seq<Fetch<PlaylistPage>>, dates: DateReader, p: nat, j: nat)
    requires p < |pages| && j < |PageItems(pages[p])|
    ensures ItemCount(pages[..p]) + j < |Uploads(pages, dates)|
    ensures Uploads(pages, dates)[ItemCount(pages[..p]) + j] == ToVideo(PageItems(pages[p])[j], dates)
  {
    var n := |pages|;
    var init := pages[..n - 1];
    var front, back := Uploads(init, dates), ToVideos(PageItems(pages[n - 1]), dates);
    assert Uploads(pages, dates) == front + back;
    UploadsLength(init, dates);
    if p == n - 1 {
      assert pages[..p] == init;
      ToVideosAt(PageItems(pages[n - 1]), dates, j);
      assert (front + back)[|front| + j] == back[j];
    } else {
      assert init[..p] == pages[..p];
      assert init[p] == pages[p];
      UploadsAt(init, dates, p, j);
      var k := ItemCount(pages[..p]) + j;
      assert (front + back)[k] == front[k];
    }
  }

  /**
   * The do-while loop: request a page, append its mapped items, and go on while
   * the page names a next page. A response that threw ends the walk with its
   * message; otherwise the result is everything read up to the first page
   * without a token.
   */
  method CollectUploads(pages: seq<Fetch<PlaylistPage>>, dates: DateReader) returns (r: Fetch<seq<Video>>)
    requires HasStop(pages)
    ensures pages[FirstStop(pages)].Threw? ==> r == Threw(pages[FirstStop(pages)].message)
    ensures pages[FirstStop(pages)].Got? ==> r == Got(Uploads(pages[..FirstStop(pages) + 1], dates))
  {
    ghost var last := FirstStop(pages);
    var allVideos: seq<Video> := [];
    var i := 0;
    var more := true;
    while more
      invariant more ==> i <= last
      invariant !more ==> i == last + 1 && pages[last].Got?
      invariant allVideos == Uploads(pages[..i], dates)
      decreases last + 1 - i
    {
      var response := pages[i];
      if response.Threw? {
        assert i == last by { assert Stops(pages[i]); }
        return Threw(response.message);
      }
      var page := response.value;
      UploadsSnoc(pages, dates, i);
      if page.items.Some? && |page.items.value| > 0 {
        allVideos := allVideos + ToVideos(page.items.value, dates);
      } else {
        assert ToVideos(PageItems(response), dates) == [];
      }
      more := Truthy(page.nextPageToken);
      if !more {
        assert i == last by { assert Stops(pages[i]); }
      }
      i := i + 1;
    }
    r := Got(allVideos);
  }
}
