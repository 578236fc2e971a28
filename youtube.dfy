/**
 * `getYoutubeData(channelHandle)`: the catalogue of one channel. The API key
 * check, the handle table and the channel lookup come first; then the uploads
 * playlist is walked page by page, sorted newest first, grouped by category
 * and then by year and month, and the first page of 12 is cut off.
 *
 * Every network answer is an input: whether an API key is configured, the
 * result of `channels.list` and the sequence of `playlistItems.list` pages.
 */
module YouTube {
  import opened Optional
  import opened Decimal
  import opened Grouping
  import opened Playlist

  // ---------------------------------------------------------------------------
  // The handle table

  /** The three channels the site knows, by handle. */
  const ChannelIds: map<string, string> := map[
    "@ShadowMB" := "UCezP-lhxuxfRrZJlMFX8naQ",
    "@FactsHive" := "UCPEkU0NHJMC2lm77hHncNqw",
    "@VoiceofMaheedhar" := "UCSt52ackN3gdHpNsdhdNfzQ"]

  /** The channel id for a handle, looking only at the table's own entries. */
  function ResolveHandle(handle: string): (id: Option<string>)
    ensures id.Some? <==> handle == "@ShadowMB" || handle == "@FactsHive" || handle == "@VoiceofMaheedhar"
    ensures id.Some? ==> id.value != ""
  {
    if handle in ChannelIds then Some(ChannelIds[handle]) else None
  }

  /** The members every plain object inherits from `Object.prototype`. */
  const ObjectPrototypeMembers: set<string> := {
    "constructor", "hasOwnProperty", "isPrototypeOf", "propertyIsEnumerable",
    "toLocaleString", "toString", "valueOf", "__proto__",
    "__defineGetter__", "__defineSetter__", "__lookupGetter__", "__lookupSetter__"}

  /** What `channelMap[key]` reads on a plain object literal. */
  datatype PropertyRead = Undefined | Own(id: string) | InheritedMember(name: string)

  /** The lookup as the code writes it: a property read, which also finds inherited members. */
  function LookupAsWritten(handle: string): PropertyRead {
    if handle in ChannelIds then Own(ChannelIds[handle])
    else if handle in ObjectPrototypeMembers then InheritedMember(handle)
    else Undefined
  }

  /** `!channelId` is false: an own non-empty id, or an inherited member (a function or an object). */
  predicate PassesHandleCheck(read: PropertyRead) {
    match read
    case Undefined => false
    case Own(id) => id != ""
    case InheritedMember(_) => true
  }

  /** The handle "toString" is not a channel, yet the check as written lets it through. */
  lemma InheritedMemberPassesHandleCheck()
    ensures PassesHandleCheck(LookupAsWritten("toString"))
    ensures ResolveHandle("toString").None?
  {
  }

  /**
   * The lookup as written and the corrected one agree on every table handle;
   * the guard lets through exactly the table handles and the inherited names.
   */
  lemma HandleCheckAsWritten(handle: string)
    ensures ResolveHandle(handle).Some? ==> LookupAsWritten(handle) == Own(ResolveHandle(handle).value)
    ensures PassesHandleCheck(LookupAsWritten(handle)) <==> ResolveHandle(handle).Some? || handle in ObjectPrototypeMembers
  {
  }

  // ---------------------------------------------------------------------------
  // Channel details

  /** `contentDetails.relatedPlaylists.uploads` of one `channels.list` item. */
  datatype ChannelItem = ChannelItem(uploads: Option<string>)

  /** The answer to `channels.list`: the `items` field (possibly absent), or the thrown error. */
  type ChannelFetch = Fetch<Option<seq<ChannelItem>>>

  /** `error.message || 'Failed to fetch YouTube data'` */
  function ErrorMessage(thrown: string): (m: string)
    ensures m != ""
    ensures thrown != "" ==> m == thrown
    ensures thrown == "" ==> m == "Failed to fetch YouTube data"
  {
    if thrown == "" then "Failed to fetch YouTube data" else thrown
  }

  // ---------------------------------------------------------------------------
  // Sorting newest first

  /** The instant a video was published, as the sort comparator reads it. */
  function Rank(dates: DateReader): Video -> int {
    (v: Video) => dates.time(v.publishedAt)
  }

  /** Swaps two elements. */
  method Swap(a: array<Video>, i: nat, j: nat)
    requires i < a.Length && j < a.Length
    modifies a
    ensures a[..] == old(a[..])[i := old(a[j])][j := old(a[i])]
    ensures multiset(a[..]) == old(multiset(a[..]))
  {
    a[i], a[j] := a[j], a[i];
  }

  /**
   * `allVideos.sort((a, b) => time(b) - time(a))`, in place: an insertion sort
   * that moves an element left only past strictly older ones, so equal
   * instants keep their order.
   */
  method SortNewestFirst(a: array<Video>, dates: DateReader)
    modifies a
    ensures NonIncreasing(a[..], Rank(dates))
    ensures multiset(a[..]) == old(multiset(a[..]))
  {
    var i := 0;
    while i < a.Length
      invariant i <= a.Length
      invariant forall p, q | 0 <= p < q < i :: dates.time(a[p].publishedAt) >= dates.time(a[q].publishedAt)
      invariant multiset(a[..]) == old(multiset(a[..]))
    {
      var j := i;
      while j > 0 && dates.time(a[j - 1].publishedAt) < dates.time(a[j].publishedAt)
        invariant j <= i
        invariant forall p, q | 0 <= p < q <= i && p != j && q != j :: dates.time(a[p].publishedAt) >= dates.time(a[q].publishedAt)
        invariant forall q | j < q <= i :: dates.time(a[j].publishedAt) > dates.time(a[q].publishedAt)
        invariant multiset(a[..]) == old(multiset(a[..]))
      {
        Swap(a, j - 1, j);
        j := j - 1;
      }
      i := i + 1;
    }
  }

  // ---------------------------------------------------------------------------
  // Grouping

  /**
   * `acc[video.category]`: no record ever sets `category`, so every video is
   * filed under the property key that `undefined` becomes.
   */
  function CategoryOf(v: Video): string {
    "undefined"
  }

  /** `video.year.toString()` */
  function YearKey(v: Video): string {
    IntToString(v.year)
  }

  /** `${video.month} ${video.year}` */
  function MonthKey(v: Video): string {
    v.month + " " + IntToString(v.year)
  }

  /** `{ year, months }`: the year of the first video filed here, and its month buckets. */
  datatype YearGroup = YearGroup(year: int, months: Groups<Video>)

  /** The year buckets of one category, in insertion order. */
  datatype Calendar = Calendar(order: seq<string>, years: map<string, YearGroup>)

  /**
   * `c` is what the year/month reduce builds from `s`: one year bucket per year
   * key in order of first occurrence, carrying the year of its first video, and
   * inside it the month grouping of exactly that year's videos.
   */
  ghost predicate IsCalendar(c: Calendar, s: seq<Video>) {
    && c.order == KeysInOrder(s, YearKey)
    && (forall y :: y in c.years <==> y in c.order)
    && (forall y | y in c.years :: YearFiled(c.years[y], s, y))
  }

  /** The bucket of year key `y` carries the year of its first video and groups exactly that year's videos by month. */
  ghost predicate YearFiled(yg: YearGroup, s: seq<Video>, y: string) {
    var inYear := Filter(s, YearKey, y);
    && inYear != []
    && yg.year == inYear[0].year
    && IsGrouping(yg.months, inYear, MonthKey)
  }

  /** One step of the year/month reduce: create the year and month buckets if needed, then push. */
  function Record(c: Calendar, v: Video): Calendar {
    var y := YearKey(v);
    var c' := if y in c.years then c else Calendar(c.order + [y], c.years[y := YearGroup(v.year, Groups([], map[]))]);
    var yg := c'.years[y];
    Calendar(c'.order, c'.years[y := yg.(months := Push(yg.months, MonthKey(v), v))])
  }

  /** Filing one more video keeps the calendar exact. */
  lemma RecordExtends(c: Calendar, s: seq<Video>, i: nat)
    requires i < |s| && IsCalendar(c, s[..i])
    ensures IsCalendar(Record(c, s[i]), s[..i + 1])
  {
    var t, u, v := s[..i], s[..i + 1], s[i];
    assert u[..|u| - 1] == t;
    assert u == t + [v];
    var y := YearKey(v);
    var c' := Record(c, v);
    forall y' | y' in c'.years
      ensures YearFiled(c'.years[y'], u, y')
    {
      if y' == y {
        if y in c.years {
          PushPreservesGrouping(c.years[y].months, Filter(t, YearKey, y), MonthKey, v);
        } else {
          KeysInOrderSpec(t, YearKey);
          assert Filter(t, YearKey, y) == [];
          PushPreservesGrouping(Groups([], map[]), [], MonthKey, v);
          assert [] + [v] == [v];
        }
      } else {
        assert c'.years[y'] == c.years[y'];
        assert Filter(u, YearKey, y') == Filter(t, YearKey, y');
      }
    }
  }

  /** `videos.reduce(...)` into years and months, over one category's videos. */
  method GroupByYearMonth(s: seq<Video>) returns (c: Calendar)
    ensures IsCalendar(c, s)
  {
    c := Calendar([], map[]);
    for i := 0 to |s|
      invariant IsCalendar(c, s[..i])
    {
      RecordExtends(c, s, i);
      c := Record(c, s[i]);
    }
    assert s[..|s|] == s;
  }

  /** `Object.keys(videosByCategory).reduce(...)`: the calendar of every category. */
  method GroupCategories(byCategory: Groups<Video>) returns (grouped: map<string, Calendar>)
    requires forall k :: k in byCategory.buckets <==> k in byCategory.order
    ensures grouped.Keys == byCategory.buckets.Keys
    ensures forall k | k in grouped :: IsCalendar(grouped[k], byCategory.buckets[k])
  {
    grouped := map[];
    for i := 0 to |byCategory.order|
      invariant forall j | 0 <= j < i :: byCategory.order[j] in grouped
      invariant forall k | k in grouped :: k in byCategory.order[..i]
      invariant forall k | k in grouped :: k in byCategory.buckets && IsCalendar(grouped[k], byCategory.buckets[k])
    {
      var category := byCategory.order[i];
      var calendar := GroupByYearMonth(byCategory.buckets[category]);
      grouped := grouped[category := calendar];
      assert byCategory.order[..i + 1] == byCategory.order[..i] + [category];
    }
    assert byCategory.order[..|byCategory.order|] == byCategory.order;
  }

  /** The number of videos filed under the years named in `o`. */
  function YearTotals(o: seq<string>, years: map<string, YearGroup>): nat {
    if o == [] then 0
    else
      var y := o[|o| - 1];
      YearTotals(o[..|o| - 1], years) + (if y in years then SumSizes(years[y].months.order, years[y].months.buckets) else 0)
  }

  lemma {:induction false} YearTotalsIsCount(o: seq<string>, c: Calendar, s: seq<Video>)
    requires IsCalendar(c, s)
    requires forall y | y in o :: y in c.years
    ensures YearTotals(o, c.years) == Count(o, s, YearKey)
  {
    if o != [] {
      var y := o[|o| - 1];
      YearTotalsIsCount(o[..|o| - 1], c, s);
      BucketSizesSum(c.years[y].months, Filter(s, YearKey, y), MonthKey);
    }
  }

  /** The month buckets of all years together hold as many videos as the category. */
  lemma CalendarSizesSum(c: Calendar, s: seq<Video>)
    requires IsCalendar(c, s)
    ensures YearTotals(c.order, c.years) == |s|
  {
    YearTotalsIsCount(c.order, c, s);
    CountAll(s, YearKey);
  }

  /**
   * Each video is in the bucket of its own year and, inside it, of its own
   * month; no other year or month bucket holds it.
   */
  lemma InOneMonth(c: Calendar, s: seq<Video>, i: nat)
    requires IsCalendar(c, s) && i < |s|
    ensures YearKey(s[i]) in c.years
    ensures MonthKey(s[i]) in c.years[YearKey(s[i])].months.buckets
    ensures s[i] in c.years[YearKey(s[i])].months.buckets[MonthKey(s[i])]
    ensures forall y, m | y in c.years && m in c.years[y].months.buckets && s[i] in c.years[y].months.buckets[m] ::
              y == YearKey(s[i]) && m == MonthKey(s[i])
  {
    var v := s[i];
    KeysInOrderSpec(s, YearKey);
    FilterContains(s, YearKey, i);
    var inYear := Filter(s, YearKey, YearKey(v));
    var j :| 0 <= j < |inYear| && inYear[j] == v;
    InOwnBucket(c.years[YearKey(v)].months, inYear, MonthKey, j);
    forall y, m | y in c.years && m in c.years[y].months.buckets && v in c.years[y].months.buckets[m]
      ensures y == YearKey(v) && m == MonthKey(v)
    {
      var b := c.years[y].months.buckets[m];
      var k :| 0 <= k < |b| && b[k] == v;
      var inY := Filter(s, YearKey, y);
      assert b == Filter(inY, MonthKey, m);
      FilterKeys(inY, MonthKey, m);
      FilterKeys(s, YearKey, y);
      var l :| 0 <= l < |inY| && inY[l] == v by {
        FilterMember(inY, MonthKey, m, k);
      }
    }
  }

  /** Month buckets list their videos in the (newest first) order of the category. */
  lemma MonthBucketsKeepOrder(c: Calendar, s: seq<Video>, dates: DateReader, y: string, m: string)
    requires IsCalendar(c, s) && NonIncreasing(s, Rank(dates))
    requires y in c.years && m in c.years[y].months.buckets
    ensures NonIncreasing(c.years[y].months.buckets[m], Rank(dates))
  {
    FilterKeepsOrder(s, YearKey, y, Rank(dates));
    FilterKeepsOrder(Filter(s, YearKey, y), MonthKey, m, Rank(dates));
  }

  /** With the constant category key, all videos share one bucket (none when there are no videos). */
  lemma {:induction false} SingleCategory(g: Groups<Video>, s: seq<Video>)
    requires IsGrouping(g, s, CategoryOf)
    ensures s == [] ==> g.order == [] && g.buckets == map[]
    ensures s != [] ==> g.order == ["undefined"] && g.buckets == map["undefined" := s]
  {
    if s == [] {
      assert KeysInOrder(s, CategoryOf) == [];
      assert g.buckets.Keys == {};
    } else {
      CategoryKeys(s);
      FilterAll(s);
      assert g.buckets.Keys == {"undefined"};
      assert g.buckets["undefined"] == s;
    }
  }

  lemma {:induction false} CategoryKeys(s: seq<Video>)
    requires s != []
    ensures KeysInOrder(s, CategoryOf) == ["undefined"]
  {
    if |s| > 1 {
      CategoryKeys(s[..|s| - 1]);
    }
  }

  lemma {:induction false} FilterAll(s: seq<Video>)
    ensures Filter(s, CategoryOf, "undefined") == s
  {
    if s != [] {
      FilterAll(s[..|s| - 1]);
    }
  }

  // ---------------------------------------------------------------------------
  // Pagination

  const VideosPerPage: nat := 12

  datatype Pagination = Pagination(totalVideos: nat, videosPerPage: nat, totalPages: nat, currentPage: nat)

  /** `Math.ceil(total / 12)`: the fewest pages of 12 that hold `total` videos. */
  function PageCount(total: nat): (p: nat)
    ensures p * VideosPerPage >= total
    ensures p > 0 ==> (p - 1) * VideosPerPage < total
  {
    (total + VideosPerPage - 1) / VideosPerPage
  }

  /** `allVideos.slice(0, 12)` */
  function FirstPage(all: seq<Video>): (r: seq<Video>)
    ensures r <= all
    ensures |r| == if |all| < VideosPerPage then |all| else VideosPerPage
  {
    if |all| < VideosPerPage then all else all[..VideosPerPage]
  }

  // ---------------------------------------------------------------------------
  // The whole operation

  /** The three shapes of the returned object. */
  datatype YoutubeData =
      /** `{ allVideos: [], error: 'YouTube API key is not configured' }` */
    | NotConfigured
      /** `{ videos: [], communityPosts: [], error }` */
    | Failed(error: string)
      /** The catalogue, with `error: null`. */
    | Loaded(
        videos: seq<Video>,
        allVideos: seq<Video>,
        videosByCategory: Groups<Video>,
        groupedVideos: map<string, Calendar>,
        pagination: Pagination)
  {
    /** The `error` field: `None` stands for `null`. */
    function Error(): Option<string> {
      match this
      case NotConfigured => Some("YouTube API key is not configured")
      case Failed(e) => Some(e)
      case Loaded(_, _, _, _, _) => None
    }
  }

  /** The `items` of a channel answer, with an absent list read as empty. */
  function ChannelItems(channel: ChannelFetch): seq<ChannelItem> {
    if channel.Got? && channel.value.Some? then channel.value.value else []
  }

  /** Everything before the page walk succeeds: key, handle, channel and uploads playlist. */
  predicate ReachesPlaylist(apiKeyConfigured: bool, handle: string, channel: ChannelFetch) {
    && apiKeyConfigured
    && PassesHandleCheck(LookupAsWritten(handle))
    && channel.Got?
    && |ChannelItems(channel)| > 0
    && Truthy(ChannelItems(channel)[0].uploads)
  }

  /**
   * `r` is the catalogue built from the accumulated videos: all of them, newest
   * first; grouped by category and by year and month; the first 12; and the
   * page count.
   */
  ghost predicate IsCatalog(r: YoutubeData, collected: seq<Video>, dates: DateReader) {
    && r.Loaded?
    && multiset(r.allVideos) == multiset(collected)
    && NonIncreasing(r.allVideos, Rank(dates))
    && IsGrouping(r.videosByCategory, r.allVideos, CategoryOf)
    && r.groupedVideos.Keys == r.videosByCategory.buckets.Keys
    && (forall k | k in r.groupedVideos :: IsCalendar(r.groupedVideos[k], r.videosByCategory.buckets[k]))
    && r.videos == FirstPage(r.allVideos)
    && r.pagination == Pagination(|r.allVideos|, VideosPerPage, PageCount(|r.allVideos|), 1)
  }

  method GetYoutubeData(
    apiKeyConfigured: bool,
    handle: string,
    channel: ChannelFetch,
    pages: seq<Fetch<PlaylistPage>>,
    dates: DateReader)
    returns (r: YoutubeData)
    requires ReachesPlaylist(apiKeyConfigured, handle, channel) ==> HasStop(pages)
    ensures !apiKeyConfigured <==> r == NotConfigured
    ensures apiKeyConfigured && !PassesHandleCheck(LookupAsWritten(handle)) ==> r == Failed("Invalid channel handle")
    ensures apiKeyConfigured && PassesHandleCheck(LookupAsWritten(handle)) && channel.Threw? ==> r == Failed(ErrorMessage(channel.message))
    ensures apiKeyConfigured && PassesHandleCheck(LookupAsWritten(handle)) && channel.Got? && ChannelItems(channel) == []
            ==> r == Failed("Channel not found")
    ensures apiKeyConfigured && PassesHandleCheck(LookupAsWritten(handle)) && channel.Got? && ChannelItems(channel) != []
            && !Truthy(ChannelItems(channel)[0].uploads)
            ==> r == Failed("No uploads playlist found")
    ensures ReachesPlaylist(apiKeyConfigured, handle, channel) && pages[FirstStop(pages)].Threw?
            ==> r == Failed(ErrorMessage(pages[FirstStop(pages)].message))
    ensures r.Loaded? <==> ReachesPlaylist(apiKeyConfigured, handle, channel) && pages[FirstStop(pages)].Got?
    ensures r.Loaded? ==> IsCatalog(r, Uploads(pages[..FirstStop(pages) + 1], dates), dates)
  {
    if !apiKeyConfigured {
      return NotConfigured;
    }
    var channelId := LookupAsWritten(handle);
    if !PassesHandleCheck(channelId) {
      return Failed("Invalid channel handle");
    }
    if channel.Threw? {
      return Failed(ErrorMessage(channel.message));
    }
    if channel.value.None? || |channel.value.value| == 0 {
      return Failed("Channel not found");
    }
    var uploadsPlaylistId := channel.value.value[0].uploads;
    if !Truthy(uploadsPlaylistId) {
      return Failed("No uploads playlist found");
    }
    var collected := CollectUploads(pages, dates);
    if collected.Threw? {
      return Failed(ErrorMessage(collected.message));
    }
    var accumulated := collected.value;
    var a := new Video[|accumulated|](i requires 0 <= i < |accumulated| => accumulated[i]);
    assert a[..] == accumulated;
    SortNewestFirst(a, dates);
    var allVideos := a[..];
    var videosByCategory := GroupBy(allVideos, CategoryOf);
    var groupedVideos := GroupCategories(videosByCategory);
    var totalVideos := |allVideos|;
    r := Loaded(
      FirstPage(allVideos),
      allVideos,
      videosByCategory,
      groupedVideos,
      Pagination(totalVideos, VideosPerPage, PageCount(totalVideos), 1));
  }
}
