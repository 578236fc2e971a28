# Teluguvoice catalogue core in Dafny

Teluguvoice is a website for three Telugu YouTube channels. This project models its core:

- `getYoutubeData` turns a channel handle into a catalogue of videos. It checks the API key and looks the handle up in a table of three channels. It then finds the channel's uploads playlist and walks that playlist page by page, mapping each item to a video record. Last, it sorts the videos newest first, groups them by category and then by year and month, and builds the first page of 12 together with the page count.
- The cache countdown (`CacheTimer`) shows the seconds left in the 300-second cache window as `m:ss`.
- The contact widget (`ContactButton`) has an About panel and a Contact panel, at most one open at a time, plus a three-field form.
- The landing page's `formatNumber` shows counts as `1.2M`, `3.4K` or as they are.

Modules:

- `Optional`: the `Option` type.
- `Decimal`: integer-to-decimal rendering and its parser.
- `Grouping`: `reduce`-style grouping into buckets keyed by strings, in first-seen order.
- `Playlist`: the item mapping and the page walk.
- `YouTube`: the handle table, the sort, the two groupings, pagination and the whole operation.
- `CacheTimer`, `ContactButton`, `HomePage`: the three components above.

Inputs stand in for everything external:

- Network answers: whether an API key is configured, the `channels.list` answer, and the sequence of `playlistItems.list` answers in request order. A call that throws is a `Threw(message)` answer.
- Dates: the host's `Date` is a `DateReader` giving the long month name, the full year and the instant of a `publishedAt` string.
- Clock: the current time is a parameter.

React state is modelled as classes whose fields the handlers update.

## Model

| member | source | states |
|---|---|---|
| YouTube.GetYoutubeData | src/lib/youtube.ts:3-178 | The handle check is the property read as written, so inherited `Object.prototype` names pass it as the table handles do. Each failure gives its own result: no API key (exactly when the key is missing), "Invalid channel handle", the channel call's error message, "Channel not found", "No uploads playlist found", or the error message of a page call. A catalogue is returned exactly when every step succeeds. It holds a permutation of the collected videos, newest first, grouped by category, each category grouped by year and month, the first 12 videos, and pagination `(n, 12, ceil(n/12), 1)`. |
| YouTube.ResolveHandle | src/lib/youtube.ts:18-30 | A handle resolves exactly when it is one of the three known handles, and then to a non-empty channel id. |
| YouTube.InheritedMemberPassesHandleCheck | src/lib/youtube.ts:25-30 | The lookup as written returns an inherited `Object.prototype` member for the handle "toString", and that member passes the `!channelId` guard, although the handle is no channel. |
| YouTube.HandleCheckAsWritten | src/lib/youtube.ts:18-30 | The lookup as written gives each table handle its own id, as the corrected lookup does. Its guard lets through exactly the table handles and the inherited `Object.prototype` names. |
| YouTube.ErrorMessage | src/lib/youtube.ts:170-176 | The error reported is never empty. It is the thrown message whenever that message is non-empty, and "Failed to fetch YouTube data" when the message is empty. |
| Playlist.CollectUploads | src/lib/youtube.ts:57-102 | The walk stops at the first answer that threw or has no next-page token. If that answer threw, the result is its message. Otherwise the result is the mapped items of every page read, page after page. |
| Playlist.FirstStop | src/lib/youtube.ts:101-102 | The index where the do-while loop ends: that answer stops the walk and no earlier one does. |
| Playlist.UploadsLength | src/lib/youtube.ts:72-98 | The collected list has exactly one video per playlist item over all pages read. |
| Playlist.UploadsAt | src/lib/youtube.ts:72-98 | The video at position `count(pages before p) + j` is the mapped `j`-th item of page `p`: concatenation keeps page order and in-page order. |
| Playlist.ToVideoSpec | src/lib/youtube.ts:74-97 | For one item: absent text fields become "". The thumbnail is the first non-empty of maxres, high and medium, or "". `isShort` holds exactly when the lower-cased title contains "short". Month and year come from the publication date. The URL carries the raw video id, which is "undefined" when absent. |
| Playlist.ToVideos | src/lib/youtube.ts:74-97 | Mapping a page's items gives exactly one video per item. |
| Playlist.FirstTruthy | src/lib/youtube.ts:88-90 | The value of a chain of logical ORs ending in `''`: "" exactly when no candidate is non-empty, and otherwise the first non-empty candidate. |
| Playlist.Lower | src/lib/youtube.ts:81-82 | Lower-casing keeps the length and lower-cases each character in place. |
| Playlist.ShortsTestSubsumed | src/lib/youtube.ts:81-82 | A title that contains "#shorts" also contains "short", so the first test of the short-form check never decides anything. |
| YouTube.SortNewestFirst | src/lib/youtube.ts:105 | After the in-place sort the array is in non-increasing order of publication instant and is a permutation of the input. |
| Grouping.GroupBy | src/lib/youtube.ts:108-114 | The buckets built by the `reduce` form a grouping. Keys appear in first-seen order, with no duplicates. Each key's bucket holds exactly the videos with that key, in input order. |
| Grouping.PushPreservesGrouping | src/lib/youtube.ts:109-112 | Creating a bucket when it is missing and then pushing onto it turns the grouping of a prefix into the grouping of the prefix extended by one element. |
| Grouping.KeysInOrderSpec | src/lib/youtube.ts:108-114 | The key order has no duplicates, and it holds a key exactly when some element has that key. |
| Grouping.FilterKeys | src/lib/youtube.ts:108-114 | Every element of a bucket has that bucket's key. |
| Grouping.InOwnBucket | src/lib/youtube.ts:108-114 | Every element is in the bucket of its own key and in no other bucket. |
| Grouping.BucketSizesSum | src/lib/youtube.ts:108-114 | The bucket sizes add up to the number of elements, so nothing is lost or duplicated. |
| Grouping.FilterKeepsOrder | src/lib/youtube.ts:105-114 | A bucket taken from a newest-first list is itself newest first. |
| YouTube.SingleCategory | src/lib/youtube.ts:108-114 | No video has a `category` field, so every key is "undefined". The category grouping is empty for no videos and otherwise is the single bucket "undefined" holding all videos. |
| YouTube.GroupByYearMonth | src/lib/youtube.ts:118-137 | The per-category `reduce` builds a calendar. Year keys are the rendered years in first-seen order. Each year group records its year and groups that year's videos by "Month Year", each month bucket in input order. |
| YouTube.RecordExtends | src/lib/youtube.ts:119-135 | One step of the year/month `reduce` turns the calendar of a prefix into the calendar of the prefix plus the next video. |
| YouTube.GroupCategories | src/lib/youtube.ts:117-139 | The outer `reduce` over the category keys builds one calendar per category, from exactly that category's videos, and no other keys. |
| YouTube.CalendarSizesSum | src/lib/youtube.ts:117-139 | The video counts over all years of a calendar add up to the number of videos it was built from. |
| YouTube.InOneMonth | src/lib/youtube.ts:117-139 | Every video is filed under its own year and month bucket and under no other. |
| YouTube.MonthBucketsKeepOrder | src/lib/youtube.ts:105-139 | Built from a newest-first list, every month bucket is newest first. |
| YouTube.PageCount | src/lib/youtube.ts:142-144 | `Math.ceil(total / 12)`: the fewest pages of 12 that hold every video. |
| YouTube.FirstPage | src/lib/youtube.ts:148 | The first page is a prefix of all videos, with 12 of them or all of them when there are fewer. |
| Decimal.IntToStringRoundTrip | src/lib/youtube.ts:119 | The decimal rendering of a year (or any integer) parses back to that integer. |
| CacheTimer.RemainingSeconds | src/components/CacheTimer.tsx:9-19 | The whole seconds left in the 300-second window. It is 0 exactly when at least 300000 ms have passed since the cache timestamp. Otherwise it is the `r` with the elapsed time in `[300-r, 300-r+1)` seconds. It never exceeds 300 for a past timestamp and is 300 when the endpoint fails. |
| CacheTimer.MinutesSeconds | src/components/CacheTimer.tsx:36-37 | Minutes and seconds recompose the total, with seconds below 60. |
| CacheTimer.TwoDigits | src/components/CacheTimer.tsx:42 | Zero-padding gives exactly two digits that read back as the seconds. |
| CacheTimer.Clock | src/components/CacheTimer.tsx:36-43 | The `m:ss` text parses back to the number of seconds. |
| CacheTimer.Countdown.constructor | src/components/CacheTimer.tsx:6 | The countdown starts at 0. |
| CacheTimer.Countdown.Refresh | src/components/CacheTimer.tsx:21 | A fetched timestamp sets the countdown to the remaining seconds. |
| CacheTimer.Countdown.Tick | src/components/CacheTimer.tsx:23-31 | A positive countdown goes down by one. At 0 it stays at 0 and asks for a new timestamp. It never goes negative. |
| CacheTimer.Countdown.Display | src/components/CacheTimer.tsx:36-43 | The rendered text parses back to the time left. |
| ContactButton.Panels.constructor | src/components/ContactButton.tsx:5-15 | Both panels start closed, with all fields empty. |
| ContactButton.Panels.ToggleAbout | src/components/ContactButton.tsx:57 | The About panel flips and the Contact panel closes. At most one panel is open; the form is unchanged. |
| ContactButton.Panels.ToggleContact | src/components/ContactButton.tsx:67 | The Contact panel flips and the About panel closes. At most one panel is open; the form is unchanged. |
| ContactButton.Panels.CloseAbout | src/components/ContactButton.tsx:96 | Only the About panel closes. |
| ContactButton.Panels.Cancel | src/components/ContactButton.tsx:146 | Both panels close and the form is kept. |
| ContactButton.Panels.ClickOutside | src/components/ContactButton.tsx:18-26 | With a panel mounted, a press outside it and outside the contact button closes both panels. Any other press changes nothing. Exclusivity is preserved. |
| ContactButton.Panels.Submit | src/components/ContactButton.tsx:35-52 | A resolved POST closes both panels and clears all fields. A rejected one changes nothing. |
| ContactButton.Panels.EditName | src/components/ContactButton.tsx:118 | Only the name field changes. |
| ContactButton.Panels.EditEmail | src/components/ContactButton.tsx:129 | Only the email field changes. |
| ContactButton.Panels.EditMessage | src/components/ContactButton.tsx:140 | Only the message field changes. |
| HomePage.FormatNumber | src/app/page.tsx:33-42 | The text ends in "M" exactly from a million on, and in "K" exactly from 1000 up to a million. Below 1000 it is the plain decimal, which parses back to the number. |
| HomePage.ScaledValue | src/app/page.tsx:35-40 | From 1000 on, the text before the suffix reads back as the count in millions or thousands, rounded to the nearest tenth. |
| HomePage.Tenths | src/app/page.tsx:36 | The one-decimal rounding gives the nearest tenth of `n / unit`, with a tie going up. |
| HomePage.FixedOneRoundTrip | src/app/page.tsx:36 | A one-decimal rendering reads back as its count of tenths. |

## Left out

- Network calls are inputs: the `googleapis` client, `channels.list` and `playlistItems.list` (with their `part`, `maxResults` and revalidation options). A call that rejects is an answer carrying the error's message.
- The raw `fetch` of the channel endpoint (src/lib/youtube.ts:33) is left out. Its response is never read, and its failures are not distinguished from the other calls' failures.
- `console.log` and `console.error` are left out.
- The `communityPosts: []` field of the error result is left out.
- The exact shape of the not-configured result is reduced to the `NotConfigured` case.
- Date handling is taken as given through `DateReader`: `new Date(...)`, the locale's month name, `getFullYear` and `getTime`, including invalid dates and `NaN` years or instants.
- YouTube.SortNewestFirst: the sort is an insertion sort that states sortedness and permutation. It does not state stability. The comparator's `NaN` results for unparsable dates are not modelled, since every instant is an integer.
- Playlist.Lower: only ASCII letters are lower-cased. Unicode case mapping is not modelled.
- Playlist.ToVideoSpec: `isShort` is `undefined` in the source when the title is absent. The model uses `false`, which is equally falsy.
- Playlist.CollectUploads: the page answers must contain a stopping answer (`HasStop`). YouTube.GetYoutubeData asks for this only when the walk is reached. An upstream that hands out tokens forever makes the source loop forever, which the model does not represent.
- YouTube.GroupByYearMonth: the key order is first-seen order. JavaScript enumerates integer-like keys such as years in ascending numeric order, so `Object.keys` on the year object lists years ascending. The model does not capture that enumeration order.
- `Number.prototype.toString` for huge or fractional numbers (exponent form) is not modelled. Years and counts are integers rendered in plain decimal.
- HomePage.FormatNumber: the argument is the integer `parseInt` produced. Parsing of the string argument and a `NaN` result are not modelled.
- HomePage.Tenths: `toFixed(1)` is computed exactly, with a tie going up. Binary floating-point rounding of `n / unit` at a tie is not modelled.
- CacheTimer: `setInterval`, `clearInterval`, the effect life cycle and the asynchronous `.then(setTimeLeft)` are not modelled. The tick is a method, a refetch is reported by its result, and a refresh is a separate method. The `/api/cache-timestamp` answer and `Date.now()` are inputs. A JSON body without a numeric `timestamp` is not modelled.
- ContactButton: rendering, DOM containment tests, `alert` and the POST itself are not modelled. The containment tests are inputs. Any resolved fetch counts as delivered, whatever its status, as in the source. Stale closures over `isOpen` and `formData`, and React's batching of state updates, are not modelled.
- The cached data layer (`getChannelStats`, cache timestamps, the cron function), the page routes and the API routes are not part of this model.

## Findings

| source | as written | input that shows it | evidently intended | confidence | as-written member | corrected member |
|---|---|---|---|---|---|---|
| src/lib/youtube.ts:18-30 | `channelMap[channelHandle]` is a property read on a plain object literal, so it also finds members inherited from `Object.prototype`, and those are truthy | handle `"toString"` passes the `!channelId` guard and goes on to the channel lookup with a function as the id | only the three handles in the table resolve, and every other handle gives "Invalid channel handle" | medium, not executed | YouTube.InheritedMemberPassesHandleCheck | YouTube.ResolveHandle |

`YouTube.GetYoutubeData` keeps the lookup as written, so the model returns what the code returns for every handle. `YouTube.HandleCheckAsWritten` states where the two lookups meet and where they part: they agree on the three table handles, and only the inherited names separate them.
