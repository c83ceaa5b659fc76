# multidownloader, modelled in Dafny

The `multidownloader` package downloads media from several sites. This
project models and verifies its dispatch-and-session core. That core is the
deterministic string, map and counter logic around the fetch libraries:

- **Source routing.** `SUPPORTED_SOURCES`, the ordered `ALIAS_MAP` table,
  `match_alias` and `detect_handler`.
- **Manifest loading.** The format choice of `load_manifest`,
  `normalize_url`, and the `_from_csv` and `_from_json` generators over
  input that is already parsed.
- **The batch dispatcher.** `execute_batch`: routing, then the global and
  per-source limits, the per-source options, the downloader call, and the
  sorting of each item into `completed`, `skipped` or `errors`.
- **The handler registry.** `Downloader`, with its `download` and
  `authenticate`.
- **The handler adapters' decision logic:**
  - `YtDlpHandler`: cookie-path resolution, option precedence and error
    wrapping;
  - Google Drive: id and kind extraction, method dispatch, and the
    authenticated retry;
  - Instagram: shortcode extraction, failure classification, the
    two-attempt retry, and restoring the working directory;
  - TikTok: the option merge and the two-attempt retry.
- **The session store.** `_sanitize` and the namespaced file store with
  its read, write, list and default-path helpers.

## Modules

One module per file:

- `wrappers.dfy`: `Option` and `Result`.
- `text.dfy`: ASCII character classes, `lower`, `strip`, `split`,
  substring containment, `os.path.join`, and the text of a POSIX
  `pathlib` path.
- `values.dfy`:
  - the Python values held in option dictionaries, with their truthiness;
  - `dict.update`;
  - parsed JSON documents;
  - exceptions, as a kind and a message.
- `search.dfy`: the leftmost-match search of the `[\w-]+` captures used by
  `re.search`.
- `retry.dfy`: `StopAt`, the attempt at which a bounded retry loop stops.
- `router.dfy`: `router_examples.dfy` holds the `detect_handler` cases of
  `tests/test_batch.py`.
- `manifest.dfy`.
- `batch.dfy`: `batch_examples.dfy` holds the two `execute_batch` cases of
  `tests/test_batch.py`.
- `core.dfy`.
- `yt_dlp_base.dfy`, `gdrive.dfy`, `instagram.dfy`, `tiktok.dfy`.
- `session_store.dfy`.

## What is imperative and what is pure

Code that changes state step by step is written as methods:

- `execute_batch`'s loop;
- `_build_opts`'s dictionary updates;
- the attempt loops of the Google Drive, Instagram and TikTok handlers;
- the session store's file writes.

Each method is proved equal to a specification function, and the
properties are lemmas about that function:

| Method | Specification function |
|---|---|
| `Batch.ExecuteBatch` | `Batch.Run` |
| `YtDlpBase.YtDlpHandler.BuildOpts` | `YtDlpBase.Opts` |
| `GDrive.Download` | `GDrive.Outcome` |
| the attempt loops | `Retry.StopAt` |
| `SessionStore.Store` methods | the functions over `SessionStore.Files` |

Instagram's working directory is a field of a `Process` object. The store
is a `Store` object whose `files` map and `dirs` set the methods update.

## Outside services

Fetch libraries and the batch's downloader are parameters: a function that
says, for each attempt or call, whether it raises and with what message:

- yt-dlp;
- gdown;
- PyDrive2;
- Instaloader;
- the batch's downloader.

Whether an optional import succeeded is a Boolean parameter. UTF-8 and
JSON encoding are the same kind of parameter: the `SessionStore.Codec`
datatype. Its soundness is a hypothesis of the round-trip lemmas: decoding
gives back what was encoded, and `json.load` gives back what `json.dump`
wrote, which holds no carriage return.

## Model

| member | source | states |
|---|---|---|
| Router.FirstAlias | multidownloader/batch.py:76-79 | Gives the index of the first alias rule, in table order, whose substring occurs in the value; no earlier rule's substring occurs. Gives none exactly when no rule's substring occurs. |
| Router.MatchAliasFirstMatch | multidownloader/batch.py:74-79 | `match_alias` gives none exactly when no alias substring occurs in the lower-cased value. Otherwise it gives the target of the first such rule in declaration order. |
| Router.MatchAliasAt | multidownloader/batch.py:76-78 | When rule k is the first rule contained in the lower-cased value, `match_alias` returns rule k's source. |
| Router.MatchAliasSupported | multidownloader/batch.py:15-49 | Every source `match_alias` can return is a non-empty member of `SUPPORTED_SOURCES`. |
| Router.DetectHandlerSpec | multidownloader/batch.py:64-71 | A matching hint decides, whatever the host says. Otherwise the URL's network location decides. The result is none exactly when neither matches, and every result is a supported source. |
| Router.NetlocOfAuthority | multidownloader/batch.py:66 | For `scheme://host` followed by nothing, or by a path, query or fragment, the network location is exactly `host`. |
| Router.Netloc | multidownloader/batch.py:66 | The network location never holds `/`, `?` or `#`. |
| RouterExamples.DetectTwitterStatus | tests/test_batch.py:27 | The hint `twitter` routes `https://twitter.com/example/status/1` to Twitter. |
| RouterExamples.DetectFxTwitterHost | tests/test_batch.py:28 | With an empty hint, the host `fxtwitter.com` routes to Twitter. |
| RouterExamples.DetectThreadsHint | tests/test_batch.py:29 | The hint `threads` routes to Threads. |
| RouterExamples.DetectYoutuBeHost | tests/test_batch.py:30 | With an empty hint, the host `youtu.be` routes to YouTube. |
| RouterExamples.DetectUnknown | tests/test_batch.py:31 | Neither the hint `unknown` nor the host `example.com` matches, so there is no handler. |
| RouterExamples.DetectTwitterHint | multidownloader/batch.py:66-70 | The hint `twitter` routes to Twitter for every URL: the hint is tried before the host. |
| RouterExamples.NetflixIsTwitter | multidownloader/batch.py:38 | Containment is plain substring search and the first rule wins. `netflix.com` contains `x.com`, so it routes to Twitter. |
| RouterExamples.DetectInstagramHint | tests/test_batch.py:45 | The first item of the limits test routes to Instagram. |
| RouterExamples.DetectFacebookHint | tests/test_batch.py:46 | The second item routes to Facebook. |
| RouterExamples.DetectRedditHint | tests/test_batch.py:47 | The third item routes to Reddit. |
| RouterExamples.DetectOther | tests/test_batch.py:48 | The `other` item routes nowhere. |
| Manifest.NormalizeUrl | multidownloader/batch.py:60-61 | The normalized URL has no whitespace at either end, and it is the piece of the input left after removing only whitespace before it and after it. |
| Text.StripAround | multidownloader/batch.py:61 | `str.strip()` leaves text that neither starts nor ends with whitespace, preceded and followed in the input by whitespace only. |
| Manifest.NormalizeIdempotent | multidownloader/batch.py:60-61 | Normalizing twice equals normalizing once. |
| Manifest.NormalizeKeeps | multidownloader/batch.py:60-61 | A URL with no whitespace at either end is unchanged. |
| Manifest.ManifestFormat | multidownloader/batch.py:83-85 | Refuses exactly the format names other than `json` and `csv`, with `ValueError('Unsupported manifest format: <name>')`. It chooses JSON exactly for `json`. |
| Manifest.ExplicitFormatWins | multidownloader/batch.py:83 | A non-empty explicit format decides alone; the file suffix plays no part. |
| Manifest.SuffixFormats | multidownloader/batch.py:83 | With no format or an empty one, the suffixes `.json` and `.csv` choose JSON and CSV. |
| Manifest.DottedSuffixName | multidownloader/batch.py:83 | With no explicit format, a suffix of one dot and a lower-case name gives that name. |
| Manifest.DottedFormatRefused | multidownloader/batch.py:83-85 | The explicit format is not stripped of dots, so `fmt='.json'` is refused with `ValueError`. |
| Manifest.JsonFormatChosen | multidownloader/batch.py:83-86 | `fmt='json'` chooses JSON whatever the suffix. |
| Manifest.NonBlankAppend | multidownloader/batch.py:120 | Filtering a concatenation is concatenating the filtered halves; a single string is kept exactly when it is non-empty. |
| Manifest.NonBlankSound | multidownloader/batch.py:120 | The `j`-th kept string is a non-empty input string, at a position before which exactly `j` strings were kept. |
| Manifest.NonBlankComplete | multidownloader/batch.py:120 | A non-empty string at position `k` is kept, at the index given by the number of strings kept before it. So order is kept and nothing is kept twice. |
| Manifest.CsvPiecesSound | multidownloader/batch.py:120 | The `j`-th piece is the strip of a part whose strip is non-empty, and exactly `j` pieces come from the parts before it. |
| Manifest.CsvPiecesComplete | multidownloader/batch.py:120 | A part whose strip is non-empty contributes that strip, at the index given by the number of pieces from the parts before it. |
| Manifest.ItemsOf | multidownloader/batch.py:121-122 | One item per piece, in order, each with the row's source and the normalized piece. |
| Manifest.RowItemsSound | multidownloader/batch.py:114-122 | The `j`-th item of a CSV row has the row's `source` (or `Source`) as hint. Its URL is non-empty, comma-free and already normalized. It is the strip of a comma-separated part of the items field before which exactly `j` parts gave items. |
| Manifest.FieldItemSource | multidownloader/batch.py:116-122 | For a non-empty items field, item `j` is the source with the strip of some part `k`, which is non-empty and comma-free, and exactly `j` items come from the parts before `k`. |
| Manifest.PieceShape | multidownloader/batch.py:120-122 | The strip of a comma-free part is comma-free and already normalized. |
| Manifest.RowItemsComplete | multidownloader/batch.py:115-122 | A row yields exactly one item per part whose strip is non-empty, in order. Part `k` becomes the item at the index given by the number of non-blank parts before it, with the row's source and the stripped part as URL. |
| Manifest.EmptyRowYieldsNothing | multidownloader/batch.py:116-118 | A row whose `items_comma_separated` and `items` cells are both empty or missing yields nothing. |
| Manifest.FromCsvAppend | multidownloader/batch.py:114-122 | The rows' items come row after row: the items of two blocks of rows are the first block's items, then the second's. |
| Manifest.ItemsByRowAppend | multidownloader/batch.py:114-122 | For any per-row item function, the items of two blocks of rows are the first block's items, then the second's. |
| Manifest.CharItems | multidownloader/batch.py:97-102 | A string value under a key is a sequence: it yields one item per character, in order. |
| Manifest.Truthies | multidownloader/batch.py:99-101 | The entries kept from a URL list are all truthy. |
| Manifest.UrlItemsOrder | multidownloader/batch.py:99-102 | A falsy list entry yields nothing. Each truthy entry yields exactly one item, in order: its `str`, normalized. |
| Manifest.UrlItemsKeepSource | multidownloader/batch.py:99-102 | Every item from a URL list carries the list's key as hint. |
| Manifest.GroupItemsKeepSource | multidownloader/batch.py:94-102 | Every item of an object member, whether a list, a string or a nested object with `items`, carries the member's key. |
| Manifest.FromObjectHints | multidownloader/batch.py:93-102 | Every item of a grouped object comes from some member and carries that member's key as hint. |
| Manifest.OneUrlGroup | multidownloader/batch.py:94-102 | A member listing one non-empty URL yields exactly one item. |
| Manifest.SingleUrlGroups | multidownloader/batch.py:93-102 | An object of two such members yields their two items, in member order. |
| Manifest.FromJson | multidownloader/batch.py:91-108 | The document is a value `json.loads` can build, so no object repeats a key. An object, an array or a string is accepted. Any other document is refused with `ValueError('JSON manifest must be an object or array')`. Every URL yielded is already normalized. |
| Manifest.LoadManifest | multidownloader/batch.py:82-88 | A refused format raises `ValueError` before anything is parsed. An accepted CSV manifest fails exactly when its file cannot be opened, decoded or read, and then with that error. A JSON document that cannot be read raises that error unchanged. Every loaded URL is already normalized. |
| Manifest.NormalizedAppend | multidownloader/batch.py:87-88 | Concatenating item lists whose URLs are normalized keeps them normalized. |
| Manifest.ItemsOfNormalized | multidownloader/batch.py:121-122 | The items of a row's pieces have normalized URLs. |
| Manifest.FromCsvNormalized | multidownloader/batch.py:111-122 | Every URL `_from_csv` yields is already normalized. |
| Manifest.UrlItemsNormalized | multidownloader/batch.py:99-102 | Every URL from a URL list is already normalized. |
| Manifest.GroupItemsNormalized | multidownloader/batch.py:94-102 | Every URL from an object member is already normalized, a string member's characters included. |
| Manifest.FromObjectNormalized | multidownloader/batch.py:93-102 | Every URL from a grouped object is already normalized. |
| Manifest.EntryItemsNormalized | multidownloader/batch.py:104-106 | The URL of an array entry with `url` is already normalized. |
| Manifest.FromArrayNormalized | multidownloader/batch.py:103-106 | Every URL from an array of entries is already normalized. |
| Manifest.GroupedObjectExample | tests/test_batch.py:33-41 | The test's grouped object loads as two items. The first has hint `twitter` and its URL unchanged. |
| Manifest.NormalizeExampleUrls | tests/test_batch.py:36-41 | The test's URLs are unchanged by normalization. |
| Batch.FateCases | multidownloader/batch.py:149-183 | An item is `unsupported` exactly when routing fails. It is `global-limit` exactly when it routes and the global limit is reached. It is `per-source-limit` exactly when neither holds and its source's count reached the per-source limit. Otherwise it is attempted under its source: it fails exactly when the downloader raises on a real run, recording the message. |
| Batch.Process | multidownloader/batch.py:150-183 | One iteration of the loop, with its early `continue`s, gives exactly the state of one `Step`. |
| Batch.ExecuteBatch | multidownloader/batch.py:125-190 | The returned `attempted`, `completed`, `skipped` and `errors`, and the downloader calls made, are those of the loop `Run` from the empty state, routing with `detect_handler`. |
| Batch.RunFates | multidownloader/batch.py:148-183 | The loop gives every item exactly one fate and keeps the fates before it. |
| Batch.RunCompleted | multidownloader/batch.py:148-183 | `completed` grows by the records of the items' fates, in input order. |
| Batch.RunSkipped | multidownloader/batch.py:148-183 | `skipped` grows by the records of the items' fates, in input order. |
| Batch.RunErrors | multidownloader/batch.py:148-183 | `errors` grows by the records of the items' fates, in input order. |
| Batch.RunCalls | multidownloader/batch.py:148-183 | The downloader calls are those of the items' fates, in input order. |
| Batch.OneRecordEach | multidownloader/batch.py:148-183 | The three lists hold exactly one record per item. |
| Batch.StepCounted | multidownloader/batch.py:163-164 | One iteration keeps the counters right. `attempted` is the number of completed plus failed items. Each source's count is the number of its completed and failed records, and only supported sources are counted. |
| Batch.StepWithinLimits | multidownloader/batch.py:154-164 | One iteration keeps `attempted` within the global limit and every source count within the per-source limit. A negative limit acts as zero. |
| Batch.StepCallsMatch | multidownloader/batch.py:167-183 | One iteration keeps three facts. There is one downloader call per attempted item, and none on a dry run. Each call names a supported source with that source's options. A dry run records no error. |
| Batch.RunConsistent | multidownloader/batch.py:148-183 | The whole loop preserves the counting, limit and call invariants. |
| Batch.RunAppend | multidownloader/batch.py:148-183 | Running two blocks of items one after the other is running their concatenation. |
| Batch.RunFateAt | multidownloader/batch.py:148-183 | Item `k`'s fate is decided by the loop's checks against the state the items before it left. |
| Batch.SourceListSpec | multidownloader/batch.py:15-24 | The listing of the supported sources names each of them, once. |
| Batch.CountsSumToAttempted | multidownloader/batch.py:158-164 | Under the counting invariant the per-source counts, summed over any listing of the supported sources that names each once, equal `attempted`. |
| Batch.BatchFates | multidownloader/batch.py:148-183 | A whole batch gives each item the fate the loop's checks give it against the state before it. |
| Batch.BatchRecords | multidownloader/batch.py:144-190 | A whole batch's `completed`, `skipped` and `errors` hold the records of the items' fates in input order, one per item. |
| Batch.BatchCounters | multidownloader/batch.py:142-164 | A whole batch keeps the counting, limit and call invariants, and its per-source counts add up to `attempted`. |
| Batch.BatchReport | multidownloader/batch.py:142-190 | The whole report. Item `k`'s fate is the loop's checks against the state the items before it left. There is one record per item, in input order, and `attempted = len(completed) + len(errors)`. Per-source counts equal the completed and failed records of that source, and summed over the supported sources they give `attempted`. The global and per-source limits bound the counts, a negative limit acting as zero. The downloader is called once per attempted item and never on a dry run: Instagram with `auth='auto'`, Google Drive with `{}`, the rest with `use_session=True`. A dry run records no error. |
| Batch.NothingAttemptedUnderZeroLimit | multidownloader/batch.py:150-156 | With a global limit of zero or less, nothing is attempted, counted or called. Every item is skipped in input order: as `unsupported` when it does not route, and as `global-limit` otherwise. |
| Batch.ZeroLimitRun | multidownloader/batch.py:150-156 | Under a global limit of zero or less, each item only appends its skip record; no counter changes. |
| Batch.DownloaderCompletesOnlyRegistered | multidownloader/batch.py:178-183 | With the package's own `Downloader`, a real run completes only Google Drive, Instagram and TikTok items. Every other attempted item is recorded as the error `Unknown source: <source>`. |
| BatchExamples.FirstThree | tests/test_batch.py:44-47 | The first three items of the limits test are each attempted and completed, with Instagram's `auth='auto'` and the others' `use_session=True`. |
| BatchExamples.LastThree | tests/test_batch.py:48-50 | The other item is skipped as unsupported. The first Twitter item is attempted. The second Twitter item hits the per-source limit. |
| BatchExamples.LimitsAndOptionsRouted | tests/test_batch.py:43-69 | With a per-source limit of one, the six items make four downloader calls and four attempts, with no errors. Instagram gets `auth='auto'` and Facebook `use_session=True`. The skipped items are the unsupported one and the second Twitter item. |
| BatchExamples.LimitsAndOptionsCase | tests/test_batch.py:43-69 | The same six-item run, routed with `detect_handler` itself. |
| BatchExamples.FailTokenRaises | tests/test_batch.py:14-22 | The test double raises `simulated failure` for the URL holding the `fail` token. |
| BatchExamples.RecordsErrorsRouted | tests/test_batch.py:71-77 | A download that raises is recorded as one error, attempted, and neither skipped nor completed. |
| BatchExamples.RecordsErrorsCase | tests/test_batch.py:71-77 | The same run, routed with `detect_handler` itself. |
| Core.Download | multidownloader/core.py:20-24 | Only a registered source can succeed. An unregistered one raises `ValueError('Unknown source: <name>')`. A registered source's handler exception is raised unchanged. |
| Core.Authenticate | multidownloader/core.py:26-37 | An unregistered source raises `ValueError('Unknown source: <name>')`. A registered source gives anything but `None` only when it is Instagram, and then it gives its interactive authentication's result. Any failure other than `ValueError` comes from Instagram. |
| Core.DelegatesToOwnHandler | multidownloader/core.py:23-24 | A download depends only on the named source's own handler's answer for the URL, the downloader's directory and the options. Handlers that agree there give the same result. |
| Core.RegisteredDelegates | multidownloader/core.py:23-24 | A registered source's result is its handler's answer for the downloader's directory and `options or {}`; `None` options reach it as `{}`. |
| Core.RegistryWithinSupported | multidownloader/core.py:14-18 | The registry is a subset of the supported sources. Exactly Threads, Twitter, Reddit, Facebook and YouTube are missing from it. |
| Core.UnregisteredSourcesFail | multidownloader/core.py:21-22 | A supported but unregistered source always fails with `Unknown source`, whatever the handlers would do. |
| Core.NoOptionsIsEmptyOptions | multidownloader/core.py:24 | Missing options and empty options reach the handler alike. |
| Core.AuthenticateWithoutDialog | multidownloader/core.py:33-37 | Google Drive and TikTok always authenticate to `None`. |
| Values.DictUpdate | multidownloader/sources/yt_dlp_base.py:86 | Over the modelled values, `dict.update` succeeds exactly for a dictionary or an empty string. On success the keys are the union and the argument's values win. |
| Retry.StopAt | multidownloader/sources/tiktok.py:25-36 | The stopping attempt of a bounded retry loop lies within bounds. Every earlier attempt failed with a retried failure. Unless it is the last attempt, the stopping attempt succeeded or failed finally. |
| Retry.StopAtUnique | multidownloader/sources/tiktok.py:25-36 | Those three conditions determine the stopping attempt uniquely. |
| Retry.TwoAttempts | multidownloader/sources/tiktok.py:25-31 | With two attempts and no final failure, the loop stops at 1 when the first attempt succeeds, and at 2 otherwise. |
| Search.CaptureSpec | multidownloader/sources/gdrive.py:21 | A capture exists exactly when some alternative occurs somewhere. It is a non-empty maximal run of `[A-Za-z0-9_-]` just after the leftmost occurrence, and the alternative there is the first in order that hits. |
| Search.CaptureContained | multidownloader/sources/instagram.py:122-125 | A captured group is a substring of the searched text. |
| TikTok.TikTokOpts | multidownloader/sources/tiktok.py:21-23 | The options are `outtmpl = join(out_dir, '%(title)s.%(ext)s')` updated with the caller's `ytdlp_opts`, whose keys win. A `ytdlp_opts` that `dict.update` refuses is an error. |
| TikTok.Download | multidownloader/sources/tiktok.py:16-36 | Without yt-dlp it raises `RuntimeError('yt-dlp not available')` and makes no call. Otherwise it sends the merged options, then stops at the first success or after the second failure. It returns `True` on success or raises `RuntimeError('yt-dlp failed: <last error>')`. |
| TikTok.CallsAtMostTwo | multidownloader/sources/tiktok.py:25-31 | At most two attempts are made, and a second one exactly when the first fails. |
| TikTok.DefaultOptions | multidownloader/sources/tiktok.py:21-22 | Without `ytdlp_opts` the options are the output template alone. |
| TikTok.NoneOptionsRefused | multidownloader/sources/tiktok.py:22-23 | `ytdlp_opts=None` raises `TypeError` ("'NoneType' object is not iterable"). |
| YtDlpBase.CookieChoice | multidownloader/sources/yt_dlp_base.py:96-109 | A non-empty string `cookiefile`, or else `cookie_path`, is the path given, whatever `use_session` says. Otherwise, whenever there is a choice, it is the namespace's `cookies.txt`. It is none exactly when there is no such override and `use_session` is present and falsy. |
| YtDlpBase.CookieText | multidownloader/sources/yt_dlp_base.py:82-83 | `str(cookie_path)` exists exactly when a path was chosen. A given path is normalized as `str(Path(p))` does on POSIX, and is never empty; a clean relative path is kept as it is. A session path ends in its file name. |
| YtDlpBase.Defaults | multidownloader/sources/yt_dlp_base.py:73-80 | The starting dictionary holds `quiet` and `no_warnings`, which verbosity relies on. |
| YtDlpBase.DefaultValues | multidownloader/sources/yt_dlp_base.py:73-80 | The defaults: `outtmpl = join(out_dir, template)`, `noplaylist`, `quiet` and `no_warnings` true, `retries` and `concurrent_fragment_downloads` 2, and no `cookiefile`. |
| YtDlpBase.BaseOpts | multidownloader/sources/yt_dlp_base.py:73-83 | The base keys are the defaults, plus `cookiefile` exactly when there is a cookie path. |
| YtDlpBase.CookieEntry | multidownloader/sources/yt_dlp_base.py:82-83 | `cookiefile` is set exactly when there is a cookie path, and to its text. |
| YtDlpBase.Opts | multidownloader/sources/yt_dlp_base.py:72-94 | `_build_opts` fails exactly when `ytdlp_opts` is truthy but not a dictionary, with `dict.update`'s error. Otherwise its keys are the base, caller and hook keys together. |
| YtDlpBase.StepsGiveLayers | multidownloader/sources/yt_dlp_base.py:85-92 | Updating with the caller's options, then the hook's, then forcing verbosity gives each key its precedence value. |
| YtDlpBase.BaseValueKept | multidownloader/sources/yt_dlp_base.py:73-87 | A key nobody overrides keeps its base value. |
| YtDlpBase.OverridePrecedence | multidownloader/sources/yt_dlp_base.py:85-87 | The hook's `extra_yt_opts` values override the caller's `ytdlp_opts`, which override the base. |
| YtDlpBase.VerboseWins | multidownloader/sources/yt_dlp_base.py:89-92 | A truthy `verbose` makes `quiet` and `no_warnings` false, whatever the caller or the hook asked. |
| YtDlpBase.PlainOptions | multidownloader/sources/yt_dlp_base.py:72-94 | With no overrides the options are exactly the base options. |
| YtDlpBase.SessionCookiesByDefault | multidownloader/sources/yt_dlp_base.py:103-109 | With no cookie options at all, the namespace's `cookies.txt` is used. |
| YtDlpBase.Finish | multidownloader/sources/yt_dlp_base.py:56-69 | Success gives `True`, and only when nothing was raised. A failure is never a `DownloadError` and ends with the original message. A `DownloadError` becomes a `RuntimeError` beginning `yt-dlp failed for <source>: `. Any other exception passes unchanged. |
| YtDlpBase.FinishWrapped | multidownloader/sources/yt_dlp_base.py:66-67 | A `DownloadError` with message `m` becomes exactly `RuntimeError('yt-dlp failed for <source>: m')`. |
| YtDlpBase.GivenCookieNormalized | multidownloader/sources/yt_dlp_base.py:97-101 | A given cookie path is passed normalized: for every clean relative path `n`, `./n` is passed as `n`; for every two plain names, `a//b` is passed as `a/b`. |
| Text.PathStrClean | multidownloader/sources/yt_dlp_base.py:99 | pathlib leaves a relative path whose every `/`-separated piece is a plain name unchanged. |
| Text.PathStrNonEmpty | multidownloader/sources/yt_dlp_base.py:99 | The text of a path is never empty. |
| Text.PathStrEmpty | multidownloader/sources/yt_dlp_base.py:99 | The empty path is `.`. |
| Text.PathStrDot | multidownloader/sources/yt_dlp_base.py:99 | For every clean relative path `n` (no empty or `.` component, no leading `/`), `str(Path('./' + n))` is `n`. |
| Text.PathStrDoubled | multidownloader/sources/yt_dlp_base.py:99 | For every two plain names `a`, `b` (non-empty, no `/`, not `.`), `a//b` becomes `a/b`. |
| Text.PathStrTrailing | multidownloader/sources/yt_dlp_base.py:99 | For every plain name `d`, a trailing `/` disappears: `d/` becomes `d`. |
| Text.PathStrTwoSlashes | multidownloader/sources/yt_dlp_base.py:99 | For every plain name `n`, exactly two leading slashes are kept: `//n` stays `//n`. |
| Text.PathStrThreeSlashes | multidownloader/sources/yt_dlp_base.py:99 | For every plain name `n`, three leading slashes become one: `///n` becomes `/n`. |
| YtDlpBase.YtDlpHandler.constructor | multidownloader/sources/yt_dlp_base.py:32-36 | The template is the given one, or `'%(title)s [%(id)s].%(ext)s'` when none or an empty one is given. The source's namespace directory is created and no file changes. |
| YtDlpBase.YtDlpHandler.ResolveCookiePath | multidownloader/sources/yt_dlp_base.py:96-109 | Returns the cookie choice. It creates the namespace directory only when the choice is the session file, and changes no file. |
| YtDlpBase.YtDlpHandler.BuildOpts | multidownloader/sources/yt_dlp_base.py:72-94 | The step-by-step dictionary updates give exactly the layered options, or `dict.update`'s error. |
| YtDlpBase.YtDlpHandler.Download | multidownloader/sources/yt_dlp_base.py:44-69 | Without yt-dlp it raises `RuntimeError` and changes nothing. Otherwise it treats `None` options as `{}`, resolves the cookie, and builds the options. It sends them to yt-dlp and reports the outcome through `Finish`. A build error is raised before any call. |
| GDrive.CaptureIffHits | multidownloader/sources/gdrive.py:21-22 | A rule captures an id exactly when one of its alternatives occurs. |
| GDrive.UcRuleUnreachable | multidownloader/sources/gdrive.py:21-29 | The `uc?id=` search never decides. Every file id comes from the first rule and every folder id from the second. |
| GDrive.UcHitsFileRule | multidownloader/sources/gdrive.py:21-27 | An occurrence of `uc?id=` is an occurrence of `id=`. |
| GDrive.UcMissesWithFileRule | multidownloader/sources/gdrive.py:21-29 | Where the first rule finds nothing, the third rule finds nothing either. |
| GDrive.FolderviewHitsFileRule | multidownloader/sources/gdrive.py:21-24 | An occurrence of `folderview?id=` is an occurrence of `id=`. |
| GDrive.FolderviewIsFile | multidownloader/sources/gdrive.py:21-26 | A `folderview?id=X` link is classified as a file, not a folder. |
| GDrive.ParseDriveIdSpec | multidownloader/sources/gdrive.py:19-30 | The result is `(None, None)` exactly when none of the five alternatives occurs. Any id is a non-empty run of id characters. |
| GDrive.FileName | multidownloader/sources/gdrive.py:65 | The name is one of `title`, `originalFilename` and the id. A metadata name is used only when non-empty, and the title whenever it is. The name is empty only when all three are. |
| GDrive.IsPublic | multidownloader/sources/gdrive.py:46 | A missing method means public, and a string method is public exactly when it starts with `public`. Any other value raises `AttributeError`. |
| GDrive.Download | multidownloader/sources/gdrive.py:37-86 | `download`'s result, the request it makes and the number of content attempts are those of `Outcome`. |
| GDrive.DownloadParsed | multidownloader/sources/gdrive.py:41-86 | After parsing, the branches of `download` agree with `Outcome`. |
| GDrive.DownloadFile | multidownloader/sources/gdrive.py:45-77 | The file branch, with its attempt loop, agrees with `FileOutcome`. |
| GDrive.DownloadFolder | multidownloader/sources/gdrive.py:78-86 | The folder branch agrees with `FolderOutcome`. |
| GDrive.RefusedUrls | multidownloader/sources/gdrive.py:38-43 | An empty or non-string URL, or one with no id, raises `ValueError` before any request. |
| GDrive.PublicDispatch | multidownloader/sources/gdrive.py:45-58 | A file takes the gdown path exactly when the method is missing or a string starting with `public`. It takes the PyDrive2 path exactly when the method is another string. |
| GDrive.AuthenticatedAttempts | multidownloader/sources/gdrive.py:59-77 | The authenticated path calls `GetContentFile` once or twice: twice exactly when the first call fails. It returns the file name on the first success and raises `RuntimeError('Authenticated download failed: <last error>')` after the second failure. |
| GDrive.FolderRequestUrl | multidownloader/sources/gdrive.py:78-83 | A folder is fetched from `https://drive.google.com/drive/folders/<id>` into the output directory. |
| Instagram.ClientChoice | multidownloader/sources/instagram.py:116-118 | The client is a truthy `instaloader_client`, or else `instaloader` when not `None`, or else a fresh client. |
| Instagram.ClientChoiceIgnoresAuth | multidownloader/sources/instagram.py:114-118 | No client options means a fresh client. The `auth` option plays no part in the choice. |
| Instagram.ShortcodeSpec | multidownloader/sources/instagram.py:121-125 | A shortcode exists exactly when one of the post, reel and tv forms, whose `.` matches any character, occurs in the URL before its query. It is a non-empty run of id characters found there. |
| Instagram.QueryIgnored | multidownloader/sources/instagram.py:121 | Adding a query to a URL does not change its shortcode. |
| Instagram.Finish | multidownloader/sources/instagram.py:136-149 | A success gives `True`, and only when no attempt raised last. Every failure is a `RuntimeError` that ends with the original message. It opens with the blocked-access advice exactly when the message looks blocked, and otherwise with `Failed to download Instagram post <shortcode>: `. |
| Instagram.RetriesExhausted | multidownloader/sources/instagram.py:145-149 | A failure that does not look blocked and is left after the last attempt raises exactly `Failed to download Instagram post <shortcode>: <message>`. |
| Instagram.AttemptBound | multidownloader/sources/instagram.py:130-147 | One or two attempts are made: two exactly when the first fails with a message that does not look blocked. |
| Instagram.BlockedEndsAtOnce | multidownloader/sources/instagram.py:141-144 | A failure mentioning `400`, `login` or `authentication` ends the download at the first attempt with exactly the blocked-access error. |
| Instagram.FetchPost | multidownloader/sources/instagram.py:126-151 | The working directory is restored on every exit, and every attempt runs in the output directory. The attempt count is the retry loop's stopping point, and the result is `Finish` of that attempt's outcome there. |
| Instagram.Download | multidownloader/sources/instagram.py:111-151 | Without Instaloader it raises `RuntimeError` before anything else. With no shortcode it raises `ValueError('Invalid Instagram link')` before any attempt. Otherwise the attempts run with the working directory set to the output directory, and their outcomes there decide the result. The working directory is restored on every path. |
| Instagram.Process.constructor | multidownloader/sources/instagram.py:126 | The process starts in the given working directory. |
| Instagram.Process.ChangeDir | multidownloader/sources/instagram.py:128 | `os.chdir` sets the working directory. |
| SessionStore.SanitizeShape | multidownloader/session_store.py:17-20 | A namespace is never empty and holds only lower-case ASCII letters, digits and `_`. It neither starts nor ends with `_`. |
| SessionStore.CleanedChars | multidownloader/session_store.py:18-19 | Stripping mapped text keeps only namespace characters. |
| SessionStore.DefaultNamespace | multidownloader/session_store.py:19 | The fallback `default` is a valid namespace. |
| SessionStore.SanitizeNoAlnum | multidownloader/session_store.py:17-20 | A name with no letter or digit sanitizes to `default`. |
| SessionStore.SanitizeKeepsAlnum | multidownloader/session_store.py:17-20 | A name with a letter or digit sanitizes to its mapped text with the underscores at both ends stripped. There is no fallback, and the result is a piece of the mapped text. |
| SessionStore.TrimDropsOnlyDropped | multidownloader/session_store.py:19 | Stripping never empties text that holds a character outside the stripped set. |
| SessionStore.MapSanitizeFixes | multidownloader/session_store.py:18 | The character map leaves namespace text unchanged. |
| SessionStore.SanitizeIdempotent | multidownloader/session_store.py:17-20 | Sanitizing twice equals sanitizing once. |
| SessionStore.SanitizeGoogleDrive | multidownloader/session_store.py:18-19 | `Google Drive` gives `google_drive`. |
| SessionStore.SanitizeDashes | multidownloader/session_store.py:18-19 | Inner runs are not collapsed: `a--b` gives `a__b`. |
| SessionStore.SharedNamespace | multidownloader/session_store.py:23-31 | Two (source, file) pairs name the same path exactly when the sources sanitize alike and the file names agree. |
| SessionStore.Write | multidownloader/session_store.py:45-72 | Opening for writing fails with `OSError` exactly on a directory or a locked file. Otherwise the path holds exactly the new bytes and every other path is unchanged. |
| SessionStore.ReadAfterWriteText | multidownloader/session_store.py:59-72 | Text written with `write_text` reads back with `\r\n` and lone `\r` turned into `\n`. So text without a carriage return reads back unchanged. |
| SessionStore.ReadAfterWriteJson | multidownloader/session_store.py:34-49 | A well-formed JSON value written with `write_json` reads back unchanged, because `json.dump` writes no carriage return. |
| SessionStore.LoadAfterWrite | multidownloader/session_store.py:52-56 | Bytes written with `write_binary` load back unchanged through `load_default_session`. |
| SessionStore.WriteFrame | multidownloader/session_store.py:45-72 | A write leaves what every other path reads and loads as it was. |
| SessionStore.ReadsSwallowErrors | multidownloader/session_store.py:34-66 | `read_text` and `read_json` give `None` rather than raise, whatever sits at the path. Text is read only from a readable file whose bytes decode, with newlines translated, and JSON only where text was read. |
| SessionStore.LoadBytesOutcomes | multidownloader/session_store.py:96-100 | `load_default_session` gives `None` exactly for a missing path, and the bytes of a readable file. It raises `OSError` exactly where reading is refused. |
| SessionStore.UniversalPlain | multidownloader/session_store.py:64 | Text-mode reading leaves text without a carriage return unchanged. |
| SessionStore.UniversalNoReturn | multidownloader/session_store.py:64 | No carriage return survives text-mode reading, so translating twice changes nothing more. |
| SessionStore.UniversalExamples | multidownloader/session_store.py:64 | `a\r\nb` and `a\rb` both read as `a\nb`, and `\n\r` reads as two line ends. |
| SessionStore.ListingOutsideDirs | multidownloader/session_store.py:75-84 | Where every entry lives in an existing namespace directory, a namespace without a directory lists nothing. |
| SessionStore.ListingSpec | multidownloader/session_store.py:75-84 | A name is listed exactly when a regular file of that name is in the namespace and the suffix, when one is given, ends it. It is listed with its path. |
| SessionStore.Store.constructor | multidownloader/session_store.py:13-14 | The store holds the directories and entries found on disk, every entry inside an existing namespace directory. |
| SessionStore.Store.EnsureSessionDir | multidownloader/session_store.py:23-26 | Returns the sanitized namespace, which now exists. No file changes. |
| SessionStore.Store.PathFor | multidownloader/session_store.py:29-31 | Returns the file in the source's namespace, creating the namespace. No file changes. |
| SessionStore.Store.ReadJson | multidownloader/session_store.py:34-42 | Returns `read_json`'s result and changes no file. |
| SessionStore.Store.Put | multidownloader/session_store.py:47-48 | Stores the bytes at the path and returns it, or, when the path cannot be opened for writing, returns the error and leaves the files as they were. |
| SessionStore.Store.WriteJson | multidownloader/session_store.py:45-49 | Stores the JSON text's bytes at the source's path and returns the path, or raises `OSError` with no file changed. |
| SessionStore.Store.WriteBinary | multidownloader/session_store.py:52-56 | Stores the bytes at the source's path and returns the path, or raises `OSError` with no file changed. |
| SessionStore.Store.ReadText | multidownloader/session_store.py:59-66 | Returns `read_text`'s result and changes no file. |
| SessionStore.Store.WriteText | multidownloader/session_store.py:69-72 | Stores the text's UTF-8 bytes at the source's path and returns the path, or raises `OSError` with no file changed. |
| SessionStore.Store.ListFiles | multidownloader/session_store.py:75-84 | Returns the listing of the source's namespace and changes no file. A namespace whose directory was only now created lists nothing. |
| SessionStore.Store.DefaultCookiePath | multidownloader/session_store.py:87-89 | Returns `cookies.txt` in the source's namespace. |
| SessionStore.Store.DefaultMetadataPath | multidownloader/session_store.py:92-93 | Returns `meta.json` in the source's namespace. |
| SessionStore.Store.LoadDefaultSession | multidownloader/session_store.py:96-100 | Returns `None` for a missing file and the bytes of a file. For an unreadable one it returns the read error, uncaught. |
| SessionStore.Store.WriteDefaultSession | multidownloader/session_store.py:103-104 | `write_binary` under `session.bin` or the given name. |

## Left out

- **URL parsing.** `urlparse` is modelled only as far as the network
  location.
  - The scheme is the text before the first `:` when it is a valid scheme.
  - The network location is the text after a leading `//`, up to the next
    `/`, `?` or `#`.
  - `urlsplit` first removes every tab, carriage return and line feed
    from the URL and strips leading control characters and spaces; the
    model does not. The network location keeps its case, as in Python.
    IPv6 brackets and the validation errors are not modelled.
- **Unicode.** `str.lower`, `str.isalnum`, `str.strip` and the regex `\w`
  are modelled on ASCII. Non-ASCII letters and digits, and Unicode
  whitespace beyond the ASCII control and space characters, behave
  differently in Python.
- **Parsing input files.** Reading and parsing a manifest is not modelled
  (`Path.read_text`, `csv.DictReader`, `json.loads`).
  - The parsed input is given: the CSV rows or the error raised while
    opening, decoding or reading the file (`FileNotFoundError`,
    `UnicodeDecodeError`, `csv.Error`), and the JSON document or its read or
    parse error. An error raised part-way through the rows is the same as
    one raised at once, because `list(...)` keeps none of the items.
  - JSON numbers are integers. Floats are not modelled.
  - `json.loads` keeps the last value of a repeated key. The document
    given is the dictionary it builds, so `Manifest.FromJson` and
    `Manifest.LoadManifest` require a well-formed document, with no key
    repeated in any object.
  - `str()` of a nested JSON list or object is a parameter.
- **The path suffix.** `Path.suffix` is given as a string, and paths are
  strings joined with `os.path.join`'s rule for relative parts.
- **Path text.** `str(Path(p))` is modelled as POSIX pathlib does it
  (`Text.PathStr`). Windows paths are not modelled. The session root is
  taken to be in normal form already, as `Path.resolve` leaves it, so a
  session cookie path is the plain join.
- **Session file names.** The store treats a file name as one plain
  component of a namespace directory. Python's `path_for(source, '')`
  names the directory itself, `'..'` leaves it, and a name such as
  `'sub/x'` needs a subdirectory that nothing creates; those cases are not
  modelled.
- **Failing `mkdir`.** `mkdir(parents=True, exist_ok=True)` of a namespace
  directory (session_store.py:25) raises `FileExistsError` when a plain file
  has the namespace's name, and `PermissionError` when the root cannot be
  written. The error would pass through `path_for`, every store function
  and `YtDlpHandler.__init__`. In the model `Store.EnsureSessionDir` cannot
  fail, and neither can the `mkdir` of a cookie path's parent in
  `_resolve_cookie_path`.
- Values.DictUpdate: the model's `Value` has no list or tuple, so an
  iterable of key/value pairs, such as `ytdlp_opts=[('format', 'best')]`,
  which `dict.update` accepts, cannot be passed, and neither can an empty
  list, which is falsy. An object is taken to be non-iterable.
- **Filesystem details.**
  - `execute_batch`'s `out_dir.mkdir`, the handlers' `os.makedirs(out_dir)`,
    and `mkdir` of a cookie path's parent directory outside the session
    store.
  - The session root's location next to the package.
  - `Path.resolve`.
  - The order `iterdir` lists files in. The listing is a map.
  - Partial writes.
- **OS error messages.** The exact messages of OS errors are stand-ins:
  only their kind `OSError` is modelled. A file that cannot be opened is a
  `Locked` entry.
- **Logging.** It is dropped everywhere.
- **Sleeping.** Instagram's `time.sleep(1)` between attempts is dropped.
- **The default downloader.** `execute_batch` creates a default
  `Downloader` when none is passed. The model takes the downloader as a
  `Fetch` function instead. The package's own downloader is
  `Batch.DownloaderFetch`, over `Core.Download`.
- **Handler constructors.** The handlers' constructors, and the
  `Downloader` constructor's handler objects, are not modelled. What a
  registered handler does is a parameter of `Core.Download`; the handlers
  are modelled in their own modules.
- **Interactive authentication.** `InstagramHandler.interactive_auth` (Tk
  dialogs, Instaloader login and two-factor prompts) is a parameter of
  `Core.Authenticate`: its result.
- **The yt-dlp subclasses.** The one-line subclasses of `YtDlpHandler` (the
  Twitter, Facebook, YouTube, Reddit and Threads handlers) are not modelled.
  Their `extra_yt_opts` hook is a constructor parameter.
- **Cookie saving.** Saving cookies after a yt-dlp download is left out.
  It is best effort, and its failure is only logged.
- **Google Drive authentication.** Authenticating with Google Drive is
  folded into one result: the `metadata` field of `GDrive.Libraries`. That
  result covers `GoogleAuth`, `LocalWebserverAuth`, `CreateFile` and
  `FetchMetadata`, and is either the file's metadata or the exception
  raised.
- **Instagram process state.**
  - `Instaloader()` construction cannot fail in the model.
  - `os.chdir` cannot fail in the model.
  - Fetching and downloading the post is one outcome per attempt, given
    as a function of the working directory and the attempt number. The
    client and the shortcode are fixed for the call.
- **Instagram's `auth` option.** It is read but unused, and the model
  ignores it. `Instagram.ClientChoiceIgnoresAuth` states this.
- **Routing in the lemmas.** In the lemmas about the batch loop, the
  routing function is a parameter. `Batch.ExecuteBatch` fixes it to
  `detect_handler`, with `Batch.Route`.
- **The command line and UIs.** The CLI (`build_arg_parser`, `main`) and
  both Tk UIs are not part of this model, and neither is
  `portable_manager`.
- **Encoding.** UTF-8 and JSON encoding in the session store are the
  `Codec` parameter. The round trips hold for a sound codec: one that
  decodes what it encoded, and whose `json.dump` output holds no carriage
  return and parses back. `json.dump(indent=2)` is not modelled beyond
  that. Text mode's newline translation on reading is modelled
  (`SessionStore.Universal`). Writing is modelled as on POSIX, which
  stores `\n` as is; Windows would write `\r\n`. A text with a lone
  surrogate, which Python refuses to encode, cannot be a Dafny string.
