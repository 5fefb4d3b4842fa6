# Subscription sync engine, modelled in Dafny

This project models the core of the subscription engine in
`backend/subscriptions.js`. That engine follows channels and playlists on
video sites and keeps a local library of their uploads up to date. The model
covers the following parts:

- **Subscribing** (`subscribe` with `getSubscriptionInfo`):
  - the URL is recognised as a playlist;
  - a second subscription to the same URL without a name is refused;
  - the record is inserted;
  - the name is taken from the first info line that offers one, with
    ` - <id>` appended when another subscription of the same kind and user
    already has that name;
  - the metadata write throws when the subscription still has no name, or
    when its folder does not exist yet (`writeJSONSync` does not create it,
    and nothing on this path does before the first sync). Either throw
    leaves the returned promise pending (the `Hangs` result), with the
    inserted record stored and no first sync started.
- **The argument builder** (`generateArgsForSubscription`). It builds the
  extractor's command line:
  - the output template (an explicit path, else the custom output, else the
    configured default, else `%(title)s`);
  - the `-ciw`/`-ci` mode and the per-type quality selector;
  - the temporary archive file, when the snapshot is non-empty;
  - the custom `,,`-separated arguments, whose own `-f` replaces the builder's;
  - the date filter, the cookies, the thumbnail flag, the rate limit unless a
    rate flag is already present, and the yt-dlp flag;
  - the final deny-list filter.
- **The download options** (`generateOptionsForSubscriptionDownload`). These
  are handed to every download job.
- **The directory layout.** The per-user or global base path, and
  `getAppendedBasePath`, which gives `<base>/playlists/<name>` or
  `<base>/channels/<name>`.
- **A sync** (`getVideosForSub`, `getSubscription`, `handleOutputJSON`,
  `getFilesToDownload`):
  - the `downloading` flag, effectively also set while a queued download of
    the subscription runs, makes syncs mutually exclusive;
  - a subscription without a name takes the flag and then throws building its
    directory, before any poll (the `Threw` outcome), so the flag stays set;
  - otherwise the listing poll runs and its callback releases the flag,
    whether or not the poll succeeded;
  - the dedup filter (against the files table, pending downloads, file paths
    and the archive ledger) keeps the new items in poll order;
  - one download job is created per new item.
- **The fresh-upload reconciler** (`setFreshUploads`,
  `checkVideosForFreshUploads`, `checkVideoIfBetterExists`):
  - files uploaded today are marked fresh;
  - fresh files from earlier days are probed once, in redownload mode, for a
    better height (or audio bitrate);
  - the probed files then stop being fresh.
- **Listing** (`getAllSubscriptions`). In multi-user mode it lists the
  subscriptions that have a user, otherwise those that have none.

A subscription's name is an `Option<string>`: a record inserted without a
name has none until the first info poll supplies one. Only a named
subscription has a directory, since `path.join` throws on a missing segment,
so the members that build paths take the subset type `Named`. An empty name
is present and joins like any other.

Records are immutable values in a `Db` (subscriptions by id, files, the
download queue and the archive ledger), and every operation is a pure
function from a store to a store.

Some inputs stand in for reads of the environment:

- the configuration items;
- the archive snapshot text;
- whether the cookies file exists;
- whether the subscription's folder exists when `subscribe` writes its
  metadata;
- the clock (an ISO timestamp);
- the parsed output of the info and listing polls;
- what each fresh-upload probe reports.

The modules are:

- `Seqs`: `filter`, `indexOf`, `splice`, counting and subsequences.
- `Text`: `split`, `includes`, `replace(/-/g,'')` and string `<`.
- `Model`: the records.
- `Paths`: `path.join` and the directory layout.
- `Args`: the argument builder.
- `ArgsProperties`: what the builder's output contains.
- `DownloadOptions`: the download options.
- `Dedup`: `getFilesToDownload`.
- `Fresh`: the reconciler.
- `Sync`: one sync.
- `Subscribe`: subscribing and listing.

## Model

| member | source | states |
|---|---|---|
| Args.BuildArgs | backend/subscriptions.js:316-399 | The finished argument list never contains the deny-listed `--write-comments`, whatever the custom arguments ask for. |
| Args.BuildArgsSplit | backend/subscriptions.js:316-399 | The list is the six-entry head, then the surviving quality arguments, then the archive pair, then the filtered tail. The deny-list filter never touches the head. |
| Args.TailSplit | backend/subscriptions.js:359-396 | Within the tail, only the custom tokens, the date filter and the rate pair can lose entries to the filter. The cookies, thumbnail and downloader flags always survive. |
| Args.QualityArgs | backend/subscriptions.js:337-347 | Every quality selection starts with `-f` and its value, and has no second `-f`. |
| Args.ArchiveArgs | backend/subscriptions.js:350-357 | `--download-archive <dir>/archive.txt` is added exactly when the snapshot's newline-separated entry count is positive, that is, when it holds a newline. |
| Args.ApplyCustomLayout | backend/subscriptions.js:359-367 | Splicing at the first `-f` removes exactly the builder's quality flag and its value, and the custom tokens follow. |
| Args.FilterArgsMembers | backend/subscriptions.js:396 | The deny-list filter adds nothing and keeps the count of every token other than `--write-comments`. |
| ArgsProperties.TemplateShape | backend/subscriptions.js:326-333 | The quoted `-o` template has this priority: the explicit path, else `<dir>/<custom output>`, else `<dir>/<configured default>`, else `<dir>/%(title)s`. Each ends in `.%(ext)s`. |
| ArgsProperties.OutputTemplatePriority | backend/subscriptions.js:324-335 | Every list opens with `--dump-json -o <template>`. The template is built on the subscription's own directory. |
| ArgsProperties.ModeFlags | backend/subscriptions.js:335 | A listing poll uses `-ciw` and a redownload uses `-ci`. Both are followed by `--write-info-json --print-json`. |
| ArgsProperties.QualityPerCase | backend/subscriptions.js:337-347 | Without a custom `-f`, entries 6 onwards are as follows. Audio gets `-f bestaudio -x --audio-format mp3`. Video with no or `best` maximum quality gets the best mp4. Otherwise video gets the height-capped selector merged into mp4. |
| ArgsProperties.CustomQualityOverride | backend/subscriptions.js:359-367 | With a custom `-f`, the number of `-f` flags in the result equals the number in the custom tokens. The builder's own `-f` is gone. |
| ArgsProperties.CustomQualityKept | backend/subscriptions.js:337-367 | With a custom `-f`, the rest of the builder's quality arguments stay in place right after the head. |
| ArgsProperties.CustomPairSurvives | backend/subscriptions.js:359-367 | Two adjacent custom tokens stay adjacent in the result unless one is deny-listed. |
| ArgsProperties.TwoTokens | backend/subscriptions.js:360 | `x,,y` with no comma in either part splits into exactly `[x, y]`. |
| ArgsProperties.CustomSelectorExample | backend/subscriptions.js:359-367 | Custom arguments `-f,,bestvideo` leave exactly one `-f` in the list, immediately followed by `bestvideo`. |
| ArgsProperties.RedownloadHasNoDate | backend/subscriptions.js:369-371 | A redownload carries no `--dateafter` unless a custom token or the rate limit supplies it. |
| ArgsProperties.PollHasDate | backend/subscriptions.js:369-371 | A listing poll with a time range that is not itself `--write-comments` carries `--dateafter <timerange>` as an adjacent pair. |
| ArgsProperties.ArchiveFlagPresent | backend/subscriptions.js:350-357 | A snapshot with a newline puts `--download-archive <dir>/archive.txt` in the list as an adjacent pair. |
| ArgsProperties.ArchiveFlagAbsent | backend/subscriptions.js:350-357 | A snapshot with no newline puts no `--download-archive` in the list, unless the custom arguments, the time range or the rate limit supply one. |
| ArgsProperties.RateCheck | backend/subscriptions.js:386-387 | The rate check sees `-r` (or `--limit-rate`) before it exactly when the custom tokens carry one. |
| ArgsProperties.RateLimitFlag | backend/subscriptions.js:386-389 | The number of `-r` flags is the number in the custom tokens, plus one exactly when a limit is configured and no rate flag was present. |
| ArgsProperties.CookiesPresent | backend/subscriptions.js:373-377 | With cookies enabled and the file present, `--cookies appdata/cookies.txt` is in the list as an adjacent pair. |
| ArgsProperties.CookiesAbsent | backend/subscriptions.js:373-380 | Cookies disabled or the file missing means no `--cookies`, unless the custom arguments, time range or rate limit supply it. |
| ArgsProperties.ThumbnailAndDownloader | backend/subscriptions.js:382-394 | With thumbnails on, `--write-thumbnail` is in the list. For yt-dlp, `--no-clean-info-json` is the last argument. |
| ArgsProperties.ThumbnailAbsent | backend/subscriptions.js:382-384 | With thumbnails off, `--write-thumbnail` is not in the list, unless a custom token, the time range or the rate limit supplies it. |
| ArgsProperties.DownloaderFlagAbsent | backend/subscriptions.js:391-394 | With a downloader other than yt-dlp, `--no-clean-info-json` is not in the list, unless a custom token, the time range or the rate limit supplies it. |
| ArgsProperties.CustomArgsSurvive | backend/subscriptions.js:359-367 | Every custom token other than `--write-comments` occurs in the result at least as often as it occurs in the custom tokens. |
| Paths.Join | backend/subscriptions.js:232 | The joined path starts with the directory and ends with the name. |
| Paths.JoinInjective | backend/subscriptions.js:523-525 | Joining different names onto one directory never yields the same path. |
| Paths.BasePath | backend/subscriptions.js:230-234 | With a user, the base lies under the users' base path, contains the user id and ends in `subscriptions`. Without a user, it is the global subscriptions path. |
| Paths.AppendedBasePath | backend/subscriptions.js:523-525 | The directory lies under the base, passes through `playlists/` or `channels/` by kind, and ends with the subscription's name. |
| Paths.AppendedBasePathSeparates | backend/subscriptions.js:523-525 | Two subscriptions of one kind under one base share a directory exactly when their names are equal. |
| DownloadOptions.ArchiveDir | backend/subscriptions.js:309 | The archive path lies under the base path, passes through `archives` and ends with the subscription's name. |
| DownloadOptions.ArchiveDirApart | backend/subscriptions.js:307-309 | The archive path is never the subscription's download folder. |
| DownloadOptions.OptionsFor | backend/subscriptions.js:296-314 | The options carry the following: the height cap; a folder under the base path; the custom output, else the configured default, else `%(title)s`; the archive path, which differs from the folder; and the custom arguments. |
| DownloadOptions.OptionsAgreeWithArgs | backend/subscriptions.js:296-347 | The options' folder and output give the same stem as the builder's template for a listing poll. For video, a height cap is set exactly when the builder caps the height, at the same value. |
| Dedup.GetFilesToDownload | backend/subscriptions.js:401-420 | The loop returns exactly the accepted items, in poll order, as a subsequence. An item is accepted when it has no file with its page, no pending download, no file at its path and no archive key. Every accepted item is returned and nothing else. |
| Dedup.RejectionPersists | backend/subscriptions.js:401-420 | An item turned away stays turned away while files, queue entries and archive keys are only added. |
| Dedup.RepollFindsNothing | backend/subscriptions.js:401-420 | Once each accepted item has a pending download, the same poll output yields nothing new. |
| Sync.RunningCount | backend/subscriptions.js:437-438 | The count of running queue entries of the subscription is zero exactly when none is running. |
| Sync.GetSubscription | backend/subscriptions.js:433-440 | The lookup is absent exactly when the record is missing. Otherwise it returns the stored record with `downloading` true exactly when the stored flag is set or a queued download of the subscription is running. |
| Sync.SetDownloading | backend/subscriptions.js:458-461 | Only the `downloading` flag of that one record changes. |
| Sync.BeginSync | backend/subscriptions.js:222-227 | A sync is refused as `Missing` exactly when the store has no record with the id. It is refused as `Busy` exactly when the record's stored flag is set or a queue entry of the subscription is running. Otherwise it starts, and the store differs only in that record's flag, now set. |
| Sync.FreshPass | backend/subscriptions.js:274-277 | The fresh-upload pass changes nothing but files, and keeps their number. When the setting is off, it changes nothing and starts no probe. |
| Sync.FreshPassKeepsDedup | backend/subscriptions.js:274-284 | The fresh-upload pass does not change which polled items the dedup filter accepts. |
| Sync.SecondSyncRefused | backend/subscriptions.js:221-227 | While one sync holds the flag, another sync of the same subscription is refused as busy. It polls nothing and changes nothing. |
| Sync.SyncSub | backend/subscriptions.js:221-271 | As written. The sync is refused as missing or busy exactly as the guard decides, and then changes nothing. It throws exactly when it started on a subscription without a name, leaving the store with the flag set and no poll run. The poll fails exactly when a named subscription's poll output is missing. Every poll uses the builder's listing arguments. |
| Sync.FlagReleased | backend/subscriptions.js:221-271 | A sync that started ends with its flag cleared exactly when the subscription has a name, whether or not the poll succeeded. Every other subscription is unchanged. A refused sync changes nothing. |
| Sync.NamelessSyncSticks | backend/subscriptions.js:221-236 | As written, a sync that starts on a nameless subscription throws with the flag set. Every later sync of that record is then refused as busy and changes nothing, so the flag is never cleared. |
| Sync.SyncSubReleasing | backend/subscriptions.js:221-271 | Corrected (see Findings). The outcome, poll arguments and probes are those of the as-written sync. The store is too, except that a sync that threw on a nameless subscription also has that record's flag cleared, as a guard around lines 227-237 would do. |
| Sync.ReleasingFreesFlag | backend/subscriptions.js:221-271 | Corrected (see Findings). Every sync that started ends with its flag cleared, named or not, and no other subscription changed. |
| Sync.ReleasingAgreesWhenNamed | backend/subscriptions.js:221-271 | For a named subscription the corrected sync is exactly the as-written one. |
| Sync.PollFailureReleases | backend/subscriptions.js:245-261 | A failed poll resolves with no jobs and no fresh-upload probes. Its only effect is the flag round trip. |
| Sync.JobsForNewItems | backend/subscriptions.js:273-293 | A successful sync creates one job per new item, in poll order. Each job carries the item's page, the media type (`video` when unset), the download options and the subscription's identity. |
| Fresh.Today | backend/subscriptions.js:475 | Today has no dash, and is as long as the part of the timestamp before the first `T` minus its dashes. |
| Fresh.TodayOfTimestamp | backend/subscriptions.js:475 | For `<date>T<time>`, today is the date without dashes. |
| Fresh.DesiredPath | backend/subscriptions.js:496 | The probe's output path is the file's path without its last four characters. |
| Fresh.CheckFile | backend/subscriptions.js:495-519 | After a probe the file is never fresh and keeps its identity. Its metric changes only when the simulated download reported a strictly greater value and the real download succeeded, and then it takes the reported value. The other metric is untouched. |
| Fresh.CheckFresh | backend/subscriptions.js:485-493 | Every fresh file of the subscription from before today is probed and left not fresh. Every other file is untouched. |
| Fresh.Reconcile | backend/subscriptions.js:472-493 | Reconciling changes only the files table and keeps its length. |
| Fresh.MarkedNotChecked | backend/subscriptions.js:472-493 | A file marked fresh today is not probed in the same pass. |
| Fresh.ReconcileEffect | backend/subscriptions.js:472-519 | After a pass, today's uploads are fresh, the probed files are not, and every other file is as before. |
| Fresh.CheckIsOneShot | backend/subscriptions.js:485-519 | A second pass on the same day finds nothing to probe. |
| Fresh.AttemptsMatchSelection | backend/subscriptions.js:488-497 | Exactly the selected files are probed, once each, in file order. Each probe uses redownload arguments aimed at the file's own path. |
| Subscribe.FirstName | backend/subscriptions.js:89-94 | The name is absent exactly when no parsed line offers a non-empty one. Otherwise it is the name offered by some line that offers one, with no earlier line offering one. A line offers the playlist title (else the playlist) for a playlist, the uploader for a channel. |
| Subscribe.ResolveFindsFirstName | backend/subscriptions.js:79-102 | The info loop keeps the first non-empty offered name and renames the record once, suffixed on a clash. A subscription that already has a name is left alone. |
| Subscribe.SubscribeAsWritten | backend/subscriptions.js:16-52 | As written. The URL-collision error occurs exactly when the name is missing or empty and the user already follows the URL; it carries the source's message and changes nothing. Otherwise the store is the inserted record, renamed once when the info supplied the name (suffixed on a clash). The call hangs exactly when the subscription still has no name after the info step or its folder does not exist yet. When it settles, success holds exactly when the info is skipped or a line parses, and the first sync starts exactly on success for an unpaused subscription. A name from the info is kept in memory unsuffixed. |
| Subscribe.HangLeavesRecord | backend/subscriptions.js:36-39 | When `subscribe` hangs, the inserted record stays in the store. If it hung for want of a name, the record keeps its missing or empty requested name; otherwise it hung because the folder was missing. |
| Subscribe.Subscribe | backend/subscriptions.js:16-52 | Corrected (see Findings). The following hold. The URL-collision error occurs exactly when the name is missing or empty and the user already follows the URL; it carries the source's message and changes nothing. Otherwise the record is inserted and no other record changes. The call hangs exactly when the name is still missing after the info step or the folder does not exist yet. A settled result hands on the stored record's identity, user and playlist flag. Success holds exactly when the info is skipped or a line parses. The first sync starts exactly on success for an unpaused subscription. |
| Subscribe.SubscribeNames | backend/subscriptions.js:38-101 | Corrected (see Findings). The first sync's subscription keeps a given name. Otherwise it takes the first offered name, suffixed with the id on a clash. With no name offered, the call hangs exactly when the subscription has no name, and otherwise settles with an empty one. Whatever the name, it hangs when the folder does not exist yet. |
| Subscribe.ClashSharesDirectory | backend/subscriptions.js:39-101 | As written, a new subscription whose offered name clashes settles exactly when the folder exists, and is then synced into the clashing subscription's directory. |
| Subscribe.ClashSeparatesDirectory | backend/subscriptions.js:89-101 | With the stored name handed on, a clashing subscription that settles gets a directory of its own. It settles exactly when the folder exists. |
| Subscribe.AllSubscriptions | backend/subscriptions.js:427-431 | In multi-user mode, exactly the records with a user are listed, otherwise those without one, in stored order. |
| Text.SplitJoin | backend/subscriptions.js:360 | Splitting on a separator loses nothing: joining the pieces back gives the original. |
| Text.SplitCharPieces | backend/subscriptions.js:351 | Splitting on a character gives one more piece than the character's occurrences. |
| Text.StripDashes | backend/subscriptions.js:475-477 | Removing dashes leaves no dash, shortens by the dash count and keeps the order. |
| Text.LessMeaning | backend/subscriptions.js:489 | String `<` is the strict lexicographic order: a proper prefix, or a smaller character at the first difference. |
| Text.LessTrichotomy | backend/subscriptions.js:489 | Two distinct dates are ordered one way or the other, never both. |
| Seqs.IndexOf | backend/subscriptions.js:361-363 | The index is -1 exactly when the value is absent. Otherwise it is the value's first position. |
| Seqs.SpliceTwo | backend/subscriptions.js:364 | `splice(i, 2)` removes the two entries at `i`, and the last entry for `i = -1`. |
| Seqs.FilterMembers | backend/subscriptions.js:430 | A filter keeps exactly the elements that pass. |

## Left out

- Subprocesses, the filesystem, logging, the record store's API and the
  configuration store are not modelled. The extractor runs, file writes and
  deletes, `ensureDirSync`, the metadata JSON write and the deletion of the
  temporary archive file are left out. The polls' parsed output, the archive
  snapshot, the cookies file's existence, the configuration and the clock are
  inputs instead.
- `utils.parseOutputJSON`, `utils.stripPropertiesFromObject` and
  `utils.getCurrentDownloader` are not part of this model. The poll result
  arrives parsed, as `None` on failure, and the downloader name is a
  configuration field.
- Args.FilterArgs: `utils.filterArgs` is not part of this model. It is taken
  to drop exactly the tokens equal to a deny-listed flag.
- Paths.Join: `path.join` is modelled for two segments, dropping an empty
  one and not doubling a trailing `/`. Normalisation of `.`, `..` and
  repeated separators is not modelled. Three-segment joins are two nested
  joins.
- Concurrency is not modelled. The fire-and-forget `forEach` callbacks, the
  unawaited `checkVideosForFreshUploads` and `getVideosForSub` calls, and
  interleavings with other requests all run to completion in sequence.
- Subscribe.SubscribeAsWritten: `getSubscriptionInfo` resolves `true` at
  the first parsed line but keeps looping. The model runs the whole loop
  before `subscribe` continues.
- Args.BuildArgs, DownloadOptions.OptionsFor and Paths.AppendedBasePath
  take a `Named` subscription: `path.join` throws on a missing name
  (line 524). The throws a caller can reach are modelled where they happen:
  the metadata write in Subscribe.SubscribeAsWritten (line 39) and the
  directory in Sync.SyncSub (line 236).
- Subscribe.SubscribeAsWritten: fs-extra is not part of this model. The
  metadata write (line 469) is taken to throw when the target folder is
  missing, as `writeJSONSync` does not create directories; whether the
  folder exists is an input, not derived from earlier syncs.
- Subscribe.Subscribe: corrects only the hand-on of the stored name. The
  metadata write before it, and its hang on a missing folder, are as
  written.
- Subscribe.ClashSharesDirectory: `db_api` is not part of this model. The
  store is taken to keep a copy of the inserted object, so renaming the
  record (line 100) does not change the subscription in memory, and the
  in-memory name set at line 93 does not reach the record.
- An info call that returns neither an error nor a truthy output never
  resolves `getSubscriptionInfo`, and the promise stays pending. The model
  treats it as a failed info poll (`None`).
- Sync.GetSubscription: the source throws on a missing record. The model
  returns `None`, and the sync reports `NotStarted(Missing)`.
- Fresh.CheckFile: heights and bitrates are integers, not JavaScript
  numbers. A stored `null` metric, which JavaScript's `>` treats as 0, is treated like
  an absent one. So no reported value counts as better than it, where the
  source would upgrade.
- Fresh.CheckFile: the metric written after the real download is an input
  (`Probe.download`). Whether it equals what the simulated download
  reported is not modelled.
- `createDownload`'s queue insertion is not part of this model.
  Dedup.RepollFindsNothing assumes each job adds a pending queue entry.
- `unsubscribe`, `deleteSubscriptionFile`, `updateSubscription`,
  `getSubscriptions` and `getSubscriptionByName` are not modelled. They are
  outside the sync core. Of `writeSubscriptionMetadata`, only its throw on
  a missing name is modelled; the file it writes is not.
- ArgsProperties.CustomQualityOverride: assumes neither the time range nor
  the rate limit is itself `-f`. Those values could add further `-f` tokens.
- ArgsProperties.CustomSelectorExample: same assumption as
  CustomQualityOverride.
- ArgsProperties.RateLimitFlag: assumes the time range and rate limit are
  not themselves `-r` or `--limit-rate`.
- ArgsProperties.RateCheck: same assumption as RateLimitFlag.
- ArgsProperties.RedownloadHasNoDate: assumes no custom token and not the
  rate limit is `--dateafter`. Such values would put the token in the list
  regardless.
- ArgsProperties.ArchiveFlagAbsent: assumes the flag is not supplied by the
  custom arguments, time range or rate limit.
- ArgsProperties.CookiesAbsent: same kind of assumption as
  ArchiveFlagAbsent.
- ArgsProperties.ThumbnailAbsent: assumes no custom token, and neither the
  time range nor the rate limit, is `--write-thumbnail`.
- ArgsProperties.DownloaderFlagAbsent: same kind of assumption as
  ThumbnailAbsent, for `--no-clean-info-json`.
- Text.Less: compares characters as Unicode code points, where JavaScript
  compares UTF-16 code units. The two orders agree on the ASCII dates
  Fresh.CheckFresh compares.
- ArgsProperties.QualityPerCase: covers only lists without a custom `-f`.
  The custom case is CustomQualityOverride and CustomQualityKept.

## Findings

| source | as written | input that shows it | evidently intended | confidence | as-written member | corrected member |
|---|---|---|---|---|---|---|
| backend/subscriptions.js:39-101 | On a name clash the record is renamed to `<name> - <id>`, but the in-memory subscription keeps the bare name. The metadata write and the first sync then use the clashing subscription's directory. | A new channel subscription with an empty name, whose first info line offers an uploader name that another channel subscription of the same user already has and has synced, so its folder exists. | The subscription handed on uses the stored, suffixed name, so it gets its own directory. | medium, not executed; assumes the record store keeps a copy of the inserted object | Subscribe.ClashSharesDirectory | Subscribe.ClashSeparatesDirectory |
| backend/subscriptions.js:221-271 | The sync sets the `downloading` flag (line 227), then builds the directory from the name (line 236), which throws synchronously when the subscription has none. Nothing guards lines 227-237, and the throw comes before the promise at line 244 is built. So nothing clears the flag: the flag-clearing function at lines 267-270 is passed to `new Promise` as an ignored second argument, and could not catch this throw anyway. | A subscription stored without a name (its info poll offered none) that a later sync picks up. | A sync that throws after taking the flag releases it, as the flag-clearing function at lines 267-270 shows was meant, so later syncs are not refused forever. | medium, not executed | Sync.NamelessSyncSticks | Sync.ReleasingFreesFlag |
