/** The records the subscription engine reads and writes, as immutable values.
    A JavaScript field that may be `null`/`undefined` and is only ever tested
    for truthiness is a `string` whose empty value stands for "absent". The
    subscription's name is the exception: it is also handed to `path.join`,
    which accepts an empty string but throws on a missing one, so it is an
    `Option<string>`. */
module Model {

  datatype Option<+T> = None | Some(value: T)

  /** A row of the `subscriptions` table. */
  datatype Subscription = Subscription(
    id: string,
    url: string,
    name: Option<string>,   // None until resolved from the first info poll
    isPlaylist: bool,
    mediaType: string,      // "audio", "video", or "" when unset
    maxQuality: string,     // "" or "best" for unlimited, otherwise a height
    customOutput: string,
    customArgs: string,     // tokens separated by ",,"
    timerange: string,      // argument of --dateafter
    userUid: string,        // "" in single-user mode
    paused: bool,
    downloading: bool)

  /** The configuration items the engine consults. */
  datatype Config = Config(
    usersBasePath: string,          // ytdl_users_base_path
    subscriptionsBasePath: string,  // ytdl_subscriptions_base_path
    defaultFileOutput: string,      // ytdl_default_file_output
    useCookies: bool,               // ytdl_use_cookies
    includeThumbnail: bool,         // ytdl_include_thumbnail
    rateLimit: string,              // ytdl_download_rate_limit
    downloader: string,             // current downloader, else ytdl_default_downloader
    multiUserMode: bool,            // ytdl_multi_user_mode
    redownloadFreshUploads: bool)   // ytdl_subscriptions_redownload_fresh_uploads

  /** A row of the `files` table; `height` and `abr` are absent when the
      extractor did not report them. */
  datatype FileRec = FileRec(
    uid: string,
    subId: string,
    url: string,
    path: string,
    uploadDate: string,
    freshUpload: bool,
    height: Option<int>,
    abr: Option<int>)

  /** A row of the `download_queue` table. */
  datatype QueueEntry = QueueEntry(
    subId: string,
    url: string,
    running: bool,
    finished: bool,
    error: Option<string>)

  /** One item descriptor printed by a listing poll. */
  datatype Item = Item(
    id: string,
    extractor: string,
    webpageUrl: string,
    filename: string)   // `_filename`, the path the item would be written to

  /** A key of the `archives` table. */
  datatype ArchiveKey = ArchiveKey(
    extractor: string,
    id: string,
    mediaType: string,
    userUid: string,
    subId: string)

  /** The record store: subscriptions by id, files, the download queue and
      the archive ledger. */
  datatype Db = Db(
    subs: map<string, Subscription>,
    files: seq<FileRec>,
    queue: seq<QueueEntry>,
    archive: set<ArchiveKey>)

  /** A subscription whose name is present, as `path.join` demands of every
      path built from it. */
  type Named = s: Subscription | s.name.Some?
    witness Subscription("", "", Some(""), false, "", "", "", "", "", "", false, false)

  /** JavaScript truthiness of an optional string: present and non-empty. */
  predicate Truthy(s: Option<string>)
  {
    s.Some? && s.value != ""
  }

  predicate IsAudio(sub: Subscription)
  {
    sub.mediaType == "audio"
  }
}
