/** The argument builder `generateArgsForSubscription`: from a subscription,
    the requesting user, the redownload flag and an optional output path to
    the list of command-line arguments handed to the extractor. The archive
    snapshot text, the configuration and whether the cookies file exists are
    explicit inputs instead of reads from the archive store, the
    configuration store and the filesystem. */
module Args {
  import opened Model
  import opened Seqs
  import opened Text
  import opened Paths

  /** The inputs the builder reads from its environment. */
  datatype Env = Env(
    cfg: Config,
    archiveText: string,   // the archive snapshot for the subscription
    cookiesExist: bool)    // whether appdata/cookies.txt exists

  const ExtSuffix := ".%(ext)s"
  const TitleTemplate := "%(title)s"
  const BestVideoMp4 := "bestvideo[ext=mp4]+bestaudio[ext=m4a]/mp4"
  const CookiesPath := "appdata/cookies.txt"
  const DenyList: seq<string> := ["--write-comments"]

  function Quote(s: string): string
  {
    "\"" + s + "\""
  }

  /** The configured default file template, `%(title)s` when unset. */
  function FileOutput(cfg: Config): string
  {
    if cfg.defaultFileOutput != "" then cfg.defaultFileOutput else TitleTemplate
  }

  /** The output path before its extension placeholder: the explicit path,
      else the custom output under the subscription directory, else the
      default template there. */
  function OutputStem(sub: Subscription, cfg: Config, appended: string, desiredPath: string): string
  {
    if desiredPath != "" then desiredPath
    else if sub.customOutput != "" then appended + "/" + sub.customOutput
    else appended + "/" + FileOutput(cfg)
  }

  function OutputTemplate(sub: Subscription, cfg: Config, appended: string, desiredPath: string): string
  {
    Quote(OutputStem(sub, cfg, appended, desiredPath) + ExtSuffix)
  }

  function ModeFlag(redownload: bool): string
  {
    if !redownload then "-ciw" else "-ci"
  }

  function BaseArgs(sub: Subscription, cfg: Config, appended: string, redownload: bool, desiredPath: string): seq<string>
  {
    ["--dump-json", "-o", OutputTemplate(sub, cfg, appended, desiredPath), ModeFlag(redownload),
     "--write-info-json", "--print-json"]
  }

  function CappedVideo(q: string): string
  {
    "bestvideo[height<=" + q + "]+bestaudio/best[height<=" + q + "]"
  }

  /** The quality selection: extract mp3 audio, the best mp4, or the best
      video capped at `maxQuality` merged into mp4. */
  function QualityArgs(sub: Subscription): (r: seq<string>)
    ensures |r| >= 2 && r[0] == "-f"
    ensures "-f" !in r[2..]
  {
    if IsAudio(sub) then ["-f", "bestaudio", "-x", "--audio-format", "mp3"]
    else if sub.maxQuality == "" || sub.maxQuality == "best" then ["-f", BestVideoMp4]
    else ["-f", CappedVideo(sub.maxQuality), "--merge-output-format", "mp4"]
  }

  /** The custom arguments, split on ",,"; none when the field is empty. */
  function CustomTokens(sub: Subscription): seq<string>
  {
    if sub.customArgs == "" then [] else Split(sub.customArgs, ",,")
  }

  /** The quality arguments that survive: a custom `-f` removes the builder's
      `-f` and the value after it. */
  function KeptQuality(sub: Subscription): seq<string>
  {
    if "-f" in CustomTokens(sub) then QualityArgs(sub)[2..] else QualityArgs(sub)
  }

  function ArchivePath(appended: string): string
  {
    Join(appended, "archive.txt")
  }

  /** The snapshot's entry count is its number of "\n"-separated pieces less
      one; a positive count attaches the temporary archive file. */
  function ArchiveArgs(appended: string, archiveText: string): (r: seq<string>)
    ensures r != [] <==> '\n' in archiveText
    ensures r != [] ==> r == ["--download-archive", ArchivePath(appended)]
  {
    SplitCharPieces(archiveText, '\n');
    assert "\n" == ['\n'];
    var count := |Split(archiveText, "\n")| - 1;
    if count > 0 then ["--download-archive", ArchivePath(appended)] else []
  }

  /** Appends the custom tokens, first cutting the builder's `-f` pair out of
      `args` when the tokens carry their own `-f`. */
  function ApplyCustomArgs(args: seq<string>, sub: Subscription): seq<string>
  {
    if sub.customArgs == "" then args
    else
      var tokens := Split(sub.customArgs, ",,");
      (if "-f" in tokens then SpliceTwo(args, IndexOf(args, "-f")) else args) + tokens
  }

  function DateArgs(sub: Subscription, redownload: bool): seq<string>
  {
    if sub.timerange != "" && !redownload then ["--dateafter", sub.timerange] else []
  }

  function CookieArgs(env: Env): seq<string>
  {
    if env.cfg.useCookies && env.cookiesExist then ["--cookies", CookiesPath] else []
  }

  function ThumbnailArgs(cfg: Config): seq<string>
  {
    if cfg.includeThumbnail then ["--write-thumbnail"] else []
  }

  /** The configured rate limit, unless a rate flag is already in `prior`. */
  function RateArgs(cfg: Config, prior: seq<string>): seq<string>
  {
    if cfg.rateLimit != "" && "-r" !in prior && "--limit-rate" !in prior then ["-r", cfg.rateLimit] else []
  }

  function DownloaderArgs(cfg: Config): seq<string>
  {
    if cfg.downloader == "yt-dlp" then ["--no-clean-info-json"] else []
  }

  /** `utils.filterArgs(args, DenyList)`, taken to drop every token equal to a
      deny-listed flag. */
  function FilterArgs(args: seq<string>): (r: seq<string>)
    ensures "--write-comments" !in r
  {
    FilterMembers(args, a => a !in DenyList);
    Filter(args, a => a !in DenyList)
  }

  function SubscriptionDir(sub: Named, userUid: string, cfg: Config): string
  {
    AppendedBasePath(sub, BasePath(cfg, userUid))
  }

  /** `generateArgsForSubscription(sub, user_uid, redownload, desired_path)`. */
  function BuildArgs(sub: Named, userUid: string, redownload: bool, desiredPath: string, env: Env): (r: seq<string>)
    ensures "--write-comments" !in r
  {
    var appended := SubscriptionDir(sub, userUid, env.cfg);
    var a1 := BaseArgs(sub, env.cfg, appended, redownload, desiredPath) + QualityArgs(sub)
              + ArchiveArgs(appended, env.archiveText);
    var a2 := ApplyCustomArgs(a1, sub);
    var a3 := a2 + DateArgs(sub, redownload) + CookieArgs(env) + ThumbnailArgs(env.cfg);
    var a4 := a3 + RateArgs(env.cfg, a3);
    var a5 := a4 + DownloaderArgs(env.cfg);
    FilterArgs(a5)
  }

  /** The arguments before the custom tokens once the splice is done: the
      fixed head, the surviving quality arguments and the archive pair. */
  function HeadArgs(sub: Named, userUid: string, redownload: bool, desiredPath: string, env: Env): seq<string>
  {
    var dir := SubscriptionDir(sub, userUid, env.cfg);
    BaseArgs(sub, env.cfg, dir, redownload, desiredPath) + KeptQuality(sub) + ArchiveArgs(dir, env.archiveText)
  }

  /** Everything pushed before the rate-limit check looks for a rate flag. */
  function BeforeRate(sub: Named, userUid: string, redownload: bool, desiredPath: string, env: Env): seq<string>
  {
    HeadArgs(sub, userUid, redownload, desiredPath, env) + CustomTokens(sub) + DateArgs(sub, redownload)
    + CookieArgs(env) + ThumbnailArgs(env.cfg)
  }

  /** The arguments pushed after the head, before the deny-list filter. */
  function TailArgs(sub: Named, userUid: string, redownload: bool, desiredPath: string, env: Env): seq<string>
  {
    CustomTokens(sub) + DateArgs(sub, redownload) + CookieArgs(env) + ThumbnailArgs(env.cfg)
    + RateArgs(env.cfg, BeforeRate(sub, userUid, redownload, desiredPath, env)) + DownloaderArgs(env.cfg)
  }

  /** The fixed head of every argument list: six entries, no `-f`, nothing
      deny-listed. */
  lemma BaseArgsFacts(sub: Subscription, cfg: Config, appended: string, redownload: bool, desiredPath: string)
    ensures var b := BaseArgs(sub, cfg, appended, redownload, desiredPath);
            |b| == 6 && "-f" !in b && forall i :: 0 <= i < |b| ==> b[i] !in DenyList
  {
    assert OutputTemplate(sub, cfg, appended, desiredPath)[0] == '"';
  }

  lemma QualityFacts(sub: Subscription)
    ensures forall i :: 0 <= i < |QualityArgs(sub)| ==> QualityArgs(sub)[i] !in DenyList
    ensures forall i :: 0 <= i < |KeptQuality(sub)| ==> KeptQuality(sub)[i] !in DenyList
  {
    if !IsAudio(sub) && sub.maxQuality != "" && sub.maxQuality != "best" {
      assert CappedVideo(sub.maxQuality)[0] == 'b';
    }
  }

  /** With a custom `-f`, the splice at the builder's first `-f` removes
      exactly the builder's quality flag and its value. */
  lemma ApplyCustomLayout(b: seq<string>, q: seq<string>, a: seq<string>, sub: Subscription)
    requires |b| == 6 && "-f" !in b && q == QualityArgs(sub)
    ensures ApplyCustomArgs(b + q + a, sub) == b + KeptQuality(sub) + a + CustomTokens(sub)
  {
    if sub.customArgs != "" && "-f" in CustomTokens(sub) {
      SpliceFirstFlag(b, q, a);
    }
  }

  lemma SpliceFirstFlag(b: seq<string>, q: seq<string>, a: seq<string>)
    requires "-f" !in b && |q| >= 2 && q[0] == "-f"
    ensures SpliceTwo(b + q + a, IndexOf(b + q + a, "-f")) == b + q[2..] + a
  {
    var s := b + q + a;
    assert s[|b|] == "-f" && s[..|b|] == b;
    assert IndexOf(s, "-f") == |b|;
    assert s[|b| + 2..] == q[2..] + a;
  }

  lemma FilterArgsAppend(x: seq<string>, y: seq<string>)
    ensures FilterArgs(x + y) == FilterArgs(x) + FilterArgs(y)
  {
    FilterAppend(x, y, a => a !in DenyList);
  }

  /** The filter only drops deny-listed tokens and keeps the count of every other one. */
  lemma FilterArgsMembers(x: seq<string>, y: string)
    ensures y in FilterArgs(x) ==> y in x
    ensures y != "--write-comments" ==> Count(FilterArgs(x), y) == Count(x, y)
  {
    FilterMembers(x, a => a !in DenyList);
    if y != "--write-comments" {
      FilterCount(x, a => a !in DenyList, y);
    }
  }

  lemma FilterArgsKeeps(x: seq<string>)
    requires forall i :: 0 <= i < |x| ==> x[i] !in DenyList
    ensures FilterArgs(x) == x
  {
    FilterKeepsAll(x, a => a !in DenyList);
  }

  /** The list the builder filters is everything the rate check inspects,
      then the rate pair, then the downloader flag. */
  lemma BuildArgsUnfiltered(sub: Named, userUid: string, redownload: bool, desiredPath: string, env: Env)
    ensures var prior := BeforeRate(sub, userUid, redownload, desiredPath, env);
            BuildArgs(sub, userUid, redownload, desiredPath, env)
            == FilterArgs(prior + RateArgs(env.cfg, prior) + DownloaderArgs(env.cfg))
  {
    var dir := SubscriptionDir(sub, userUid, env.cfg);
    var b := BaseArgs(sub, env.cfg, dir, redownload, desiredPath);
    var a := ArchiveArgs(dir, env.archiveText);
    BaseArgsFacts(sub, env.cfg, dir, redownload, desiredPath);
    ApplyCustomLayout(b, QualityArgs(sub), a, sub);
  }

  lemma Regroup<T>(p: seq<T>, t: seq<T>, d: seq<T>, c: seq<T>, h: seq<T>, ra: seq<T>, dl: seq<T>)
    ensures p + t + d + c + h + ra + dl == p + (t + d + c + h + ra + dl)
  {
    AppendAssoc(p, t, d);
    AppendAssoc(p, t + d, c);
    AppendAssoc(p, t + d + c, h);
    AppendAssoc(p, t + d + c + h, ra);
    AppendAssoc(p, t + d + c + h + ra, dl);
  }

  /** The head is never filtered: the builder's list is the head followed by
      the filtered tail. */
  lemma BuildArgsSplit(sub: Named, userUid: string, redownload: bool, desiredPath: string, env: Env)
    ensures BuildArgs(sub, userUid, redownload, desiredPath, env)
            == HeadArgs(sub, userUid, redownload, desiredPath, env)
               + FilterArgs(TailArgs(sub, userUid, redownload, desiredPath, env))
  {
    var dir := SubscriptionDir(sub, userUid, env.cfg);
    var b := BaseArgs(sub, env.cfg, dir, redownload, desiredPath);
    var k := KeptQuality(sub);
    var a := ArchiveArgs(dir, env.archiveText);
    var head := HeadArgs(sub, userUid, redownload, desiredPath, env);
    var prior := BeforeRate(sub, userUid, redownload, desiredPath, env);
    BaseArgsFacts(sub, env.cfg, dir, redownload, desiredPath);
    QualityFacts(sub);
    BuildArgsUnfiltered(sub, userUid, redownload, desiredPath, env);
    Regroup(head, CustomTokens(sub), DateArgs(sub, redownload), CookieArgs(env), ThumbnailArgs(env.cfg),
            RateArgs(env.cfg, prior), DownloaderArgs(env.cfg));
    FilterArgsAppend(head, TailArgs(sub, userUid, redownload, desiredPath, env));
    HeadKept(b, k, a);
  }

  lemma HeadKept(b: seq<string>, k: seq<string>, a: seq<string>)
    requires forall i :: 0 <= i < |b| ==> b[i] !in DenyList
    requires forall i :: 0 <= i < |k| ==> k[i] !in DenyList
    requires "--write-comments" !in a
    ensures FilterArgs(b + k + a) == b + k + a
  {
    FilterArgsKeeps(b + k + a);
  }

  /** Within the tail only the custom tokens, the date filter value and the
      rate limit value can lose entries to the filter. */
  lemma TailSplit(sub: Named, userUid: string, redownload: bool, desiredPath: string, env: Env)
    ensures FilterArgs(TailArgs(sub, userUid, redownload, desiredPath, env))
            == FilterArgs(CustomTokens(sub)) + FilterArgs(DateArgs(sub, redownload)) + CookieArgs(env)
               + ThumbnailArgs(env.cfg)
               + FilterArgs(RateArgs(env.cfg, BeforeRate(sub, userUid, redownload, desiredPath, env)))
               + DownloaderArgs(env.cfg)
  {
    var c := CookieArgs(env);
    var h := ThumbnailArgs(env.cfg);
    var dl := DownloaderArgs(env.cfg);
    assert forall i :: 0 <= i < |c| ==> c[i] !in DenyList;
    assert forall i :: 0 <= i < |h| ==> h[i] !in DenyList;
    assert forall i :: 0 <= i < |dl| ==> dl[i] !in DenyList;
    FilterTailPieces(CustomTokens(sub), DateArgs(sub, redownload), c, h,
              RateArgs(env.cfg, BeforeRate(sub, userUid, redownload, desiredPath, env)), dl);
  }

  /** Filtering six pieces filters each; pieces with nothing deny-listed are kept whole. */
  lemma FilterTailPieces(t: seq<string>, d: seq<string>, c: seq<string>, h: seq<string>, ra: seq<string>,
                  dl: seq<string>)
    requires forall i :: 0 <= i < |c| ==> c[i] !in DenyList
    requires forall i :: 0 <= i < |h| ==> h[i] !in DenyList
    requires forall i :: 0 <= i < |dl| ==> dl[i] !in DenyList
    ensures FilterArgs(t + d + c + h + ra + dl)
            == FilterArgs(t) + FilterArgs(d) + c + h + FilterArgs(ra) + dl
  {
    FilterArgsAppend(t + d + c + h + ra, dl);
    FilterArgsAppend(t + d + c + h, ra);
    FilterArgsAppend(t + d + c, h);
    FilterArgsAppend(t + d, c);
    FilterArgsAppend(t, d);
    FilterArgsKeeps(c);
    FilterArgsKeeps(h);
    FilterArgsKeeps(dl);
  }
}
