/** What the argument builder promises about the list it returns: the output
    template's priority, the mode flags, the quality selection, the custom
    `-f` override, the date filter, the archive attachment, the rate limit,
    the optional global flags and the final deny-list filter. */
module ArgsProperties {
  import opened Model
  import opened Seqs
  import opened Text
  import opened Paths
  import opened Args

  // ---------------------------------------------------------------------------
  // Positions in a concatenation

  /** `x` is immediately followed by `y` somewhere in `r`. */
  predicate Adjacent(r: seq<string>, x: string, y: string)
  {
    exists i :: 0 <= i < |r| - 1 && r[i] == x && r[i + 1] == y
  }

  lemma AdjacentStart(m: seq<string>)
    requires |m| >= 2
    ensures Adjacent(m, m[0], m[1])
  {
    assert 0 <= 0 < |m| - 1;
  }

  lemma AdjacentLeft(p: seq<string>, q: seq<string>, x: string, y: string)
    requires Adjacent(q, x, y)
    ensures Adjacent(p + q, x, y)
  {
    var i :| 0 <= i < |q| - 1 && q[i] == x && q[i + 1] == y;
    assert (p + q)[|p| + i] == x && (p + q)[|p| + i + 1] == y;
  }

  lemma AdjacentRight(p: seq<string>, q: seq<string>, x: string, y: string)
    requires Adjacent(p, x, y)
    ensures Adjacent(p + q, x, y)
  {
    var i :| 0 <= i < |p| - 1 && p[i] == x && p[i + 1] == y;
    assert (p + q)[i] == x && (p + q)[i + 1] == y;
  }

  lemma HeadAt<T>(p: seq<T>, q: seq<T>, s: seq<T>, u: seq<T>, i: int)
    requires 0 <= i < |p|
    ensures (p + q + s + u)[i] == p[i]
  {
  }

  lemma SecondAt<T>(p: seq<T>, q: seq<T>, s: seq<T>, u: seq<T>)
    ensures |p + q + s + u| >= |p| + |q|
    ensures (p + q + s + u)[|p|..|p| + |q|] == q
  {
  }

  lemma LastOf<T>(p: seq<T>, q: seq<T>)
    requires |q| > 0
    ensures (p + q)[|p + q| - 1] == q[|q| - 1]
  {
  }

  /** Occurrences in the list's four layout segments add up. */
  lemma CountLayout<T>(p: seq<T>, q: seq<T>, s: seq<T>, u: seq<T>, x: T)
    ensures Count(p + q + s + u, x) == Count(p, x) + Count(q, x) + Count(s, x) + Count(u, x)
  {
    CountAppend(p + q + s, u, x);
    CountAppend(p + q, s, x);
    CountAppend(p, q, x);
  }

  /** Occurrences in the six pieces of the filtered tail add up. */
  lemma CountTailPieces<T>(p1: seq<T>, p2: seq<T>, p3: seq<T>, p4: seq<T>, p5: seq<T>, p6: seq<T>, x: T)
    ensures Count(p1 + p2 + p3 + p4 + p5 + p6, x)
            == Count(p1, x) + Count(p2, x) + Count(p3, x) + Count(p4, x) + Count(p5, x) + Count(p6, x)
  {
    CountAppend(p1 + p2 + p3 + p4 + p5, p6, x);
    CountAppend(p1 + p2 + p3 + p4, p5, x);
    CountAppend(p1 + p2 + p3, p4, x);
    CountAppend(p1 + p2, p3, x);
    CountAppend(p1, p2, x);
  }

  // ---------------------------------------------------------------------------
  // The builder's list, segment by segment

  /** The list is the fixed head, the surviving quality arguments, the archive
      pair and the filtered tail, in that order. */
  lemma Layout(sub: Named, userUid: string, redownload: bool, desiredPath: string, env: Env)
    returns (b: seq<string>, k: seq<string>, a: seq<string>, ft: seq<string>)
    ensures b == BaseArgs(sub, env.cfg, SubscriptionDir(sub, userUid, env.cfg), redownload, desiredPath)
    ensures k == KeptQuality(sub)
    ensures a == ArchiveArgs(SubscriptionDir(sub, userUid, env.cfg), env.archiveText)
    ensures ft == FilterArgs(TailArgs(sub, userUid, redownload, desiredPath, env))
    ensures BuildArgs(sub, userUid, redownload, desiredPath, env) == b + k + a + ft
  {
    BuildArgsSplit(sub, userUid, redownload, desiredPath, env);
    var dir := SubscriptionDir(sub, userUid, env.cfg);
    b := BaseArgs(sub, env.cfg, dir, redownload, desiredPath);
    k := KeptQuality(sub);
    a := ArchiveArgs(dir, env.archiveText);
    ft := FilterArgs(TailArgs(sub, userUid, redownload, desiredPath, env));
  }

  /** The filtered tail: custom tokens, date filter, cookies, thumbnail, rate
      limit and downloader flag, with only the first, second and fifth
      segments exposed to the filter. */
  lemma TailLayout(sub: Named, userUid: string, redownload: bool, desiredPath: string, env: Env)
    returns (t: seq<string>, d: seq<string>, rate: seq<string>)
    ensures t == CustomTokens(sub)
    ensures d == DateArgs(sub, redownload)
    ensures rate == RateArgs(env.cfg, BeforeRate(sub, userUid, redownload, desiredPath, env))
    ensures FilterArgs(TailArgs(sub, userUid, redownload, desiredPath, env))
            == FilterArgs(t) + FilterArgs(d) + CookieArgs(env) + ThumbnailArgs(env.cfg) + FilterArgs(rate)
               + DownloaderArgs(env.cfg)
  {
    TailSplit(sub, userUid, redownload, desiredPath, env);
    t := CustomTokens(sub);
    d := DateArgs(sub, redownload);
    rate := RateArgs(env.cfg, BeforeRate(sub, userUid, redownload, desiredPath, env));
  }

  // ---------------------------------------------------------------------------
  // Which flags the builder's own segments can contain

  lemma BaseFree(sub: Subscription, cfg: Config, dir: string, redownload: bool, desiredPath: string, f: string)
    requires |f| > 0 && f[0] == '-'
    requires f != "--dump-json" && f != "-o" && f != "-ciw" && f != "-ci"
    requires f != "--write-info-json" && f != "--print-json"
    ensures f !in BaseArgs(sub, cfg, dir, redownload, desiredPath)
  {
    assert OutputTemplate(sub, cfg, dir, desiredPath)[0] == '"';
  }

  lemma QualityFree(sub: Subscription, f: string)
    requires |f| > 0 && f[0] == '-'
    requires f != "-x" && f != "--audio-format" && f != "--merge-output-format"
    ensures f != "-f" ==> f !in KeptQuality(sub)
    ensures f !in QualityArgs(sub)[2..]
  {
    if !IsAudio(sub) && sub.maxQuality != "" && sub.maxQuality != "best" {
      assert CappedVideo(sub.maxQuality)[0] == 'b';
    }
  }

  lemma ArchiveFree(dir: string, archiveText: string, f: string)
    requires f != "--download-archive"
    requires !EndsWith(f, "archive.txt")
    ensures f !in ArchiveArgs(dir, archiveText)
  {
  }

  /** A flag that none of the head segments produce occurs in the list as often
      as in the filtered tail. */
  lemma HeadCount(b: seq<string>, k: seq<string>, a: seq<string>, ft: seq<string>, f: string)
    requires Count(b, f) == 0 && Count(k, f) == 0 && Count(a, f) == 0
    ensures Count(b + k + a + ft, f) == Count(ft, f)
  {
    CountLayout(b, k, a, ft, f);
  }

  /** The head segments of a subscription's list lack a flag the builder does
      not put there itself. */
  lemma HeadCounts(sub: Subscription, cfg: Config, dir: string, redownload: bool, desiredPath: string,
                   archiveText: string, f: string)
    requires |f| > 0 && f[0] == '-' && (f == "-f" ==> "-f" in CustomTokens(sub))
    requires f != "--dump-json" && f != "-o" && f != "-ciw" && f != "-ci"
    requires f != "--write-info-json" && f != "--print-json"
    requires f != "-x" && f != "--audio-format" && f != "--merge-output-format"
    requires f != "--download-archive" && !EndsWith(f, "archive.txt")
    ensures Count(BaseArgs(sub, cfg, dir, redownload, desiredPath), f) == 0
    ensures Count(KeptQuality(sub), f) == 0
    ensures Count(ArchiveArgs(dir, archiveText), f) == 0
  {
    BaseFree(sub, cfg, dir, redownload, desiredPath, f);
    QualityFree(sub, f);
    ArchiveFree(dir, archiveText, f);
  }

  /** The date filter contributes nothing but its own flag and value. */
  lemma DateCount(sub: Subscription, redownload: bool, f: string)
    requires f != "--dateafter" && f != sub.timerange
    ensures Count(DateArgs(sub, redownload), f) == 0
  {
  }

  /** The rate pair contributes nothing but its own flag and value. */
  lemma RateFree(cfg: Config, prior: seq<string>, f: string)
    requires f != "-r" && f != cfg.rateLimit
    ensures Count(RateArgs(cfg, prior), f) == 0
  {
  }

  /** The filter keeps every occurrence of anything but `--write-comments`. */
  lemma FilteredCounts(t: seq<string>, d: seq<string>, rate: seq<string>, f: string)
    requires f != "--write-comments"
    ensures Count(FilterArgs(t), f) + Count(FilterArgs(d), f) + Count(FilterArgs(rate), f)
            == Count(t, f) + Count(d, f) + Count(rate, f)
  {
    FilterArgsMembers(t, f);
    FilterArgsMembers(d, f);
    FilterArgsMembers(rate, f);
  }

  /** The cookies, thumbnail and downloader segments hold only their own flags. */
  lemma FixedTailCounts(env: Env, f: string)
    requires f != "--cookies" && f != CookiesPath && f != "--write-thumbnail" && f != "--no-clean-info-json"
    ensures Count(CookieArgs(env), f) == 0 && Count(ThumbnailArgs(env.cfg), f) == 0
    ensures Count(DownloaderArgs(env.cfg), f) == 0
  {
  }

  /** How often a flag occurs in the filtered tail, when the fixed segments
      lack it. */
  lemma TailCount(t: seq<string>, d: seq<string>, c: seq<string>, h: seq<string>, rate: seq<string>,
                  dl: seq<string>, f: string)
    requires f != "--write-comments" && Count(c, f) == 0 && Count(h, f) == 0 && Count(dl, f) == 0
    ensures Count(FilterArgs(t) + FilterArgs(d) + c + h + FilterArgs(rate) + dl, f)
            == Count(t, f) + Count(d, f) + Count(rate, f)
  {
    FilteredCounts(t, d, rate, f);
    CountTailPieces(FilterArgs(t), FilterArgs(d), c, h, FilterArgs(rate), dl, f);
  }

  /** A flag the head and the fixed tail segments lack is absent from the list
      when the filtered custom tokens, date filter and rate pair lack it. */
  lemma AbsentFromList(b: seq<string>, k: seq<string>, a: seq<string>, t: seq<string>, d: seq<string>,
                       c: seq<string>, h: seq<string>, rate: seq<string>, dl: seq<string>, f: string)
    requires f !in b && f !in k && f !in a && f !in c && f !in h && f !in dl
    requires f !in t && f !in d && f !in rate
    ensures f !in b + k + a + (FilterArgs(t) + FilterArgs(d) + c + h + FilterArgs(rate) + dl)
  {
    FilterArgsMembers(t, f);
    FilterArgsMembers(d, f);
    FilterArgsMembers(rate, f);
  }

  /** A flag absent from every piece of the builder's list is absent from
      the list. */
  lemma NotInBuild(sub: Named, userUid: string, redownload: bool, desiredPath: string, env: Env,
                   f: string)
    requires f !in BaseArgs(sub, env.cfg, SubscriptionDir(sub, userUid, env.cfg), redownload, desiredPath)
    requires f !in KeptQuality(sub) && f !in ArchiveArgs(SubscriptionDir(sub, userUid, env.cfg), env.archiveText)
    requires f !in CustomTokens(sub) && f !in DateArgs(sub, redownload)
    requires f !in RateArgs(env.cfg, BeforeRate(sub, userUid, redownload, desiredPath, env))
    requires f !in CookieArgs(env) && f !in ThumbnailArgs(env.cfg) && f !in DownloaderArgs(env.cfg)
    ensures f !in BuildArgs(sub, userUid, redownload, desiredPath, env)
  {
    var b, k, a, ft := Layout(sub, userUid, redownload, desiredPath, env);
    var t, d, rate := TailLayout(sub, userUid, redownload, desiredPath, env);
    AbsentFromList(b, k, a, t, d, CookieArgs(env), ThumbnailArgs(env.cfg), rate, DownloaderArgs(env.cfg), f);
  }

  /** In the list the rate check inspects, a flag the builder's own segments
      lack is present exactly when the custom tokens carry it. */
  lemma OnlyFromTokens(b: seq<string>, k: seq<string>, a: seq<string>, t: seq<string>, d: seq<string>,
                       c: seq<string>, h: seq<string>, f: string)
    requires f !in b && f !in k && f !in a && f !in d && f !in c && f !in h
    ensures f in b + k + a + t + d + c + h <==> f in t
  {
  }

  // ---------------------------------------------------------------------------
  // Properties of BuildArgs

  /** The quoted template is the chosen stem followed by `.%(ext)s`. */
  lemma TemplateShape(sub: Subscription, cfg: Config, dir: string, desiredPath: string)
    ensures
      var t := OutputTemplate(sub, cfg, dir, desiredPath);
      && t[0] == '"' && EndsWith(t, ".%(ext)s\"")
      && (desiredPath != "" ==> t == "\"" + desiredPath + ".%(ext)s\"")
      && (desiredPath == "" && sub.customOutput != "" ==>
            t == "\"" + dir + "/" + sub.customOutput + ".%(ext)s\"")
      && (desiredPath == "" && sub.customOutput == "" && cfg.defaultFileOutput != "" ==>
            t == "\"" + dir + "/" + cfg.defaultFileOutput + ".%(ext)s\"")
      && (desiredPath == "" && sub.customOutput == "" && cfg.defaultFileOutput == "" ==>
            t == "\"" + dir + "/%(title)s.%(ext)s\"")
  {
    var stem := OutputStem(sub, cfg, dir, desiredPath);
    Quoted(stem);
    if desiredPath == "" && sub.customOutput == "" && cfg.defaultFileOutput == "" {
      assert stem == dir + "/" + "%(title)s";
      assert "\"" + (dir + "/" + "%(title)s") + ".%(ext)s\"" == "\"" + dir + "/%(title)s.%(ext)s\"";
    }
  }

  lemma Quoted(stem: string)
    ensures var t := Quote(stem + ExtSuffix);
            t == "\"" + stem + ".%(ext)s\"" && t[0] == '"' && EndsWith(t, ".%(ext)s\"")
  {
    var t := Quote(stem + ExtSuffix);
    assert t == "\"" + stem + ".%(ext)s" + "\"";
    assert t[|t| - 9..] == ".%(ext)s\"";
  }

  /** The list opens with `--dump-json -o <template>`, the template being the
      one `TemplateShape` describes for the subscription's directory. */
  lemma OutputTemplatePriority(sub: Named, userUid: string, redownload: bool, desiredPath: string, env: Env)
    ensures
      var r := BuildArgs(sub, userUid, redownload, desiredPath, env);
      && |r| >= 3 && r[0] == "--dump-json" && r[1] == "-o"
      && r[2] == OutputTemplate(sub, env.cfg, SubscriptionDir(sub, userUid, env.cfg), desiredPath)
  {
    var b, k, a, ft := Layout(sub, userUid, redownload, desiredPath, env);
    HeadAt(b, k, a, ft, 0);
    HeadAt(b, k, a, ft, 1);
    HeadAt(b, k, a, ft, 2);
  }

  /** A listing poll walks the playlist strictly (`-ciw`); a redownload is a
      looser single re-fetch (`-ci`); both write the info JSON and print it. */
  lemma ModeFlags(sub: Named, userUid: string, redownload: bool, desiredPath: string, env: Env)
    ensures
      var r := BuildArgs(sub, userUid, redownload, desiredPath, env);
      && |r| >= 6
      && (!redownload ==> r[3] == "-ciw")
      && (redownload ==> r[3] == "-ci")
      && r[4] == "--write-info-json" && r[5] == "--print-json"
  {
    var b, k, a, ft := Layout(sub, userUid, redownload, desiredPath, env);
    HeadAt(b, k, a, ft, 3);
    HeadAt(b, k, a, ft, 4);
    HeadAt(b, k, a, ft, 5);
  }

  /** Without a custom `-f`, the quality arguments follow the fixed head:
      mp3 extraction for audio, the best mp4 for video with no or `best`
      maximum quality, otherwise the height-capped selector merged into mp4. */
  lemma QualityPerCase(sub: Named, userUid: string, redownload: bool, desiredPath: string, env: Env)
    requires "-f" !in CustomTokens(sub)
    ensures
      var r := BuildArgs(sub, userUid, redownload, desiredPath, env);
      var q := sub.maxQuality;
      && (sub.mediaType == "audio" ==>
            |r| >= 11 && r[6..11] == ["-f", "bestaudio", "-x", "--audio-format", "mp3"])
      && (sub.mediaType != "audio" && (q == "" || q == "best") ==>
            |r| >= 8 && r[6..8] == ["-f", "bestvideo[ext=mp4]+bestaudio[ext=m4a]/mp4"])
      && (sub.mediaType != "audio" && q != "" && q != "best" ==>
            |r| >= 10 && r[6..10] == ["-f", "bestvideo[height<=" + q + "]+bestaudio/best[height<=" + q + "]",
                                      "--merge-output-format", "mp4"])
  {
    var b, k, a, ft := Layout(sub, userUid, redownload, desiredPath, env);
    SecondAt(b, k, a, ft);
    QualityAt(b + k + a + ft, sub);
  }

  /** The quality arguments, per case, wherever they sit at entry 6. */
  lemma QualityAt(r: seq<string>, sub: Subscription)
    requires |r| >= 6 + |QualityArgs(sub)| && r[6..6 + |QualityArgs(sub)|] == QualityArgs(sub)
    ensures var q := sub.maxQuality;
      && (sub.mediaType == "audio" ==>
            |r| >= 11 && r[6..11] == ["-f", "bestaudio", "-x", "--audio-format", "mp3"])
      && (sub.mediaType != "audio" && (q == "" || q == "best") ==>
            |r| >= 8 && r[6..8] == ["-f", "bestvideo[ext=mp4]+bestaudio[ext=m4a]/mp4"])
      && (sub.mediaType != "audio" && q != "" && q != "best" ==>
            |r| >= 10 && r[6..10] == ["-f", "bestvideo[height<=" + q + "]+bestaudio/best[height<=" + q + "]",
                                      "--merge-output-format", "mp4"])
  {
  }

  /** A custom `-f` replaces the builder's: the only `-f` flags left are the
      custom ones (given that neither the date filter value nor the rate
      limit is itself `-f`). */
  lemma CustomQualityOverride(sub: Named, userUid: string, redownload: bool, desiredPath: string, env: Env)
    requires "-f" in CustomTokens(sub)
    requires sub.timerange != "-f" && env.cfg.rateLimit != "-f"
    ensures Count(BuildArgs(sub, userUid, redownload, desiredPath, env), "-f") == Count(CustomTokens(sub), "-f")
  {
    var dir := SubscriptionDir(sub, userUid, env.cfg);
    var b, k, a, ft := Layout(sub, userUid, redownload, desiredPath, env);
    var t, d, rate := TailLayout(sub, userUid, redownload, desiredPath, env);
    HeadCounts(sub, env.cfg, dir, redownload, desiredPath, env.archiveText, "-f");
    HeadCount(b, k, a, ft, "-f");
    FixedTailCounts(env, "-f");
    DateCount(sub, redownload, "-f");
    RateFree(env.cfg, BeforeRate(sub, userUid, redownload, desiredPath, env), "-f");
    TailCount(t, d, CookieArgs(env), ThumbnailArgs(env.cfg), rate, DownloaderArgs(env.cfg), "-f");
  }

  /** With a custom `-f`, the builder's `-f` and the value after it are gone
      and the rest of its quality arguments stay in place after the head. */
  lemma CustomQualityKept(sub: Named, userUid: string, redownload: bool, desiredPath: string, env: Env)
    requires "-f" in CustomTokens(sub)
    ensures
      var r := BuildArgs(sub, userUid, redownload, desiredPath, env);
      var q := QualityArgs(sub);
      |r| >= 4 + |q| && r[6..4 + |q|] == q[2..]
  {
    var b, k, a, ft := Layout(sub, userUid, redownload, desiredPath, env);
    SecondAt(b, k, a, ft);
  }

  /** Two custom tokens side by side stay side by side unless one of them is
      deny-listed. */
  lemma {:induction false} FilterAdjacent(t: seq<string>, x: string, y: string)
    requires x != "--write-comments" && y != "--write-comments" && Adjacent(t, x, y)
    ensures Adjacent(FilterArgs(t), x, y)
    decreases |t|
  {
    if t[0] == x && t[1] == y {
      assert FilterArgs(t) == [x] + FilterArgs(t[1..]);
      assert FilterArgs(t[1..]) == [y] + FilterArgs(t[2..]);
      assert FilterArgs(t)[0] == x && FilterArgs(t)[1] == y;
    } else {
      var i :| 0 <= i < |t| - 1 && t[i] == x && t[i + 1] == y;
      assert t[1..][i - 1] == x && t[1..][i] == y;
      FilterAdjacent(t[1..], x, y);
      if t[0] !in DenyList {
        assert FilterArgs(t) == [t[0]] + FilterArgs(t[1..]);
        AdjacentLeft([t[0]], FilterArgs(t[1..]), x, y);
      }
    }
  }

  /** Adjacent custom tokens are adjacent in the builder's list, unless one of
      them is deny-listed. */
  lemma CustomPairSurvives(sub: Named, userUid: string, redownload: bool, desiredPath: string, env: Env,
                           x: string, y: string)
    requires x != "--write-comments" && y != "--write-comments" && Adjacent(CustomTokens(sub), x, y)
    ensures Adjacent(BuildArgs(sub, userUid, redownload, desiredPath, env), x, y)
  {
    var b, k, a, ft := Layout(sub, userUid, redownload, desiredPath, env);
    var t, d, rate := TailLayout(sub, userUid, redownload, desiredPath, env);
    var p := FilterArgs(t);
    FilterAdjacent(t, x, y);
    AdjacentRight(p, FilterArgs(d), x, y);
    AdjacentRight(p + FilterArgs(d), CookieArgs(env), x, y);
    AdjacentRight(p + FilterArgs(d) + CookieArgs(env), ThumbnailArgs(env.cfg), x, y);
    AdjacentRight(p + FilterArgs(d) + CookieArgs(env) + ThumbnailArgs(env.cfg), FilterArgs(rate), x, y);
    AdjacentRight(p + FilterArgs(d) + CookieArgs(env) + ThumbnailArgs(env.cfg) + FilterArgs(rate),
                  DownloaderArgs(env.cfg), x, y);
    AdjacentLeft(b + k + a, ft, x, y);
  }

  /** Custom arguments `x,,y` with no comma inside either token are the two
      tokens `x` and `y`. */
  lemma TwoTokens(sub: Subscription, x: string, y: string)
    requires sub.customArgs == x + ",," + y && ',' !in x && ',' !in y
    ensures CustomTokens(sub) == [x, y]
  {
    SplitFirstPiece(x, ",,", y);
    SplitNoSeparator(y, ",,");
  }

  /** `-f,,bestvideo` as custom arguments leaves exactly one `-f`, followed by
      `bestvideo` (given that neither the date filter value nor the rate limit
      is itself `-f`). */
  lemma CustomSelectorExample(sub: Named, userUid: string, redownload: bool, desiredPath: string, env: Env)
    requires sub.customArgs == "-f" + ",," + "bestvideo"
    requires sub.timerange != "-f" && env.cfg.rateLimit != "-f"
    ensures var r := BuildArgs(sub, userUid, redownload, desiredPath, env);
            Count(r, "-f") == 1 && Adjacent(r, "-f", "bestvideo")
  {
    var t := CustomTokens(sub);
    TwoTokens(sub, "-f", "bestvideo");
    AdjacentStart(t);
    CustomQualityOverride(sub, userUid, redownload, desiredPath, env);
    CustomPairSurvives(sub, userUid, redownload, desiredPath, env, "-f", "bestvideo");
  }

  /** A redownload never filters by date: `--dateafter` is absent unless the
      custom arguments or the rate limit supply it. */
  lemma RedownloadHasNoDate(sub: Named, userUid: string, desiredPath: string, env: Env)
    requires "--dateafter" !in CustomTokens(sub) && env.cfg.rateLimit != "--dateafter"
    ensures "--dateafter" !in BuildArgs(sub, userUid, true, desiredPath, env)
  {
    var dir := SubscriptionDir(sub, userUid, env.cfg);
    var f := "--dateafter";
    BaseFree(sub, env.cfg, dir, true, desiredPath, f);
    QualityFree(sub, f);
    ArchiveFree(dir, env.archiveText, f);
    RateFree(env.cfg, BeforeRate(sub, userUid, true, desiredPath, env), f);
    FixedTailCounts(env, f);
    NotInBuild(sub, userUid, true, desiredPath, env, f);
  }

  /** A listing poll with a time range passes `--dateafter <timerange>`. */
  lemma PollHasDate(sub: Named, userUid: string, desiredPath: string, env: Env)
    requires sub.timerange != "" && sub.timerange != "--write-comments"
    ensures Adjacent(BuildArgs(sub, userUid, false, desiredPath, env), "--dateafter", sub.timerange)
  {
    var b, k, a, ft := Layout(sub, userUid, false, desiredPath, env);
    var t, d, rate := TailLayout(sub, userUid, false, desiredPath, env);
    FilterArgsKeeps(d);
    AdjacentStart(d);
    AdjacentLeft(FilterArgs(t), d, "--dateafter", sub.timerange);
    AdjacentRight(FilterArgs(t) + d, CookieArgs(env), "--dateafter", sub.timerange);
    AdjacentRight(FilterArgs(t) + d + CookieArgs(env), ThumbnailArgs(env.cfg), "--dateafter", sub.timerange);
    AdjacentRight(FilterArgs(t) + d + CookieArgs(env) + ThumbnailArgs(env.cfg), FilterArgs(rate),
                  "--dateafter", sub.timerange);
    AdjacentRight(FilterArgs(t) + d + CookieArgs(env) + ThumbnailArgs(env.cfg) + FilterArgs(rate),
                  DownloaderArgs(env.cfg), "--dateafter", sub.timerange);
    AdjacentLeft(b + k + a, ft, "--dateafter", sub.timerange);
  }

  /** The temporary archive file is passed exactly when the snapshot holds a
      newline (its piece count less one is positive). */
  lemma ArchiveFlagPresent(sub: Named, userUid: string, redownload: bool, desiredPath: string, env: Env)
    requires '\n' in env.archiveText
    ensures Adjacent(BuildArgs(sub, userUid, redownload, desiredPath, env),
                     "--download-archive", Join(SubscriptionDir(sub, userUid, env.cfg), "archive.txt"))
  {
    var b, k, a, ft := Layout(sub, userUid, redownload, desiredPath, env);
    var x := "--download-archive";
    var y := Join(SubscriptionDir(sub, userUid, env.cfg), "archive.txt");
    AdjacentStart(a);
    AdjacentLeft(b + k, a, x, y);
    AdjacentRight(b + k + a, ft, x, y);
  }

  /** Without a newline in the snapshot, `--download-archive` appears only if
      the custom arguments, time range or rate limit supply it. */
  lemma ArchiveFlagAbsent(sub: Named, userUid: string, redownload: bool, desiredPath: string, env: Env)
    requires '\n' !in env.archiveText && "--download-archive" !in CustomTokens(sub)
    requires sub.timerange != "--download-archive" && env.cfg.rateLimit != "--download-archive"
    ensures "--download-archive" !in BuildArgs(sub, userUid, redownload, desiredPath, env)
  {
    var dir := SubscriptionDir(sub, userUid, env.cfg);
    var f := "--download-archive";
    BaseFree(sub, env.cfg, dir, redownload, desiredPath, f);
    QualityFree(sub, f);
    DateCount(sub, redownload, f);
    RateFree(env.cfg, BeforeRate(sub, userUid, redownload, desiredPath, env), f);
    FixedTailCounts(env, f);
    NotInBuild(sub, userUid, redownload, desiredPath, env, f);
  }

  /** The configured rate limit is appended (as `-r <limit>`) exactly when it
      is set and neither `-r` nor `--limit-rate` is already present, so the
      number of `-r` flags is the custom ones plus that one. */
  lemma RateLimitFlag(sub: Named, userUid: string, redownload: bool, desiredPath: string, env: Env)
    requires sub.timerange != "-r" && sub.timerange != "--limit-rate" && env.cfg.rateLimit != "-r"
    ensures
      var r := BuildArgs(sub, userUid, redownload, desiredPath, env);
      var t := CustomTokens(sub);
      Count(r, "-r") == Count(t, "-r")
        + (if env.cfg.rateLimit != "" && "-r" !in t && "--limit-rate" !in t then 1 else 0)
  {
    var dir := SubscriptionDir(sub, userUid, env.cfg);
    var b, k, a, ft := Layout(sub, userUid, redownload, desiredPath, env);
    var t, d, rate := TailLayout(sub, userUid, redownload, desiredPath, env);
    RateCheck(sub, userUid, redownload, desiredPath, env);
    HeadCounts(sub, env.cfg, dir, redownload, desiredPath, env.archiveText, "-r");
    HeadCount(b, k, a, ft, "-r");
    FixedTailCounts(env, "-r");
    RateCount(env.cfg, BeforeRate(sub, userUid, redownload, desiredPath, env));
    DateCount(sub, redownload, "-r");
    TailCount(t, d, CookieArgs(env), ThumbnailArgs(env.cfg), rate, DownloaderArgs(env.cfg), "-r");
  }

  /** The rate pair contributes one `-r` exactly when it is appended. */
  lemma RateCount(cfg: Config, prior: seq<string>)
    requires cfg.rateLimit != "-r"
    ensures Count(RateArgs(cfg, prior), "-r")
            == if cfg.rateLimit != "" && "-r" !in prior && "--limit-rate" !in prior then 1 else 0
  {
  }

  /** The rate check sees a rate flag before it exactly when the custom tokens
      carry one. */
  lemma RateCheck(sub: Named, userUid: string, redownload: bool, desiredPath: string, env: Env)
    requires sub.timerange != "-r" && sub.timerange != "--limit-rate"
    ensures var prior := BeforeRate(sub, userUid, redownload, desiredPath, env);
            && ("-r" in prior <==> "-r" in CustomTokens(sub))
            && ("--limit-rate" in prior <==> "--limit-rate" in CustomTokens(sub))
  {
    RateFlagSeen(sub, userUid, redownload, desiredPath, env, "-r");
    RateFlagSeen(sub, userUid, redownload, desiredPath, env, "--limit-rate");
  }

  /** One rate flag is in the list the rate check inspects exactly when the
      custom tokens carry it. */
  lemma RateFlagSeen(sub: Named, userUid: string, redownload: bool, desiredPath: string, env: Env,
                     f: string)
    requires f == "-r" || f == "--limit-rate"
    requires sub.timerange != f
    ensures f in BeforeRate(sub, userUid, redownload, desiredPath, env) <==> f in CustomTokens(sub)
  {
    var dir := SubscriptionDir(sub, userUid, env.cfg);
    var b := BaseArgs(sub, env.cfg, dir, redownload, desiredPath);
    var k := KeptQuality(sub);
    var a := ArchiveArgs(dir, env.archiveText);
    var t := CustomTokens(sub);
    var d := DateArgs(sub, redownload);
    var c := CookieArgs(env);
    var h := ThumbnailArgs(env.cfg);
    assert BeforeRate(sub, userUid, redownload, desiredPath, env) == b + k + a + t + d + c + h;
    BaseFree(sub, env.cfg, dir, redownload, desiredPath, f);
    QualityFree(sub, f);
    ArchiveFree(dir, env.archiveText, f);
    DateCount(sub, redownload, f);
    FixedTailCounts(env, f);
    OnlyFromTokens(b, k, a, t, d, c, h, f);
  }

  /** Cookies are passed when enabled and the file exists. */
  lemma CookiesPresent(sub: Named, userUid: string, redownload: bool, desiredPath: string, env: Env)
    requires env.cfg.useCookies && env.cookiesExist
    ensures Adjacent(BuildArgs(sub, userUid, redownload, desiredPath, env), "--cookies", "appdata/cookies.txt")
  {
    var b, k, a, ft := Layout(sub, userUid, redownload, desiredPath, env);
    var t, d, rate := TailLayout(sub, userUid, redownload, desiredPath, env);
    var x, y := "--cookies", "appdata/cookies.txt";
    var c := CookieArgs(env);
    AdjacentStart(c);
    AdjacentLeft(FilterArgs(t) + FilterArgs(d), c, x, y);
    AdjacentRight(FilterArgs(t) + FilterArgs(d) + c, ThumbnailArgs(env.cfg), x, y);
    AdjacentRight(FilterArgs(t) + FilterArgs(d) + c + ThumbnailArgs(env.cfg), FilterArgs(rate), x, y);
    AdjacentRight(FilterArgs(t) + FilterArgs(d) + c + ThumbnailArgs(env.cfg) + FilterArgs(rate),
                  DownloaderArgs(env.cfg), x, y);
    AdjacentLeft(b + k + a, ft, x, y);
  }

  /** Otherwise cookies are silently skipped: `--cookies` appears only if the
      custom arguments, time range or rate limit supply it. */
  lemma CookiesAbsent(sub: Named, userUid: string, redownload: bool, desiredPath: string, env: Env)
    requires !(env.cfg.useCookies && env.cookiesExist) && "--cookies" !in CustomTokens(sub)
    requires sub.timerange != "--cookies" && env.cfg.rateLimit != "--cookies"
    ensures "--cookies" !in BuildArgs(sub, userUid, redownload, desiredPath, env)
  {
    var dir := SubscriptionDir(sub, userUid, env.cfg);
    var f := "--cookies";
    BaseFree(sub, env.cfg, dir, redownload, desiredPath, f);
    QualityFree(sub, f);
    ArchiveFree(dir, env.archiveText, f);
    DateCount(sub, redownload, f);
    RateFree(env.cfg, BeforeRate(sub, userUid, redownload, desiredPath, env), f);
    NotInBuild(sub, userUid, redownload, desiredPath, env, f);
  }

  /** The thumbnail flag follows its setting, and yt-dlp gets
      `--no-clean-info-json` as the last argument. */
  lemma ThumbnailAndDownloader(sub: Named, userUid: string, redownload: bool, desiredPath: string, env: Env)
    ensures var r := BuildArgs(sub, userUid, redownload, desiredPath, env);
            && (env.cfg.includeThumbnail ==> "--write-thumbnail" in r)
            && (env.cfg.downloader == "yt-dlp" ==> |r| > 0 && r[|r| - 1] == "--no-clean-info-json")
  {
    var b, k, a, ft := Layout(sub, userUid, redownload, desiredPath, env);
    var t, d, rate := TailLayout(sub, userUid, redownload, desiredPath, env);
    var dl := DownloaderArgs(env.cfg);
    if env.cfg.downloader == "yt-dlp" {
      LastOf(FilterArgs(t) + FilterArgs(d) + CookieArgs(env) + ThumbnailArgs(env.cfg) + FilterArgs(rate), dl);
      LastOf(b + k + a, ft);
    }
  }

  /** With the thumbnail setting off, `--write-thumbnail` appears only if the
      custom arguments, time range or rate limit supply it. */
  lemma ThumbnailAbsent(sub: Named, userUid: string, redownload: bool, desiredPath: string, env: Env)
    requires !env.cfg.includeThumbnail && "--write-thumbnail" !in CustomTokens(sub)
    requires sub.timerange != "--write-thumbnail" && env.cfg.rateLimit != "--write-thumbnail"
    ensures "--write-thumbnail" !in BuildArgs(sub, userUid, redownload, desiredPath, env)
  {
    var dir := SubscriptionDir(sub, userUid, env.cfg);
    var f := "--write-thumbnail";
    BaseFree(sub, env.cfg, dir, redownload, desiredPath, f);
    QualityFree(sub, f);
    ArchiveFree(dir, env.archiveText, f);
    DateCount(sub, redownload, f);
    RateFree(env.cfg, BeforeRate(sub, userUid, redownload, desiredPath, env), f);
    NotInBuild(sub, userUid, redownload, desiredPath, env, f);
  }

  /** With any downloader but yt-dlp, `--no-clean-info-json` appears only if
      the custom arguments, time range or rate limit supply it. */
  lemma DownloaderFlagAbsent(sub: Named, userUid: string, redownload: bool, desiredPath: string, env: Env)
    requires env.cfg.downloader != "yt-dlp" && "--no-clean-info-json" !in CustomTokens(sub)
    requires sub.timerange != "--no-clean-info-json" && env.cfg.rateLimit != "--no-clean-info-json"
    ensures "--no-clean-info-json" !in BuildArgs(sub, userUid, redownload, desiredPath, env)
  {
    var dir := SubscriptionDir(sub, userUid, env.cfg);
    var f := "--no-clean-info-json";
    BaseFree(sub, env.cfg, dir, redownload, desiredPath, f);
    QualityFree(sub, f);
    ArchiveFree(dir, env.archiveText, f);
    DateCount(sub, redownload, f);
    RateFree(env.cfg, BeforeRate(sub, userUid, redownload, desiredPath, env), f);
    NotInBuild(sub, userUid, redownload, desiredPath, env, f);
  }

  /** The deny-list filter removes `--write-comments` and nothing else the
      custom arguments asked for: every other custom token is still there. */
  lemma CustomArgsSurvive(sub: Named, userUid: string, redownload: bool, desiredPath: string, env: Env, x: string)
    requires x != "--write-comments"
    ensures
      var r := BuildArgs(sub, userUid, redownload, desiredPath, env);
      "--write-comments" !in r && Count(r, x) >= Count(CustomTokens(sub), x)
  {
    var b, k, a, ft := Layout(sub, userUid, redownload, desiredPath, env);
    var t, d, rate := TailLayout(sub, userUid, redownload, desiredPath, env);
    FilterArgsMembers(t, x);
    CountLayout(b, k, a, ft, x);
    CountTailPieces(FilterArgs(t), FilterArgs(d), CookieArgs(env), ThumbnailArgs(env.cfg), FilterArgs(rate),
             DownloaderArgs(env.cfg), x);
  }
}
