/** `generateOptionsForSubscriptionDownload`: the options record handed with
    every download job a sync creates. */
module DownloadOptions {
  import opened Model
  import opened Text
  import opened Paths
  import opened Args

  datatype Options = Options(
    maxHeight: Option<string>,      // null when unlimited
    customFileFolderPath: string,
    customOutput: string,
    customArchivePath: string,
    additionalArgs: string)

  /** The height cap is the subscription's `maxQuality` unless that is unset
      or `best`. */
  function MaxHeight(sub: Subscription): (r: Option<string>)
    ensures r.Some? <==> sub.maxQuality != "" && sub.maxQuality != "best"
    ensures r.Some? ==> r.value == sub.maxQuality
  {
    if sub.maxQuality != "" && sub.maxQuality != "best" then Some(sub.maxQuality) else None
  }

  /** The archive directory for the subscription: `<base>/archives/<name>`. */
  function ArchiveDir(cfg: Config, userUid: string, sub: Named): (r: string)
    ensures StartsWith(r, BasePath(cfg, userUid))
    ensures EndsWith(r, sub.name.value)
    ensures Includes(r, "archives")
  {
    var a := Join(BasePath(cfg, userUid), "archives");
    var r := Join(a, sub.name.value);
    assert StartsWith(r, BasePath(cfg, userUid)) by {
      assert r[..|a|] == a;
      assert r[..|BasePath(cfg, userUid)|] == a[..|BasePath(cfg, userUid)|];
    }
    assert OccursAt(r, "archives", |a| - 8) by {
      assert r[..|a|] == a;
      assert r[|a| - 8..|a|] == a[|a| - 8..];
    }
    r
  }

  /** The archive directory is never the subscription's download folder:
      below the same base, one continues with `archives`, the other with
      `playlists/` or `channels/`. */
  lemma {:induction false} ArchiveDirApart(cfg: Config, userUid: string, sub: Named)
    ensures ArchiveDir(cfg, userUid, sub) != AppendedBasePath(sub, BasePath(cfg, userUid))
  {
    var b := BasePath(cfg, userUid);
    var a, d := Join(b, "archives"), Join(b, KindDir(sub));
    var k := if b == "" then 0 else if b[|b| - 1] == '/' then |b| else |b| + 1;
    JoinPlacesName(b, "archives");
    JoinPlacesName(b, KindDir(sub));
    var r1, r2 := Join(a, sub.name.value), Join(d, sub.name.value);
    assert r1[k] == a[k] == 'a' by { assert r1[..|a|] == a; }
    assert r2[k] == d[k] != 'a' by { assert r2[..|d|] == d; }
  }

  function OptionsFor(sub: Named, userUid: string, cfg: Config): (r: Options)
    ensures r.maxHeight == MaxHeight(sub)
    ensures StartsWith(r.customFileFolderPath, BasePath(cfg, userUid))
    ensures sub.customOutput != "" ==> r.customOutput == sub.customOutput
    ensures sub.customOutput == "" && cfg.defaultFileOutput != "" ==> r.customOutput == cfg.defaultFileOutput
    ensures sub.customOutput == "" && cfg.defaultFileOutput == "" ==> r.customOutput == "%(title)s"
    ensures r.additionalArgs == sub.customArgs
    ensures r.customArchivePath == ArchiveDir(cfg, userUid, sub) && r.customArchivePath != r.customFileFolderPath
  {
    ArchiveDirApart(cfg, userUid, sub);
    Options(
      MaxHeight(sub),
      SubscriptionDir(sub, userUid, cfg),
      if sub.customOutput != "" then sub.customOutput else FileOutput(cfg),
      ArchiveDir(cfg, userUid, sub),
      sub.customArgs)
  }

  /** The options agree with the argument builder's listing poll for the same
      subscription: the folder and output template give the same stem the
      builder puts in its `-o` template, and for video a height cap is set
      exactly when the builder caps the height, at the same value. */
  lemma OptionsAgreeWithArgs(sub: Named, userUid: string, cfg: Config)
    ensures var o := OptionsFor(sub, userUid, cfg);
            o.customFileFolderPath + "/" + o.customOutput == OutputStem(sub, cfg, SubscriptionDir(sub, userUid, cfg), "")
    ensures var o := OptionsFor(sub, userUid, cfg);
            !IsAudio(sub) ==>
              (o.maxHeight.Some? <==> QualityArgs(sub) == ["-f", CappedVideo(sub.maxQuality), "--merge-output-format", "mp4"])
    ensures var o := OptionsFor(sub, userUid, cfg);
            !IsAudio(sub) && o.maxHeight.Some? ==> QualityArgs(sub)[1] == CappedVideo(o.maxHeight.value)
  {
  }
}
