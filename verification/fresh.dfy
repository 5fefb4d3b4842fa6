/** The fresh-upload reconciler (`setFreshUploads`,
    `checkVideosForFreshUploads`, `checkVideoIfBetterExists`): files uploaded
    today are marked fresh; fresh files from earlier days are probed once for
    a better version and then stop being fresh. The clock and the two
    extractor calls of a probe are inputs. */
module Fresh {
  import opened Model
  import opened Seqs
  import opened Text
  import opened Args

  /** Today's date as `YYYYMMDD`: the date part of an ISO timestamp (before
      the `T`) with its dashes removed. */
  function Today(now: string): (r: string)
    ensures '-' !in r
    ensures IsSubsequence(r, Split(now, "T")[0])
    ensures |r| == |Split(now, "T")[0]| - Count(Split(now, "T")[0], '-')
  {
    StripDashes(Split(now, "T")[0])
  }

  /** For a timestamp `<date>T<time>`, today is the date with its dashes
      removed. */
  lemma TodayOfTimestamp(date: string, time: string)
    requires 'T' !in date
    ensures Today(date + "T" + time) == StripDashes(date)
  {
    SplitFirstPiece(date, "T", time);
  }

  /** A file's upload date in the same form. */
  function DayOf(f: FileRec): (r: string)
    ensures '-' !in r
  {
    StripDashes(f.uploadDate)
  }

  /** `setFreshUploads` selects the subscription's files uploaded today. */
  predicate MarkSelects(subId: string, today: string, f: FileRec)
  {
    f.subId == subId && today == DayOf(f)
  }

  /** `checkVideosForFreshUploads` selects the subscription's fresh files
      uploaded before today. */
  predicate CheckSelects(subId: string, today: string, f: FileRec)
  {
    f.subId == subId && f.freshUpload && Less(DayOf(f), today)
  }

  function MarkFile(subId: string, today: string, f: FileRec): FileRec
  {
    if MarkSelects(subId, today, f) then f.(freshUpload := true) else f
  }

  /** Every file uploaded today gets its fresh flag set; nothing else changes. */
  function MarkFresh(files: seq<FileRec>, subId: string, today: string): (r: seq<FileRec>)
    ensures |r| == |files|
    ensures forall i :: 0 <= i < |r| ==>
      r[i] == (if MarkSelects(subId, today, files[i]) then files[i].(freshUpload := true) else files[i])
  {
    seq(|files|, i requires 0 <= i < |files| => MarkFile(subId, today, files[i]))
  }

  /** What the two extractor calls of a probe report: `info` is the simulated
      download (None when it failed, else the reported metric, None when
      absent), `download` the real one (None when it failed, else the metric
      the file record is then given). */
  datatype Probe = Probe(info: Option<Option<int>>, download: Option<Option<int>>)

  /** The metric compared: average bitrate for audio, height otherwise. */
  function Metric(sub: Subscription, f: FileRec): Option<int>
  {
    if IsAudio(sub) then f.abr else f.height
  }

  function SetMetric(sub: Subscription, f: FileRec, m: Option<int>): FileRec
  {
    if IsAudio(sub) then f.(abr := m) else f.(height := m)
  }

  /** JavaScript's `>` where an absent value compares false either way. */
  predicate Greater(a: Option<int>, b: Option<int>)
  {
    a.Some? && b.Some? && a.value > b.value
  }

  /** A better version exists when the simulated download succeeded with a
      metric strictly above the stored one. */
  predicate Better(sub: Subscription, f: FileRec, p: Probe)
  {
    p.info.Some? && Greater(p.info.value, Metric(sub, f))
  }

  /** The probe's output path: the file's path without its four-character
      extension (`substring(0, length - 4)`, empty for shorter paths). */
  function DesiredPath(path: string): (r: string)
    ensures |path| >= 4 ==> path == r + path[|path| - 4..]
    ensures |path| < 4 ==> r == ""
  {
    if |path| >= 4 then path[..|path| - 4] else ""
  }

  /** The arguments both extractor calls of a probe use: redownload mode,
      writing to the file's own path. */
  function ProbeArgs(sub: Named, userUid: string, f: FileRec, env: Env): seq<string>
  {
    BuildArgs(sub, userUid, true, DesiredPath(f.path), env)
  }

  /** `checkVideoIfBetterExists` on one file: the metric is replaced only when
      a better version was found and downloaded; the fresh flag is always
      cleared. */
  function CheckFile(sub: Subscription, f: FileRec, p: Probe): (r: FileRec)
    ensures !r.freshUpload
    ensures r.uid == f.uid && r.subId == f.subId && r.url == f.url && r.path == f.path
    ensures r.uploadDate == f.uploadDate
    ensures Metric(sub, r) != Metric(sub, f) ==> Better(sub, f, p) && p.download.Some?
    ensures Better(sub, f, p) && p.download.Some? ==> Metric(sub, r) == p.download.value
    ensures (if IsAudio(sub) then r.height == f.height else r.abr == f.abr)
  {
    var g := if Better(sub, f, p) && p.download.Some? then SetMetric(sub, f, p.download.value) else f;
    g.(freshUpload := false)
  }

  /** The probe for a file, by uid; a file without one counts as a failed probe. */
  function ProbeFor(probes: map<string, Probe>, f: FileRec): Probe
  {
    if f.uid in probes then probes[f.uid] else Probe(None, None)
  }

  function CheckOne(sub: Subscription, today: string, probes: map<string, Probe>, f: FileRec): FileRec
  {
    if CheckSelects(sub.id, today, f) then CheckFile(sub, f, ProbeFor(probes, f)) else f
  }

  /** `checkVideosForFreshUploads`: every selected file is checked; the others
      are untouched. */
  function CheckFresh(files: seq<FileRec>, sub: Subscription, today: string, probes: map<string, Probe>)
    : (r: seq<FileRec>)
    ensures |r| == |files|
    ensures forall i :: 0 <= i < |r| ==>
      if CheckSelects(sub.id, today, files[i]) then !r[i].freshUpload && r[i].uid == files[i].uid
      else r[i] == files[i]
  {
    seq(|files|, i requires 0 <= i < |files| => CheckOne(sub, today, probes, files[i]))
  }

  /** The files the check pass probes, with the arguments it probes them with. */
  datatype Attempt = Attempt(uid: string, url: string, args: seq<string>)

  function AttemptFor(sub: Named, userUid: string, f: FileRec, env: Env): Attempt
  {
    Attempt(f.uid, f.url, ProbeArgs(sub, userUid, f, env))
  }

  function Attempts(files: seq<FileRec>, sub: Named, userUid: string, today: string, env: Env)
    : seq<Attempt>
    decreases |files|
  {
    if files == [] then []
    else
      var rest := Attempts(files[1..], sub, userUid, today, env);
      if CheckSelects(sub.id, today, files[0]) then [AttemptFor(sub, userUid, files[0], env)] + rest
      else rest
  }

  function Checker(subId: string, today: string): FileRec -> bool
  {
    f => CheckSelects(subId, today, f)
  }

  /** The whole reconciler: mark, then check against the marked files. */
  function Reconcile(db: Db, sub: Subscription, now: string, probes: map<string, Probe>): (r: Db)
    ensures r.subs == db.subs && r.queue == db.queue && r.archive == db.archive
    ensures |r.files| == |db.files|
  {
    var today := Today(now);
    db.(files := CheckFresh(MarkFresh(db.files, sub.id, today), sub, today, probes))
  }

  // ---------------------------------------------------------------------------
  // Properties

  /** A file uploaded today is never probed in the same pass: marking and
      checking use the same day and no day is before itself. */
  lemma MarkedNotChecked(sub: Subscription, today: string, f: FileRec)
    requires MarkSelects(sub.id, today, f)
    ensures !CheckSelects(sub.id, today, MarkFile(sub.id, today, f))
  {
    LessIrreflexive(today);
  }

  /** After a pass, the subscription's files uploaded today are fresh, the
      files probed are not, and every other file is as before. */
  lemma ReconcileEffect(db: Db, sub: Subscription, now: string, probes: map<string, Probe>, i: int)
    requires 0 <= i < |db.files|
    ensures var today := Today(now);
            var f, g := db.files[i], Reconcile(db, sub, now, probes).files[i];
            && (MarkSelects(sub.id, today, f) ==> g == f.(freshUpload := true))
            && (CheckSelects(sub.id, today, f) ==> !g.freshUpload && g.uid == f.uid)
            && (!MarkSelects(sub.id, today, f) && !CheckSelects(sub.id, today, f) ==> g == f)
  {
    var today := Today(now);
    var f := db.files[i];
    if MarkSelects(sub.id, today, f) {
      MarkedNotChecked(sub, today, f);
    } else {
      assert MarkFresh(db.files, sub.id, today)[i] == f;
    }
  }

  /** The check is one-shot: after a pass, a second pass on the same day finds
      nothing to probe. */
  lemma CheckIsOneShot(db: Db, sub: Subscription, now: string, probes: map<string, Probe>)
    ensures var today := Today(now);
            var files := Reconcile(db, sub, now, probes).files;
            forall i :: 0 <= i < |files| ==> !CheckSelects(sub.id, today, MarkFile(sub.id, today, files[i]))
  {
    var today := Today(now);
    var files := Reconcile(db, sub, now, probes).files;
    forall i | 0 <= i < |files|
      ensures !CheckSelects(sub.id, today, MarkFile(sub.id, today, files[i]))
    {
      ReconcileEffect(db, sub, now, probes, i);
      var f := db.files[i];
      var g := files[i];
      if MarkSelects(sub.id, today, g) {
        MarkedNotChecked(sub, today, g);
      } else if CheckSelects(sub.id, today, f) {
      } else if MarkSelects(sub.id, today, f) {
      } else {
        assert g == f;
      }
    }
  }

  /** Only the files the check selects are probed, each once, in file order,
      with redownload arguments aimed at the file's own path. */
  lemma {:induction false} AttemptsMatchSelection(files: seq<FileRec>, sub: Named, userUid: string,
                                                  today: string, env: Env)
    ensures var a := Attempts(files, sub, userUid, today, env);
            var sel := Filter(files, Checker(sub.id, today));
            |a| == |sel| && forall k :: 0 <= k < |a| ==> a[k] == AttemptFor(sub, userUid, sel[k], env)
    decreases |files|
  {
    if files != [] {
      AttemptsMatchSelection(files[1..], sub, userUid, today, env);
      var rest := Attempts(files[1..], sub, userUid, today, env);
      var tail := Filter(files[1..], Checker(sub.id, today));
      if CheckSelects(sub.id, today, files[0]) {
        assert Checker(sub.id, today)(files[0]);
        AttemptsPrepend(AttemptFor(sub, userUid, files[0], env), rest, files[0], tail,
                        f => AttemptFor(sub, userUid, f, env));
      } else {
        assert !Checker(sub.id, today)(files[0]);
      }
    }
  }

  /** Prepending matching heads keeps an elementwise correspondence. */
  lemma AttemptsPrepend(a: Attempt, rest: seq<Attempt>, f: FileRec, tail: seq<FileRec>, g: FileRec -> Attempt)
    requires a == g(f) && |rest| == |tail| && forall k :: 0 <= k < |rest| ==> rest[k] == g(tail[k])
    ensures var r, t := [a] + rest, [f] + tail;
            |r| == |t| && forall k :: 0 <= k < |r| ==> r[k] == g(t[k])
  {
    var r, t := [a] + rest, [f] + tail;
    forall k | 0 <= k < |r| ensures r[k] == g(t[k]) {
      if k > 0 {
        assert r[k] == rest[k - 1] && t[k] == tail[k - 1];
      }
    }
  }
}
