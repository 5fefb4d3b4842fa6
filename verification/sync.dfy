/** One sync of a subscription (`getVideosForSub` with `getSubscription` and
    `handleOutputJSON`): the exclusivity guard on the `downloading` flag, the
    listing poll, the optional fresh-upload pass, the dedup filter and one
    download job per new item. The poll's parsed output, the clock and the
    probes are inputs. */
module Sync {
  import opened Model
  import opened Seqs
  import opened Args
  import opened DownloadOptions
  import opened Dedup
  import opened Fresh

  /** Number of running queue entries of the subscription. */
  function RunningCount(queue: seq<QueueEntry>, subId: string): (n: nat)
    ensures n <= |queue|
    ensures n == 0 <==> forall i :: 0 <= i < |queue| ==> !(queue[i].running && queue[i].subId == subId)
  {
    if queue == [] then 0
    else
      var rest := RunningCount(queue[1..], subId);
      assert forall i :: 1 <= i < |queue| ==> queue[i] == queue[1..][i - 1];
      (if queue[0].running && queue[0].subId == subId then 1 else 0) + rest
  }

  /** `getSubscription`: the stored record, with `downloading` also true while
      a queued download of the subscription is running. A missing record
      makes the source throw; here it is `None`. */
  function GetSubscription(db: Db, subId: string): (r: Option<Subscription>)
    ensures r.None? <==> subId !in db.subs
    ensures r.Some? ==> r.value.(downloading := db.subs[subId].downloading) == db.subs[subId]
    ensures r.Some? ==> (r.value.downloading <==>
      db.subs[subId].downloading
      || exists i :: 0 <= i < |db.queue| && db.queue[i].running && db.queue[i].subId == subId)
  {
    if subId !in db.subs then None
    else
      var s := db.subs[subId];
      Some(if s.downloading then s else s.(downloading := RunningCount(db.queue, subId) > 0))
  }

  /** `updateSubscriptionProperty(sub, {downloading: v})`: updates the record
      with that id, if there is one. */
  function SetDownloading(db: Db, subId: string, v: bool): (r: Db)
    ensures r.files == db.files && r.queue == db.queue && r.archive == db.archive
    ensures r.subs.Keys == db.subs.Keys
    ensures subId in r.subs ==> r.subs[subId] == db.subs[subId].(downloading := v)
    ensures forall id :: id in db.subs && id != subId ==> r.subs[id] == db.subs[id]
  {
    if subId in db.subs then db.(subs := db.subs[subId := db.subs[subId].(downloading := v)]) else db
  }

  /** The subscription is effectively downloading: its stored flag is set or
      one of its queued downloads is running. */
  predicate Downloading(db: Db, subId: string)
  {
    subId in db.subs
    && (db.subs[subId].downloading
        || exists i :: 0 <= i < |db.queue| && db.queue[i].running && db.queue[i].subId == subId)
  }

  datatype Refusal = Missing | Busy

  datatype Begin = Refused(why: Refusal) | Began(db: Db)

  /** The guard: refuse when the record is missing or effectively
      downloading, otherwise set the flag. */
  function BeginSync(db: Db, subId: string): (r: Begin)
    ensures r == Refused(Missing) <==> subId !in db.subs
    ensures r == Refused(Busy) <==> Downloading(db, subId)
    ensures r.Began? <==> subId in db.subs && !Downloading(db, subId)
    ensures r.Began? ==> subId in r.db.subs && r.db.subs[subId] == db.subs[subId].(downloading := true)
    ensures r.Began? ==> r.db == SetDownloading(db, subId, true)
  {
    var latest := GetSubscription(db, subId);
    if latest.None? then Refused(Missing)
    else if latest.value.downloading then Refused(Busy)
    else Began(SetDownloading(db, subId, true))
  }

  /** A download job as `createDownload` receives it. */
  datatype Job = Job(
    url: string,
    mediaType: string,
    options: Options,
    userUid: string,
    subId: string,
    subName: string,
    item: Item)

  function JobFor(sub: Named, userUid: string, cfg: Config, item: Item): Job
  {
    Job(item.webpageUrl, if sub.mediaType != "" then sub.mediaType else "video",
        OptionsFor(sub, userUid, cfg), userUid, sub.id, sub.name.value, item)
  }

  function Jobs(sub: Named, userUid: string, cfg: Config, items: seq<Item>): (r: seq<Job>)
    ensures |r| == |items|
    ensures forall k :: 0 <= k < |r| ==> r[k] == JobFor(sub, userUid, cfg, items[k])
  {
    seq(|items|, k requires 0 <= k < |items| => JobFor(sub, userUid, cfg, items[k]))
  }

  /** What `getVideosForSub` resolves to: `false`, `null`, the new items
      (here with the jobs created for them), or a rejection when the
      subscription has no name and its directory cannot be built. */
  datatype Outcome = NotStarted(why: Refusal) | Threw | PollFailed | Synced(jobs: seq<Job>)

  datatype SyncResult = SyncResult(
    outcome: Outcome,
    pollArgs: seq<string>,    // the listing poll's arguments; empty when no poll ran
    attempts: seq<Attempt>,   // the fresh-upload probes started
    db: Db)

  /** The fresh-upload pass, when configured: the store after it and the
      probes it starts. */
  function FreshPass(db: Db, sub: Named, userUid: string, env: Env, now: string,
                     probes: map<string, Probe>): (r: (Db, seq<Attempt>))
    ensures r.0.subs == db.subs && r.0.queue == db.queue && r.0.archive == db.archive
    ensures |r.0.files| == |db.files|
    ensures !env.cfg.redownloadFreshUploads ==> r == (db, [])
  {
    if env.cfg.redownloadFreshUploads then
      var today := Today(now);
      (Reconcile(db, sub, now, probes),
       Attempts(MarkFresh(db.files, sub.id, today), sub, userUid, today, env))
    else (db, [])
  }

  /** The listing poll and its callback, once the flag is held: the flag is
      cleared first; a failed poll then ends the sync, otherwise the
      fresh-upload pass runs and one job is created per new item. */
  function Polled(held: Db, sub: Named, userUid: string, env: Env, poll: Option<seq<Item>>,
                  now: string, probes: map<string, Probe>): SyncResult
  {
    var args := BuildArgs(sub, userUid, false, "", env);
    var db2 := SetDownloading(held, sub.id, false);
    if poll.None? then SyncResult(PollFailed, args, [], db2)
    else
      var (db3, attempts) := FreshPass(db2, sub, userUid, env, now, probes);
      if poll.value == [] then SyncResult(Synced([]), args, attempts, db3)
      else
        var accepted := NewItems(sub, db3, poll.value);
        SyncResult(Synced(Jobs(sub, userUid, env.cfg, accepted)), args, attempts, db3)
  }

  /** `getVideosForSub(sub, user_uid)` from start to finish, as written.
      `poll` is the parsed poll output, `None` when the poll failed. A
      subscription without a name takes the flag and then throws building
      its directory (line 236), before any poll: nothing clears the flag. */
  function SyncSub(db: Db, sub: Subscription, userUid: string, env: Env, poll: Option<seq<Item>>,
                   now: string, probes: map<string, Probe>): (r: SyncResult)
    ensures r.outcome == NotStarted(Missing) <==> sub.id !in db.subs
    ensures r.outcome == NotStarted(Busy) <==> Downloading(db, sub.id)
    ensures r.outcome.NotStarted? ==> r.db == db && r.pollArgs == [] && r.attempts == []
    ensures r.outcome == Threw <==> sub.id in db.subs && !Downloading(db, sub.id) && sub.name.None?
    ensures r.outcome == Threw ==> r.db == SetDownloading(db, sub.id, true) && r.pollArgs == [] && r.attempts == []
    ensures r.outcome == PollFailed <==>
      sub.id in db.subs && !Downloading(db, sub.id) && sub.name.Some? && poll.None?
    ensures r.outcome.PollFailed? || r.outcome.Synced? ==>
      sub.name.Some? && r.pollArgs == BuildArgs(sub, userUid, false, "", env)
  {
    match BeginSync(db, sub.id)
    case Refused(why) => SyncResult(NotStarted(why), [], [], db)
    case Began(held) =>
      if sub.name.None? then SyncResult(Threw, [], [], held)
      else Polled(held, sub, userUid, env, poll, now, probes)
  }

  /** `getVideosForSub` with the flag released on every exit: a nameless
      subscription still throws, but gives the flag back. In the source
      nothing guards lines 227-237; the throw at line 236 happens before the
      promise at line 244 is built, so the flag-clearing function at lines
      267-270 could not run for it even if it were attached as a handler. */
  function SyncSubReleasing(db: Db, sub: Subscription, userUid: string, env: Env, poll: Option<seq<Item>>,
                            now: string, probes: map<string, Probe>): (r: SyncResult)
    ensures var w := SyncSub(db, sub, userUid, env, poll, now, probes);
            && r.outcome == w.outcome && r.pollArgs == w.pollArgs && r.attempts == w.attempts
            && (w.outcome != Threw ==> r.db == w.db)
            && (w.outcome == Threw ==> r.db == SetDownloading(w.db, sub.id, false))
  {
    match BeginSync(db, sub.id)
    case Refused(why) => SyncResult(NotStarted(why), [], [], db)
    case Began(held) =>
      if sub.name.None? then SyncResult(Threw, [], [], SetDownloading(held, sub.id, false))
      else Polled(held, sub, userUid, env, poll, now, probes)
  }

  // ---------------------------------------------------------------------------
  // Properties

  /** The fresh-upload pass leaves the dedup verdicts alone: it changes only
      fresh flags and metrics. */
  lemma FreshPassKeepsDedup(db: Db, sub: Named, userUid: string, env: Env, now: string,
                            probes: map<string, Probe>, item: Item)
    ensures Accepts(sub, FreshPass(db, sub, userUid, env, now, probes).0, item) <==> Accepts(sub, db, item)
  {
    var db' := FreshPass(db, sub, userUid, env, now, probes).0;
    if env.cfg.redownloadFreshUploads {
      var today := Today(now);
      var marked := MarkFresh(db.files, sub.id, today);
      forall i | 0 <= i < |db.files|
        ensures db'.files[i].subId == db.files[i].subId && db'.files[i].url == db.files[i].url
        ensures db'.files[i].path == db.files[i].path
      {
        assert marked[i].subId == db.files[i].subId && marked[i].url == db.files[i].url;
        assert marked[i].path == db.files[i].path;
      }
      if HasFileWithUrl(db, sub.id, item.webpageUrl) {
        var i :| 0 <= i < |db.files| && db.files[i].subId == sub.id && db.files[i].url == item.webpageUrl;
        assert db'.files[i].subId == sub.id;
      }
      if HasFileWithPath(db, sub.id, item.filename) {
        var i :| 0 <= i < |db.files| && db.files[i].subId == sub.id && db.files[i].path == item.filename;
        assert db'.files[i].subId == sub.id;
      }
    }
  }

  /** Exclusivity: while a sync holds the flag, a second sync of the same
      subscription is refused as busy, and leaves the store untouched. */
  lemma SecondSyncRefused(db: Db, sub: Subscription, userUid: string, env: Env, poll: Option<seq<Item>>,
                          now: string, probes: map<string, Probe>)
    requires BeginSync(db, sub.id).Began?
    ensures var held := BeginSync(db, sub.id).db;
            var r := SyncSub(held, sub, userUid, env, poll, now, probes);
            r.outcome == NotStarted(Busy) && r.db == held && r.pollArgs == []
  {
  }

  /** Once the flag is held, the poll step leaves the subscriptions as
      clearing the flag does: the fresh-upload pass changes only files. */
  lemma PolledReleases(held: Db, sub: Named, userUid: string, env: Env, poll: Option<seq<Item>>,
                       now: string, probes: map<string, Probe>)
    ensures Polled(held, sub, userUid, env, poll, now, probes).db.subs == SetDownloading(held, sub.id, false).subs
  {
    var db2 := SetDownloading(held, sub.id, false);
    if poll.Some? {
      var pass := FreshPass(db2, sub, userUid, env, now, probes);
      assert Polled(held, sub, userUid, env, poll, now, probes).db == pass.0;
    }
  }

  /** The store after a sync: unchanged when it was refused, the held store
      when it threw, otherwise the held store with the flag cleared, apart
      from the fresh-upload pass's files. */
  lemma SyncStore(db: Db, sub: Subscription, userUid: string, env: Env, poll: Option<seq<Item>>,
                  now: string, probes: map<string, Probe>)
    ensures var r := SyncSub(db, sub, userUid, env, poll, now, probes);
            && (r.outcome.NotStarted? <==> BeginSync(db, sub.id).Refused?)
            && (r.outcome.NotStarted? ==> r.db == db)
            && (r.outcome.Threw? ==> r.db == BeginSync(db, sub.id).db)
            && (!r.outcome.NotStarted? && !r.outcome.Threw? ==>
                  r.db.subs == SetDownloading(BeginSync(db, sub.id).db, sub.id, false).subs)
  {
    match BeginSync(db, sub.id)
    case Refused(_) =>
    case Began(held) =>
      if sub.name.Some? {
        PolledReleases(held, sub, userUid, env, poll, now, probes);
      }
  }

  /** A sync that started releases the flag, whether or not the poll
      succeeded, unless it threw on a nameless subscription, which keeps the
      flag set; a sync that did not start changes nothing, and no other
      subscription is touched. */
  lemma FlagReleased(db: Db, sub: Subscription, userUid: string, env: Env, poll: Option<seq<Item>>,
                     now: string, probes: map<string, Probe>)
    ensures var r := SyncSub(db, sub, userUid, env, poll, now, probes);
            && (r.outcome.NotStarted? <==> BeginSync(db, sub.id).Refused?)
            && (r.outcome.NotStarted? ==> r.db == db)
            && (!r.outcome.NotStarted? ==>
                  sub.id in r.db.subs && (r.db.subs[sub.id].downloading <==> sub.name.None?))
            && (!r.outcome.NotStarted? ==> forall id :: id in db.subs && id != sub.id ==> id in r.db.subs && r.db.subs[id] == db.subs[id])
  {
    var r := SyncSub(db, sub, userUid, env, poll, now, probes);
    match BeginSync(db, sub.id)
    case Refused(_) =>
    case Began(held) =>
      if sub.name.Some? {
        PolledReleases(held, sub, userUid, env, poll, now, probes);
        var subs := SetDownloading(held, sub.id, false).subs;
        assert r.db.subs == subs;
      } else {
        assert r.db == held;
      }
  }

  /** As written, a nameless subscription's flag sticks: its sync throws
      holding the flag, and every later sync of the same record is refused
      as busy without changing anything, so it never gets released. */
  lemma NamelessSyncSticks(db: Db, sub: Subscription, userUid: string, env: Env, poll: Option<seq<Item>>,
                           now: string, probes: map<string, Probe>, later: Subscription, laterUid: string,
                           laterEnv: Env, laterPoll: Option<seq<Item>>, laterNow: string,
                           laterProbes: map<string, Probe>)
    requires sub.name.None? && BeginSync(db, sub.id).Began? && later.id == sub.id
    ensures var r := SyncSub(db, sub, userUid, env, poll, now, probes);
            var r2 := SyncSub(r.db, later, laterUid, laterEnv, laterPoll, laterNow, laterProbes);
            && r.outcome == Threw && sub.id in r.db.subs && r.db.subs[sub.id].downloading
            && r2.outcome == NotStarted(Busy) && r2.db == r.db
  {
  }

  /** With the flag released on every exit, a sync that started always gives
      the flag back, named or not, and touches no other subscription. */
  lemma ReleasingFreesFlag(db: Db, sub: Subscription, userUid: string, env: Env, poll: Option<seq<Item>>,
                           now: string, probes: map<string, Probe>)
    ensures var r := SyncSubReleasing(db, sub, userUid, env, poll, now, probes);
            && (r.outcome.NotStarted? <==> BeginSync(db, sub.id).Refused?)
            && (r.outcome.NotStarted? ==> r.db == db)
            && (!r.outcome.NotStarted? ==> sub.id in r.db.subs && !r.db.subs[sub.id].downloading)
            && (!r.outcome.NotStarted? ==> forall id :: id in db.subs && id != sub.id ==> id in r.db.subs && r.db.subs[id] == db.subs[id])
  {
    var b := BeginSync(db, sub.id);
    if b.Began? {
      if sub.name.Some? {
        FlagReleased(db, sub, userUid, env, poll, now, probes);
        ReleasingAgreesWhenNamed(db, sub, userUid, env, poll, now, probes);
      } else {
        var subs := SetDownloading(b.db, sub.id, false).subs;
        assert sub.id in subs && !subs[sub.id].downloading;
      }
    }
  }

  /** On a named subscription the releasing sync is the sync as written, so
      everything proved of one holds of the other. */
  lemma ReleasingAgreesWhenNamed(db: Db, sub: Named, userUid: string, env: Env, poll: Option<seq<Item>>,
                                 now: string, probes: map<string, Probe>)
    ensures SyncSubReleasing(db, sub, userUid, env, poll, now, probes) == SyncSub(db, sub, userUid, env, poll, now, probes)
  {
  }

  /** A successful sync creates one job per new item, in poll order, each
      carrying the item's page, the subscription's media type (`video` when
      unset), its download options and its identity. The new items are
      judged against the store as it was when the poll returned. */
  lemma JobsForNewItems(db: Db, sub: Named, userUid: string, env: Env, items: seq<Item>,
                        now: string, probes: map<string, Probe>)
    requires BeginSync(db, sub.id).Began?
    ensures var r := SyncSub(db, sub, userUid, env, Some(items), now, probes);
            var polled := SetDownloading(BeginSync(db, sub.id).db, sub.id, false);
            var accepted := NewItems(sub, polled, items);
            && r.outcome.Synced?
            && |r.outcome.jobs| == |accepted|
            && forall k :: 0 <= k < |accepted| ==>
                 var j := r.outcome.jobs[k];
                 && j.item == accepted[k] && j.url == accepted[k].webpageUrl
                 && j.mediaType == (if sub.mediaType == "" then "video" else sub.mediaType)
                 && j.options == OptionsFor(sub, userUid, env.cfg)
                 && j.subId == sub.id && j.subName == sub.name.value && j.userUid == userUid
  {
    var polled := SetDownloading(BeginSync(db, sub.id).db, sub.id, false);
    var db3 := FreshPass(polled, sub, userUid, env, now, probes).0;
    forall it | it in items
      ensures Acceptor(sub, db3)(it) == Acceptor(sub, polled)(it)
    {
      FreshPassKeepsDedup(polled, sub, userUid, env, now, probes, it);
    }
    FilterSameVerdicts(items, Acceptor(sub, db3), Acceptor(sub, polled));
  }

  /** A failed poll still runs the cleanup: no jobs, no fresh-upload pass, and
      the flag is released. */
  lemma PollFailureReleases(db: Db, sub: Named, userUid: string, env: Env, now: string,
                            probes: map<string, Probe>)
    requires BeginSync(db, sub.id).Began?
    ensures var r := SyncSub(db, sub, userUid, env, None, now, probes);
            && r.outcome == PollFailed && r.attempts == []
            && r.db == SetDownloading(db, sub.id, false)
  {
    var held := BeginSync(db, sub.id).db;
    assert SetDownloading(held, sub.id, false).subs == SetDownloading(db, sub.id, false).subs;
  }
}
