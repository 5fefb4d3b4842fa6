/** `subscribe` with `getSubscriptionInfo`: the playlist derivation, the
    missing-name URL collision check, the insert, the name taken from the
    info lines, its ` - <id>` suffix on a clash, the metadata write that
    throws on a missing name, and `getAllSubscriptions`' multi-user filter.
    The info poll's parsed output is an input. */
module Subscribe {
  import opened Model
  import opened Seqs
  import opened Text
  import opened Paths

  /** The fields of one parsed info line the name is taken from; `None` when
      the line lacks the field. */
  datatype InfoLine = InfoLine(playlistTitle: Option<string>, playlist: Option<string>, uploader: Option<string>)

  /** Some subscription of the user already follows this URL. */
  predicate UrlTaken(db: Db, url: string, userUid: string)
  {
    exists id :: id in db.subs && db.subs[id].url == url && db.subs[id].userUid == userUid
  }

  /** Some subscription of the user of the same kind already has this name. */
  predicate NameTaken(db: Db, name: string, isPlaylist: bool, userUid: string)
  {
    exists id :: id in db.subs && db.subs[id].name == Some(name) && db.subs[id].isPlaylist == isPlaylist
                 && db.subs[id].userUid == userUid
  }

  function CollisionMessage(url: string): string
  {
    "Subcription with URL " + url + " already exists! Custom name is required."
  }

  /** The name one info line offers: the playlist title (else the playlist)
      for a playlist, the uploader for a channel; missing when the line lacks
      the field. */
  function Candidate(isPlaylist: bool, line: InfoLine): Option<string>
  {
    if isPlaylist then (if Truthy(line.playlistTitle) then line.playlistTitle else line.playlist)
    else line.uploader
  }

  /** The line parsed and offers a usable, non-empty name. */
  predicate Offers(isPlaylist: bool, line: Option<InfoLine>)
  {
    line.Some? && Truthy(Candidate(isPlaylist, line.value))
  }

  /** The reference definition: the name of the first line that offers one,
      `None` when no line does. */
  function FirstName(isPlaylist: bool, lines: seq<Option<InfoLine>>): (r: Option<string>)
    ensures r.None? <==> forall i :: 0 <= i < |lines| ==> !Offers(isPlaylist, lines[i])
    ensures r.Some? ==> exists i :: 0 <= i < |lines| && Offers(isPlaylist, lines[i])
                                    && r == Candidate(isPlaylist, lines[i].value)
                                    && forall j :: 0 <= j < i ==> !Offers(isPlaylist, lines[j])
    decreases |lines|
  {
    if lines == [] then None
    else if Offers(isPlaylist, lines[0]) then Candidate(isPlaylist, lines[0].value)
    else
      var rest := FirstName(isPlaylist, lines[1..]);
      assert forall i :: 1 <= i < |lines| ==> lines[i] == lines[1..][i - 1];
      rest
  }

  /** The name left in memory when no line offers one: every line that parses
      overwrites it with its empty or missing candidate, so it is the last
      such line's candidate, or the starting name when no line parses. */
  function Fallback(isPlaylist: bool, start: Option<string>, lines: seq<Option<InfoLine>>): (r: Option<string>)
    ensures (forall i :: 0 <= i < |lines| ==> lines[i].None?) ==> r == start
    ensures (exists i :: 0 <= i < |lines| && lines[i].Some?) ==>
      exists i :: 0 <= i < |lines| && lines[i].Some? && r == Candidate(isPlaylist, lines[i].value)
                  && forall j :: i < j < |lines| ==> lines[j].None?
    decreases |lines|
  {
    if lines == [] then start
    else
      var next := if lines[0].Some? then Candidate(isPlaylist, lines[0].value) else start;
      assert forall i :: 1 <= i < |lines| ==> lines[i] == lines[1..][i - 1];
      Fallback(isPlaylist, next, lines[1..])
  }

  /** The name written to the record: the resolved name, with ` - <id>`
      appended when it is already taken. */
  function StoredName(db: Db, sub: Subscription, name: string): (r: string)
    ensures NameTaken(db, name, sub.isPlaylist, sub.userUid) ==> r == name + " - " + sub.id && |r| > |name|
    ensures !NameTaken(db, name, sub.isPlaylist, sub.userUid) ==> r == name
  {
    if NameTaken(db, name, sub.isPlaylist, sub.userUid) then name + " - " + sub.id else name
  }

  /** `updateRecord('subscriptions', {id}, {name})`. */
  function RenameRecord(db: Db, id: string, name: string): (r: Db)
    ensures r.files == db.files && r.queue == db.queue && r.archive == db.archive
    ensures r.subs.Keys == db.subs.Keys
    ensures id in r.subs ==> r.subs[id] == db.subs[id].(name := Some(name))
    ensures forall k :: k in db.subs && k != id ==> r.subs[k] == db.subs[k]
  {
    if id in db.subs then db.(subs := db.subs[id := db.subs[id].(name := Some(name))]) else db
  }

  /** `getSubscriptionInfo`'s loop over the lines, as written: while the
      in-memory name is not usable, each parsed line overwrites it with the
      name it offers; the first usable one is kept in memory unsuffixed and
      stored, suffixed on a clash, in the record. */
  function Resolve(db: Db, sub: Subscription, lines: seq<Option<InfoLine>>): (Subscription, Db)
    decreases |lines|
  {
    if lines == [] then (sub, db)
    else if lines[0].None? || Truthy(sub.name) then Resolve(db, sub, lines[1..])
    else
      var c := Candidate(sub.isPlaylist, lines[0].value);
      var db' := if Truthy(c) then RenameRecord(db, sub.id, StoredName(db, sub, c.value)) else db;
      Resolve(db', sub.(name := c), lines[1..])
  }

  /** The name in memory once the loop is done: a usable starting name is
      kept; otherwise the first offered name, else what the lines left. */
  function ResolvedName(isPlaylist: bool, start: Option<string>, lines: seq<Option<InfoLine>>): Option<string>
  {
    if Truthy(start) then start
    else if FirstName(isPlaylist, lines).Some? then FirstName(isPlaylist, lines)
    else Fallback(isPlaylist, start, lines)
  }

  /** The loop keeps the first offered name in memory and renames the record
      once, to that name suffixed on a clash; a subscription that already has
      a usable name is left alone. */
  lemma {:induction false} ResolveFindsFirstName(db: Db, sub: Subscription, lines: seq<Option<InfoLine>>)
    ensures var (s, db') := Resolve(db, sub, lines);
            var n := FirstName(sub.isPlaylist, lines);
            && s == sub.(name := ResolvedName(sub.isPlaylist, sub.name, lines))
            && db' == (if !Truthy(sub.name) && n.Some? then RenameRecord(db, sub.id, StoredName(db, sub, n.value))
                       else db)
    decreases |lines|
  {
    if lines != [] {
      if lines[0].None? || Truthy(sub.name) {
        ResolveFindsFirstName(db, sub, lines[1..]);
      } else {
        var c := Candidate(sub.isPlaylist, lines[0].value);
        var db' := if Truthy(c) then RenameRecord(db, sub.id, StoredName(db, sub, c.value)) else db;
        ResolveFindsFirstName(db', sub.(name := c), lines[1..]);
        if Truthy(c) {
          assert sub.(name := c).(name := c) == sub.(name := c);
        } else {
          assert forall x :: StoredName(db, sub.(name := c), x) == StoredName(db, sub, x);
        }
      }
    }
  }

  /** The info poll succeeds when some line parses. */
  predicate InfoSucceeds(output: Option<seq<Option<InfoLine>>>)
  {
    output.Some? && exists i :: 0 <= i < |output.value| && output.value[i].Some?
  }

  /** How `subscribe` ends: settled with its result object, or never, when the
      metadata write (line 39) throws inside the promise's executor and the
      returned promise is left pending; the record inserted before it stays.
      The write throws on a missing name (`path.join`, line 524) and when the
      subscription's folder does not exist yet: `writeJSONSync` (line 469)
      does not create it, and nothing on this path does before the first
      sync (line 237). */
  datatype SubscribeResult =
    | Settled(success: bool, error: string, sub: Option<Subscription>, startsSync: bool, db: Db)
    | Hangs(db: Db)

  /** A request without a usable name for a URL the user already follows. */
  predicate Collides(db: Db, req: Subscription, userUid: string)
  {
    !Truthy(req.name) && UrlTaken(db, req.url, userUid)
  }

  /** The playlist flag as `subscribe` derives it: given, or read off the URL. */
  function PlaylistFlag(req: Subscription): bool
  {
    req.isPlaylist || Includes(req.url, "playlist")
  }

  /** The subscription as inserted: the playlist flag derived and the user
      attached. */
  function Prepared(req: Subscription, userUid: string): Subscription
  {
    req.(isPlaylist := PlaylistFlag(req)).(userUid := userUid)
  }

  /** The name the info lines offer, when the info step runs and succeeds in
      the poll. */
  function OfferedName(req: Subscription, skipGetInfo: bool, output: Option<seq<Option<InfoLine>>>): Option<string>
  {
    if !skipGetInfo && output.Some? then FirstName(PlaylistFlag(req), output.value)
    else None
  }

  /** The name in memory after the info step. */
  function InfoName(req: Subscription, skipGetInfo: bool, output: Option<seq<Option<InfoLine>>>): Option<string>
  {
    if !skipGetInfo && output.Some? then
      ResolvedName(PlaylistFlag(req), req.name, output.value)
    else req.name
  }

  /** `subscribe(sub, user_uid, skip_get_info)` as written: the subscription
      handed to the first sync keeps the name in memory, without the suffix
      the record got. `output` is the info poll's parsed output, `None` when
      it failed; `folderExists` says whether the folder the metadata is
      written into already exists. */
  function SubscribeAsWritten(db: Db, req: Subscription, userUid: string, skipGetInfo: bool,
                              output: Option<seq<Option<InfoLine>>>, folderExists: bool): (r: SubscribeResult)
    ensures (r.Settled? && r.error != "") <==> Collides(db, req, userUid)
    ensures Collides(db, req, userUid) ==> r == Settled(false, CollisionMessage(req.url), None, false, db)
    ensures !Collides(db, req, userUid) ==>
      var s := Prepared(req, userUid);
      var db1 := db.(subs := db.subs[req.id := s]);
      var n := OfferedName(req, skipGetInfo, output);
      && r.db == (if !Truthy(req.name) && n.Some? then RenameRecord(db1, req.id, StoredName(db1, s, n.value)) else db1)
      && (r.Hangs? <==> InfoName(req, skipGetInfo, output).None? || !folderExists)
      && (r.Settled? ==>
            && r.sub == Some(s.(name := InfoName(req, skipGetInfo, output)))
            && (r.success <==> skipGetInfo || InfoSucceeds(output))
            && (r.startsSync <==> r.success && !req.paused))
      && (!Truthy(req.name) && n.Some? ==>
            && (folderExists ==> r.Settled? && r.sub.value.name == n)
            && req.id in r.db.subs && r.db.subs[req.id].name == Some(StoredName(db1, s, n.value)))
  {
    if Collides(db, req, userUid) then Settled(false, CollisionMessage(req.url), None, false, db)
    else
      var s := Prepared(req, userUid);
      var db1 := db.(subs := db.subs[req.id := s]);
      var success := skipGetInfo || InfoSucceeds(output);
      var (sub2, db2) := InfoStep(db1, s, skipGetInfo, output);
      if sub2.name.None? || !folderExists then Hangs(db2)
      else Settled(success, "", Some(sub2), success && !sub2.paused, db2)
  }

  /** The info step on the inserted subscription: skipped, or the loop over
      the lines of a poll that did not fail. */
  function InfoStep(db1: Db, s: Subscription, skipGetInfo: bool, output: Option<seq<Option<InfoLine>>>)
    : (r: (Subscription, Db))
    ensures var runs := !skipGetInfo && output.Some?;
            var n := if runs then FirstName(s.isPlaylist, output.value) else None;
            && r.0 == s.(name := if runs then ResolvedName(s.isPlaylist, s.name, output.value) else s.name)
            && r.1 == (if !Truthy(s.name) && n.Some? then RenameRecord(db1, s.id, StoredName(db1, s, n.value))
                       else db1)
  {
    if !skipGetInfo && output.Some? then
      ResolveFindsFirstName(db1, s, output.value);
      Resolve(db1, s, output.value)
    else (s, db1)
  }

  /** When `subscribe` hangs, the record it inserted stays. When it hung for
      want of a name, the record keeps the requested name, which is missing or
      empty: nothing renamed it; otherwise it hung on the missing folder. */
  lemma HangLeavesRecord(db: Db, req: Subscription, userUid: string, skipGetInfo: bool,
                         output: Option<seq<Option<InfoLine>>>, folderExists: bool)
    requires SubscribeAsWritten(db, req, userUid, skipGetInfo, output, folderExists).Hangs?
    ensures var r := SubscribeAsWritten(db, req, userUid, skipGetInfo, output, folderExists);
            && req.id in r.db.subs && r.db.subs[req.id].url == req.url
            && (InfoName(req, skipGetInfo, output).None? ==>
                  r.db.subs[req.id].name == req.name && !Truthy(req.name))
            && (InfoName(req, skipGetInfo, output).Some? ==> !folderExists)
  {
  }

  /** Without a collision, `subscribe` inserts the prepared record, which at
      most the info step renames, and touches nothing else in the store. */
  lemma InsertedRecord(db: Db, req: Subscription, userUid: string, skipGetInfo: bool,
                       output: Option<seq<Option<InfoLine>>>, folderExists: bool)
    ensures var w := SubscribeAsWritten(db, req, userUid, skipGetInfo, output, folderExists);
            !Collides(db, req, userUid) ==>
              && req.id in w.db.subs && w.db.subs.Keys == db.subs.Keys + {req.id}
              && w.db.subs[req.id] == Prepared(req, userUid).(name := w.db.subs[req.id].name)
              && (forall id :: id in db.subs && id != req.id ==> w.db.subs[id] == db.subs[id])
              && w.db.files == db.files && w.db.queue == db.queue && w.db.archive == db.archive
  {
  }

  /** `subscribe` with the record's name handed on: a subscription given to
      the first sync with a usable name is the stored record, suffix
      included. Only the hand-on is corrected: the metadata write before it
      is as written. */
  function Subscribe(db: Db, req: Subscription, userUid: string, skipGetInfo: bool,
                     output: Option<seq<Option<InfoLine>>>, folderExists: bool): (r: SubscribeResult)
    ensures (r.Settled? && r.error != "") <==> Collides(db, req, userUid)
    ensures Collides(db, req, userUid) ==> r == Settled(false, CollisionMessage(req.url), None, false, db)
    ensures !Collides(db, req, userUid) ==>
      && req.id in r.db.subs && r.db.subs.Keys == db.subs.Keys + {req.id}
      && (forall id :: id in db.subs && id != req.id ==> r.db.subs[id] == db.subs[id])
      && r.db.files == db.files && r.db.queue == db.queue && r.db.archive == db.archive
      && (r.Hangs? <==> InfoName(req, skipGetInfo, output).None? || !folderExists)
      && (r.Settled? ==>
            && r.sub.Some? && r.sub.value.id == req.id && r.sub.value.userUid == userUid
            && r.sub.value.isPlaylist == PlaylistFlag(req)
            && (r.success <==> skipGetInfo || InfoSucceeds(output))
            && (r.startsSync <==> r.success && !req.paused))
  {
    InsertedRecord(db, req, userUid, skipGetInfo, output, folderExists);
    var w := SubscribeAsWritten(db, req, userUid, skipGetInfo, output, folderExists);
    if w.Settled? && w.sub.Some? && Truthy(w.sub.value.name) then w.(sub := Some(w.db.subs[req.id]))
    else w
  }

  /** How the first sync's subscription is named: a usable given name is
      kept; otherwise the first name the info offers, suffixed with the id
      when a subscription of the same kind and user already has it; with no
      name offered, `subscribe` hangs unless what the lines left is an empty
      name. Whatever the name, it hangs when the folder is missing. */
  lemma SubscribeNames(db: Db, req: Subscription, userUid: string, skipGetInfo: bool,
                       output: Option<seq<Option<InfoLine>>>, folderExists: bool)
    ensures var r := Subscribe(db, req, userUid, skipGetInfo, output, folderExists);
            var s := Prepared(req, userUid);
            var db1 := db.(subs := db.subs[req.id := s]);
            var n := OfferedName(req, skipGetInfo, output);
            && (!Collides(db, req, userUid) && !folderExists ==> r.Hangs?)
            && (!Collides(db, req, userUid) && folderExists && Truthy(req.name) ==>
                  r.Settled? && r.sub.value.name == req.name)
            && (!Collides(db, req, userUid) && folderExists && !Truthy(req.name) && n.Some? ==>
                  r.Settled? && r.sub.value.name == Some(StoredName(db1, s, n.value)))
            && (!Collides(db, req, userUid) && folderExists && !Truthy(req.name) && n.None? ==>
                  && (r.Hangs? <==> InfoName(req, skipGetInfo, output).None?)
                  && (r.Settled? ==> !Truthy(r.sub.value.name)))
  {
  }

  /** A name clash on the first info poll: a subscription of the same kind and
      user already has the name the info offers. */
  predicate ClashOnName(db: Db, req: Subscription, userUid: string, output: Option<seq<Option<InfoLine>>>,
                        other: string)
  {
    var isPlaylist := PlaylistFlag(req);
    && !Truthy(req.name) && !UrlTaken(db, req.url, userUid) && output.Some?
    && other in db.subs && other != req.id
    && db.subs[other].name == FirstName(isPlaylist, output.value) && Truthy(db.subs[other].name)
    && db.subs[other].isPlaylist == isPlaylist && db.subs[other].userUid == userUid
  }

  /** As written, a clashing new subscription's metadata is written into,
      and its first sync runs in, the directory of the subscription it clashes
      with. That folder exists once the other subscription has synced, and
      then `subscribe` settles. */
  lemma ClashSharesDirectory(db: Db, req: Subscription, userUid: string, output: Option<seq<Option<InfoLine>>>,
                             folderExists: bool, other: string, base: string)
    requires ClashOnName(db, req, userUid, output, other)
    ensures var r := SubscribeAsWritten(db, req, userUid, false, output, folderExists);
            && (r.Settled? <==> folderExists)
            && (r.Settled? ==>
                  && r.sub.Some? && r.sub.value.name.Some? && db.subs[other].name.Some?
                  && AppendedBasePath(r.sub.value, base) == AppendedBasePath(db.subs[other], base))
  {
    var r := SubscribeAsWritten(db, req, userUid, false, output, folderExists);
    if r.Settled? {
      AppendedBasePathSeparates(r.sub.value, db.subs[other], base);
    }
  }

  /** With the stored name handed on, a clashing new subscription gets a
      directory of its own. */
  lemma ClashSeparatesDirectory(db: Db, req: Subscription, userUid: string, output: Option<seq<Option<InfoLine>>>,
                                folderExists: bool, other: string, base: string)
    requires ClashOnName(db, req, userUid, output, other)
    ensures var r := Subscribe(db, req, userUid, false, output, folderExists);
            && (r.Settled? <==> folderExists)
            && (r.Settled? ==>
                  && r.sub.Some? && r.sub.value.name.Some? && db.subs[other].name.Some?
                  && AppendedBasePath(r.sub.value, base) != AppendedBasePath(db.subs[other], base))
  {
    var n := OfferedName(req, false, output);
    var s := Prepared(req, userUid);
    var db1 := db.(subs := db.subs[req.id := s]);
    SubscribeNames(db, req, userUid, false, output, folderExists);
    var r := Subscribe(db, req, userUid, false, output, folderExists);
    if folderExists {
      assert db1.subs[other] == db.subs[other];
      assert NameTaken(db1, n.value, s.isPlaylist, s.userUid);
      AppendedBasePathSeparates(r.sub.value, db.subs[other], base);
    }
  }

  /** `getAllSubscriptions`: in multi-user mode the subscriptions that have a
      user, otherwise those that have none. */
  function AllSubscriptions(rows: seq<Subscription>, cfg: Config): (r: seq<Subscription>)
    ensures IsSubsequence(r, rows)
    ensures forall i :: 0 <= i < |r| ==> r[i] in rows && ((r[i].userUid != "") == cfg.multiUserMode)
    ensures forall i :: 0 <= i < |rows| && ((rows[i].userUid != "") == cfg.multiUserMode) ==> rows[i] in r
  {
    var p := (s: Subscription) => (s.userUid != "") == cfg.multiUserMode;
    FilterMembers(rows, p);
    FilterIsSubsequence(rows, p);
    Filter(rows, p)
  }
}
