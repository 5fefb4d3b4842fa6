/** `getFilesToDownload`: which of the items a listing poll reported are new
    for a subscription, judged against the files table, the download queue
    and the archive ledger. */
module Dedup {
  import opened Model
  import opened Seqs

  /** A file of the subscription was downloaded from this page. */
  predicate HasFileWithUrl(db: Db, subId: string, url: string)
  {
    exists i :: 0 <= i < |db.files| && db.files[i].subId == subId && db.files[i].url == url
  }

  /** A queued download of this page for the subscription is still pending:
      it has not finished and has no error. */
  predicate HasPendingDownload(db: Db, subId: string, url: string)
  {
    exists i :: 0 <= i < |db.queue| && db.queue[i].subId == subId && db.queue[i].url == url
                && db.queue[i].error == None && !db.queue[i].finished
  }

  /** A file of the subscription already occupies this path. */
  predicate HasFileWithPath(db: Db, subId: string, path: string)
  {
    exists i :: 0 <= i < |db.files| && db.files[i].subId == subId && db.files[i].path == path
  }

  /** The archive key an item has for a subscription: extractor and id, under
      the subscription's media type, user and id. */
  function KeyOf(sub: Subscription, item: Item): ArchiveKey
  {
    ArchiveKey(item.extractor, item.id, sub.mediaType, sub.userUid, sub.id)
  }

  /** The per-item acceptance test, in the order the source applies it. */
  predicate Accepts(sub: Subscription, db: Db, item: Item)
  {
    && !HasFileWithUrl(db, sub.id, item.webpageUrl)
    && !HasPendingDownload(db, sub.id, item.webpageUrl)
    && !HasFileWithPath(db, sub.id, item.filename)
    && KeyOf(sub, item) !in db.archive
  }

  function Acceptor(sub: Subscription, db: Db): Item -> bool
  {
    item => Accepts(sub, db, item)
  }

  /** The reference definition: the accepted items, in poll order. */
  function NewItems(sub: Subscription, db: Db, items: seq<Item>): seq<Item>
  {
    Filter(items, Acceptor(sub, db))
  }

  /** The source's loop: one item at a time, skipping a known page, a pending
      download, an occupied path or an archived key. */
  method GetFilesToDownload(sub: Subscription, db: Db, items: seq<Item>) returns (r: seq<Item>)
    ensures r == NewItems(sub, db, items)
    ensures IsSubsequence(r, items)
    ensures forall i :: 0 <= i < |r| ==> r[i] in items && Accepts(sub, db, r[i])
    ensures forall i :: 0 <= i < |items| && Accepts(sub, db, items[i]) ==> items[i] in r
  {
    r := [];
    var i := 0;
    while i < |items|
      invariant 0 <= i <= |items|
      invariant r == NewItems(sub, db, items[..i])
    {
      var item := items[i];
      var fileMissing := !HasFileWithUrl(db, sub.id, item.webpageUrl)
                         && !HasPendingDownload(db, sub.id, item.webpageUrl);
      if fileMissing {
        if HasFileWithPath(db, sub.id, item.filename) {
          // a file with that path already exists: skipped
        } else if KeyOf(sub, item) in db.archive {
          // archived: skipped
        } else {
          r := r + [item];
        }
      }
      FilterAppend(items[..i], [item], Acceptor(sub, db));
      assert items[..i + 1] == items[..i] + [item];
      i := i + 1;
    }
    assert items[..|items|] == items;
    FilterMembers(items, Acceptor(sub, db));
    FilterIsSubsequence(items, Acceptor(sub, db));
  }

  /** The stores only grew: files and queue entries were appended and archive
      keys added. */
  predicate Grows(db: Db, db': Db)
  {
    && |db.files| <= |db'.files| && db'.files[..|db.files|] == db.files
    && |db.queue| <= |db'.queue| && db'.queue[..|db.queue|] == db.queue
    && db.archive <= db'.archive
  }

  /** An item turned away stays turned away while the stores only grow. */
  lemma RejectionPersists(sub: Subscription, db: Db, db': Db, item: Item)
    requires Grows(db, db') && !Accepts(sub, db, item)
    ensures !Accepts(sub, db', item)
  {
    if HasFileWithUrl(db, sub.id, item.webpageUrl) {
      var i :| 0 <= i < |db.files| && db.files[i].subId == sub.id && db.files[i].url == item.webpageUrl;
      assert db'.files[i] == db.files[i];
    } else if HasPendingDownload(db, sub.id, item.webpageUrl) {
      var i :| 0 <= i < |db.queue| && db.queue[i].subId == sub.id && db.queue[i].url == item.webpageUrl
               && db.queue[i].error == None && !db.queue[i].finished;
      assert db'.queue[i] == db.queue[i];
    } else if HasFileWithPath(db, sub.id, item.filename) {
      var i :| 0 <= i < |db.files| && db.files[i].subId == sub.id && db.files[i].path == item.filename;
      assert db'.files[i] == db.files[i];
    }
  }

  /** A pending queue entry for each item, as a download job for it adds. */
  function PendingEntries(sub: Subscription, items: seq<Item>): (r: seq<QueueEntry>)
    ensures |r| == |items|
    ensures forall k :: 0 <= k < |r| ==>
      r[k].subId == sub.id && r[k].url == items[k].webpageUrl && r[k].error == None && !r[k].finished
  {
    seq(|items|, k requires 0 <= k < |items| => QueueEntry(sub.id, items[k].webpageUrl, false, false, None))
  }

  function Enqueue(db: Db, sub: Subscription, items: seq<Item>): Db
  {
    db.(queue := db.queue + PendingEntries(sub, items))
  }

  /** Dedup is idempotent: once every accepted item has a pending download,
      the same poll output yields nothing new. */
  lemma RepollFindsNothing(sub: Subscription, db: Db, items: seq<Item>)
    ensures NewItems(sub, Enqueue(db, sub, NewItems(sub, db, items)), items) == []
  {
    var accepted := NewItems(sub, db, items);
    var db' := Enqueue(db, sub, accepted);
    assert db'.queue[..|db.queue|] == db.queue;
    FilterMembers(items, Acceptor(sub, db));
    forall i | 0 <= i < |items|
      ensures !Accepts(sub, db', items[i])
    {
      if Accepts(sub, db, items[i]) {
        var k :| 0 <= k < |accepted| && accepted[k] == items[i];
        var entries := PendingEntries(sub, accepted);
        assert db'.queue[|db.queue| + k] == entries[k];
      } else {
        RejectionPersists(sub, db, db', items[i]);
      }
    }
    FilterNone(items, Acceptor(sub, db'));
  }
}
