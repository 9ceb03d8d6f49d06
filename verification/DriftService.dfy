/** The loops of `syncRouter` over the peers of one router, and the two ways of closing a peer drift in
    `src/server/drift-service.ts`. */
module DriftService {
  import opened Wrappers
  import opened RouterModel
  import opened Drift

  // ---------------------------------------------------------------------------------------------
  // The sync loops

  predicate RowsListed(order: seq<PeerId>, rows: map<PeerId, Tracked>) {
    && (forall p :: p in order ==> p in rows)
    && (forall i, j :: 0 <= i < j < |order| ==> order[i] != order[j])
  }

  /** `existing.rows.find`. */
  function FindRow(order: seq<PeerId>, rows: map<PeerId, Tracked>, remote: RemoteEntry): (r: Option<PeerId>)
    requires forall p :: p in order ==> p in rows
    ensures r.Some? ==> r.value in order && Answers(rows[r.value].row.Link(), remote)
    ensures r.None? ==> forall p :: p in order ==> !Answers(rows[p].row.Link(), remote)
    ensures r.Some? ==>
              exists i :: 0 <= i < |order| && order[i] == r.value
                          && forall j :: 0 <= j < i ==> !Answers(rows[order[j]].row.Link(), remote)
    decreases |order|
  {
    if order == [] then None
    else if Answers(rows[order[0]].row.Link(), remote) then Some(order[0])
    else FindRow(order[1..], rows, remote)
  }

  /** The remote peers a sync attributes to row `p`: known interface, and `p` is the first row that answers. */
  function Attributed(order: seq<PeerId>, rows: map<PeerId, Tracked>, p: PeerId, remotes: seq<RemoteEntry>,
                      known: set<string>): seq<RemoteEntry>
    requires forall q :: q in order ==> q in rows
    decreases |remotes|
  {
    if remotes == [] then []
    else
      var last := remotes[|remotes| - 1];
      Attributed(order, rows, p, remotes[..|remotes| - 1], known)
      + if last.peer.interfaceName in known && FindRow(order, rows, last) == Some(p) then [last] else []
  }

  function Ids(remotes: seq<RemoteEntry>): set<RemoteId> {
    set i | 0 <= i < |remotes| :: remotes[i].id
  }

  /** The result of the peer branch for row `p`. */
  function Synchronised(order: seq<PeerId>, rows: map<PeerId, Tracked>, p: PeerId, remotes: seq<RemoteEntry>,
                        known: set<string>): Tracked
    requires (forall q :: q in order ==> q in rows) && p in rows
  {
    SyncResult(rows[p], Attributed(order, rows, p, remotes, known), Ids(remotes))
  }

  ghost predicate ListsRouter(remotes: seq<RemoteEntry>, peers: map<RemoteId, RemotePeer>) {
    && (forall i :: 0 <= i < |remotes| ==> remotes[i].id in peers && peers[remotes[i].id] == remotes[i].peer)
    && (forall id :: id in peers ==> RemoteEntry(id, peers[id]) in remotes)
  }

  lemma {:induction false} AttributedExactly(order: seq<PeerId>, rows: map<PeerId, Tracked>, p: PeerId,
                                             remotes: seq<RemoteEntry>, known: set<string>)
    requires forall q :: q in order ==> q in rows
    ensures forall e :: e in Attributed(order, rows, p, remotes, known) <==>
                        e in remotes && e.peer.interfaceName in known && FindRow(order, rows, e) == Some(p)
    decreases |remotes|
  {
    hide FindRow;
    if remotes != [] {
      var n := |remotes| - 1;
      AttributedExactly(order, rows, p, remotes[..n], known);
      assert remotes == remotes[..n] + [remotes[n]];
    }
  }

  /** When every interface is known and no other row answers to the same remote peers, a sync sees of row `p` exactly
      the remote peers that answer to it, so the theorems about `SyncResult` apply. */
  lemma AttributionIsComplete(order: seq<PeerId>, rows: map<PeerId, Tracked>, p: PeerId, remotes: seq<RemoteEntry>,
                              known: set<string>, peers: map<RemoteId, RemotePeer>)
    requires RowsListed(order, rows) && p in order && ListsRouter(remotes, peers)
    requires forall e :: e in remotes ==> e.peer.interfaceName in known
    requires forall q, e :: q in order && q != p && e in remotes && Answers(rows[p].row.Link(), e) ==>
               !Answers(rows[q].row.Link(), e)
    ensures Lists(Attributed(order, rows, p, remotes, known), rows[p].row, peers) && Ids(remotes) == peers.Keys
  {
    hide Attributed, Answers;
    AttributedExactly(order, rows, p, remotes, known);
    forall e | e in remotes
      ensures FindRow(order, rows, e) == Some(p) <==> Answers(rows[p].row.Link(), e)
    {
    }
    assert forall id :: id in peers ==> RemoteEntry(id, peers[id]) in remotes;
    var mine := Attributed(order, rows, p, remotes, known);
    forall i | 0 <= i < |mine|
      ensures mine[i].id in peers && peers[mine[i].id] == mine[i].peer && Answers(rows[p].row.Link(), mine[i])
    {
      assert mine[i] in mine;
    }
  }

  /** Row `p` after the first loop went through `remotes`. */
  function SeenSoFar(order: seq<PeerId>, rows: map<PeerId, Tracked>, p: PeerId, remotes: seq<RemoteEntry>,
                     known: set<string>): Tracked
    requires (forall q :: q in order ==> q in rows) && p in rows
  {
    SeenAll(rows[p], rows[p].row, Attributed(order, rows, p, remotes, known))
  }

  lemma NothingSeenYet(order: seq<PeerId>, rows: map<PeerId, Tracked>, p: PeerId, known: set<string>)
    requires (forall q :: q in order ==> q in rows) && p in rows
    ensures SeenSoFar(order, rows, p, [], known) == rows[p]
  {
  }

  lemma OneMoreSeen(order: seq<PeerId>, rows: map<PeerId, Tracked>, p: PeerId, remotes: seq<RemoteEntry>,
                    known: set<string>, last: RemoteEntry)
    requires (forall q :: q in order ==> q in rows) && p in rows
    ensures SeenSoFar(order, rows, p, remotes + [last], known) ==
            if last.peer.interfaceName in known && FindRow(order, rows, last) == Some(p)
            then Seen(SeenSoFar(order, rows, p, remotes, known), rows[p].row, last)
            else SeenSoFar(order, rows, p, remotes, known)
  {
    hide Seen, FindRow;
    assert (remotes + [last])[..|remotes|] == remotes;
    var mine := Attributed(order, rows, p, remotes, known);
    assert (mine + [last])[..|mine|] == mine;
    assert mine + [] == mine;
  }

  predicate MissingFrom(was: Row, listed: set<RemoteId>) {
    was.remoteId.None? || was.remoteId.value !in listed
  }

  lemma MarkedRow(t: Tracked, was: Row, listed: set<RemoteId>)
    ensures MissingFrom(was, listed) <==> was.remoteId.None? || was.remoteId.value !in listed
    ensures MissingMarked(t, was, listed) ==
            if !MissingFrom(was, listed) then t
            else t.(row := t.row.(conflict := Some(if was.remoteId.Some? then DeletedExternally else DbOnly),
                                  sync := ChangedExternally))
  {
  }

  /** The remote peer changes a row it is attributed to. */
  predicate ReportsChange(order: seq<PeerId>, rows: map<PeerId, Tracked>, known: set<string>, e: RemoteEntry)
    requires forall q :: q in order ==> q in rows
  {
    var found := FindRow(order, rows, e);
    e.peer.interfaceName in known && found.Some? && Classify(Some(rows[found.value].row), Some(e.peer)).Changed?
  }

  predicate AnyReportsChange(order: seq<PeerId>, rows: map<PeerId, Tracked>, known: set<string>,
                             remotes: seq<RemoteEntry>)
    requires forall q :: q in order ==> q in rows
  {
    exists e :: e in remotes && ReportsChange(order, rows, known, e)
  }

  lemma NothingReportedYet(order: seq<PeerId>, rows: map<PeerId, Tracked>, known: set<string>)
    requires forall q :: q in order ==> q in rows
    ensures !AnyReportsChange(order, rows, known, [])
  {
  }

  lemma OneMoreReports(order: seq<PeerId>, rows: map<PeerId, Tracked>, known: set<string>, remotes: seq<RemoteEntry>,
                       last: RemoteEntry)
    requires forall q :: q in order ==> q in rows
    ensures AnyReportsChange(order, rows, known, remotes + [last]) <==>
              AnyReportsChange(order, rows, known, remotes) || ReportsChange(order, rows, known, last)
  {
    hide ReportsChange;
    assert forall e :: e in remotes + [last] <==> e in remotes || e == last;
    if ReportsChange(order, rows, known, last) { assert last in remotes + [last]; }
    if e :| e in remotes && ReportsChange(order, rows, known, e) { assert e in remotes + [last]; }
  }

  class SyncService {
    var rows: map<PeerId, Tracked>

    constructor (rows: map<PeerId, Tracked>)
      ensures this.rows == rows
    {
      this.rows := rows;
    }

    /** The loop over the listed peers. Importing unknown ones is only counted. */
    method SeePeers(order: seq<PeerId>, remotes: seq<RemoteEntry>, known: set<string>)
        returns (conflicts: nat, imported: nat, remoteIds: set<RemoteId>)
      requires RowsListed(order, rows)
      modifies this
      ensures rows.Keys == old(rows.Keys) && remoteIds == Ids(remotes)
      ensures forall p :: p in rows ==> rows[p] == SeenSoFar(order, old(rows), p, remotes, known)
      ensures conflicts > 0 <==> AnyReportsChange(order, old(rows), known, remotes)
    {
      hide SeenSoFar, Seen, FindRow, Classify, AnyReportsChange;
      var was := rows;
      remoteIds := {};
      conflicts, imported := 0, 0;
      NothingReportedYet(order, was, known);
      assert remotes[..0] == [];
      forall p | p in was ensures SeenSoFar(order, was, p, remotes[..0], known) == was[p] {
        NothingSeenYet(order, was, p, known);
      }
      for k := 0 to |remotes|
        invariant rows.Keys == was.Keys && remoteIds == Ids(remotes[..k])
        invariant forall p :: p in was ==> rows[p] == SeenSoFar(order, was, p, remotes[..k], known)
        invariant conflicts > 0 <==> AnyReportsChange(order, was, known, remotes[..k])
      {
        var remote := remotes[k];
        assert remotes[..k + 1] == remotes[..k] + [remote];
        OneMoreReports(order, was, known, remotes[..k], remote);
        forall p | p in was
          ensures SeenSoFar(order, was, p, remotes[..k + 1], known) ==
                  if remote.peer.interfaceName in known && FindRow(order, was, remote) == Some(p)
                  then Seen(rows[p], was[p].row, remote) else rows[p]
        {
          OneMoreSeen(order, was, p, remotes[..k], known, remote);
        }
        remoteIds := remoteIds + {remote.id};
        if remote.peer.interfaceName !in known { continue; }
        var found := FindRow(order, was, remote);
        if found.None? {
          imported := imported + 1;
          continue;
        }
        var p := found.value;
        rows := rows[p := Seen(rows[p], was[p].row, remote)];
        if Classify(Some(was[p].row), Some(remote.peer)).Changed? { conflicts := conflicts + 1; }
      }
      assert remotes[..|remotes|] == remotes;
    }

    /** The loop over the rows as they were read before the sync. */
    method MarkMissing(order: seq<PeerId>, was: map<PeerId, Tracked>, remoteIds: set<RemoteId>) returns (missing: nat)
      requires RowsListed(order, rows) && rows.Keys == was.Keys
      modifies this
      ensures rows.Keys == old(rows.Keys)
      ensures forall p :: p in order ==> rows[p] == MissingMarked(old(rows)[p], was[p].row, remoteIds)
      ensures forall p :: p in rows && p !in order ==> rows[p] == old(rows)[p]
      ensures missing > 0 <==> exists p :: p in order && MissingFrom(was[p].row, remoteIds)
    {
      hide MissingMarked, MissingFrom;
      ghost var before := rows;
      missing := 0;
      for j := 0 to |order|
        invariant rows.Keys == was.Keys
        invariant forall i :: 0 <= i < j ==>
                    rows[order[i]] == MissingMarked(before[order[i]], was[order[i]].row, remoteIds)
        invariant forall p :: p in before && p !in order[..j] ==> rows[p] == before[p]
        invariant missing > 0 <==> exists p :: p in order[..j] && MissingFrom(was[p].row, remoteIds)
      {
        var p := order[j];
        assert order[..j + 1] == order[..j] + [p];
        var row, marked := was[p].row, rows[p];
        MarkedRow(marked, row, remoteIds);
        if row.remoteId.Some? && row.remoteId.value !in remoteIds {
          marked := marked.(row := marked.row.(conflict := Some(DeletedExternally), sync := ChangedExternally));
          missing := missing + 1;
        } else if row.remoteId.None? {
          marked := marked.(row := marked.row.(conflict := Some(DbOnly), sync := ChangedExternally));
          missing := missing + 1;
        }
        rows := rows[p := marked];
      }
      assert order[..|order|] == order;
    }

    /** The peer branch of `syncRouter`; `order` is the order in which the database lists the rows. The run counts as
        partial exactly when some row was changed or is missing. */
    method SyncPeers(order: seq<PeerId>, remotes: seq<RemoteEntry>, known: set<string>) returns (partial: bool)
      requires RowsListed(order, rows)
      modifies this
      ensures rows.Keys == old(rows.Keys)
      ensures forall p :: p in order ==> rows[p] == Synchronised(order, old(rows), p, remotes, known)
      ensures partial <==>
                AnyReportsChange(order, old(rows), known, remotes)
                || exists p :: p in order && MissingFrom(old(rows)[p].row, Ids(remotes))
    {
      hide Seen, SeenAll, MissingMarked, FindRow, Classify, MissingFrom, AnyReportsChange, Attributed;
      var was := rows;
      var conflicts, imported, remoteIds := SeePeers(order, remotes, known);
      var missing := MarkMissing(order, was, remoteIds);
      partial := conflicts > 0 || missing > 0;
    }
  }
}
