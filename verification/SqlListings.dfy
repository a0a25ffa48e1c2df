/** Listings of the SQL repository, `ORDER BY created_at`: whatever order the database picks among equal
    stamps, and when that is the insertion order the in-memory repository lists in. */
module SqlListings {
  import opened Records
  import opened SqlTables

  // ---- Rows in stamp order -------------------------------------------------------------------

  ghost predicate Ascending<T>(rows: seq<T>, stamp: T -> nat) {
    forall i, j :: 0 <= i < j < |rows| ==> stamp(rows[i]) < stamp(rows[j])
  }

  lemma {:induction false} AscendingUnique<T>(a: seq<T>, b: seq<T>, stamp: T -> nat)
    requires Ascending(a, stamp) && Ascending(b, stamp)
    requires forall x :: x in a <==> x in b
    ensures a == b
  {
    assert a != [] ==> a[0] in a;
    assert b != [] ==> b[0] in b;
    if a != [] && b != [] {
      var x, y := a[|a| - 1], b[|b| - 1];
      assert x in b && y in a;
      assert x == y;
      var a', b' := a[..|a| - 1], b[..|b| - 1];
      forall z ensures z in a' <==> z in b' {
        assert z in a' <==> z in a && z != x;
        assert z in b' <==> z in b && z != y;
      }
      AscendingUnique(a', b', stamp);
      assert a == a' + [x] && b == b' + [y];
    }
  }

  // ---- Tool calls ----------------------------------------------------------------------------

  /** A result of `SELECT ... WHERE task_id AND tenant_id ORDER BY created_at`: the matching rows,
      each once, in an order the database may choose among rows with equal stamps. */
  ghost predicate IsListing(db: Db, t: Id, tenantId: string, rows: seq<ToolCall>) {
    && (forall i :: 0 <= i < |rows| ==>
          rows[i].callId in db.calls && db.calls[rows[i].callId] == rows[i]
          && rows[i].taskId == t && rows[i].tenantId == tenantId)
    && (forall c :: c in db.calls && db.calls[c].taskId == t && db.calls[c].tenantId == tenantId ==>
          db.calls[c] in rows)
    && (forall i, j :: 0 <= i < j < |rows| ==>
          rows[i].createdAt <= rows[j].createdAt && rows[i].callId != rows[j].callId)
  }

  /** Calls and records are stamped in the order they were first inserted. */
  ghost predicate StampedInOrder(s: Store) {
    && (forall c :: c in s.calls ==> c in s.callOrder && s.calls[c].callId == c)
    && (forall i :: 0 <= i < |s.callOrder| ==> s.callOrder[i] in s.calls)
    && (forall i, j :: 0 <= i < j < |s.callOrder| ==>
          s.calls[s.callOrder[i]].createdAt < s.calls[s.callOrder[j]].createdAt)
  }

  function CallStamp(call: ToolCall): nat {
    call.createdAt
  }

  lemma {:induction false} ListedAscend(s: Store, order: seq<Id>, t: Id, tenantId: string)
    requires forall i :: 0 <= i < |order| ==> order[i] in s.calls && s.calls[order[i]].callId == order[i]
    requires forall i, j :: 0 <= i < j < |order| ==> s.calls[order[i]].createdAt < s.calls[order[j]].createdAt
    ensures var rows := ListCalls(s.calls, order, t, tenantId);
            && Ascending(rows, CallStamp)
            && (forall c :: c in rows <==>
                  c.callId in order && s.calls[c.callId] == c && c.taskId == t && c.tenantId == tenantId)
  {
    if order != [] {
      var rest, last := order[..|order| - 1], order[|order| - 1];
      ListedAscend(s, rest, t, tenantId);
      assert forall c :: c in order <==> c in rest || c == last;
      var rows := ListCalls(s.calls, rest, t, tenantId);
      forall i | 0 <= i < |rows| ensures rows[i].createdAt < s.calls[last].createdAt {
        assert rows[i] in rows;
      }
    }
  }

  /** Whatever order the database picks, it lists a task's calls as the in-memory repository does. */
  lemma ListingsAgree(s: Store, db: Db, t: Id, tenantId: string, rows: seq<ToolCall>)
    requires Agree(s, db) && StampedInOrder(s) && IsListing(db, t, tenantId, rows)
    ensures rows == ListCalls(s.calls, s.callOrder, t, tenantId)
  {
    ListedAscend(s, s.callOrder, t, tenantId);
    forall i, j | 0 <= i < j < |rows| ensures rows[i].createdAt < rows[j].createdAt {
      DistinctStamps(s, rows[i].callId, rows[j].callId);
    }
    AscendingUnique(rows, ListCalls(s.calls, s.callOrder, t, tenantId), CallStamp);
  }

  lemma DistinctStamps(s: Store, c: Id, d: Id)
    requires StampedInOrder(s) && c in s.calls && d in s.calls && c != d
    ensures s.calls[c].createdAt != s.calls[d].createdAt
  {
    var i :| 0 <= i < |s.callOrder| && s.callOrder[i] == c;
    var j :| 0 <= j < |s.callOrder| && s.callOrder[j] == d;
    assert i < j || j < i;
  }

  // ---- Approval records ----------------------------------------------------------------------

  ghost predicate IsApprovalListing(db: Db, t: Id, tenantId: string, rows: seq<ApprovalRecord>) {
    && (forall i :: 0 <= i < |rows| ==>
          rows[i].recordId in db.approvals && db.approvals[rows[i].recordId] == rows[i]
          && rows[i].taskId == t && rows[i].tenantId == tenantId)
    && (forall r :: r in db.approvals && db.approvals[r].taskId == t && db.approvals[r].tenantId == tenantId ==>
          db.approvals[r] in rows)
    && (forall i, j :: 0 <= i < j < |rows| ==>
          rows[i].createdAt <= rows[j].createdAt && rows[i].recordId != rows[j].recordId)
  }

  ghost predicate RecordsInOrder(s: Store) {
    && (forall r :: r in s.approvals ==> r in s.approvalOrder && s.approvals[r].recordId == r)
    && (forall i :: 0 <= i < |s.approvalOrder| ==> s.approvalOrder[i] in s.approvals)
    && (forall i, j :: 0 <= i < j < |s.approvalOrder| ==>
          s.approvals[s.approvalOrder[i]].createdAt < s.approvals[s.approvalOrder[j]].createdAt)
  }

  function RecordStamp(record: ApprovalRecord): nat {
    record.createdAt
  }

  lemma {:induction false} ApprovalsAscend(s: Store, order: seq<Id>, t: Id, tenantId: string)
    requires forall i :: 0 <= i < |order| ==> order[i] in s.approvals && s.approvals[order[i]].recordId == order[i]
    requires forall i, j :: 0 <= i < j < |order| ==> s.approvals[order[i]].createdAt < s.approvals[order[j]].createdAt
    ensures var rows := ListApprovals(s.approvals, order, t, tenantId);
            && Ascending(rows, RecordStamp)
            && (forall r :: r in rows <==>
                  r.recordId in order && s.approvals[r.recordId] == r && r.taskId == t && r.tenantId == tenantId)
  {
    if order != [] {
      var rest, last := order[..|order| - 1], order[|order| - 1];
      ApprovalsAscend(s, rest, t, tenantId);
      assert forall r :: r in order <==> r in rest || r == last;
      var rows := ListApprovals(s.approvals, rest, t, tenantId);
      forall i | 0 <= i < |rows| ensures rows[i].createdAt < s.approvals[last].createdAt {
        assert rows[i] in rows;
      }
    }
  }

  /** The same for the ledger: both repositories list a task's records in the order they were opened. */
  lemma ApprovalListingsAgree(s: Store, db: Db, t: Id, tenantId: string, rows: seq<ApprovalRecord>)
    requires Agree(s, db) && RecordsInOrder(s) && IsApprovalListing(db, t, tenantId, rows)
    ensures rows == ListApprovals(s.approvals, s.approvalOrder, t, tenantId)
  {
    ApprovalsAscend(s, s.approvalOrder, t, tenantId);
    forall i, j | 0 <= i < j < |rows| ensures rows[i].createdAt < rows[j].createdAt {
      DistinctRecordStamps(s, rows[i].recordId, rows[j].recordId);
    }
    AscendingUnique(rows, ListApprovals(s.approvals, s.approvalOrder, t, tenantId), RecordStamp);
  }

  lemma DistinctRecordStamps(s: Store, q: Id, r: Id)
    requires RecordsInOrder(s) && q in s.approvals && r in s.approvals && q != r
    ensures s.approvals[q].createdAt != s.approvals[r].createdAt
  {
    var i :| 0 <= i < |s.approvalOrder| && s.approvalOrder[i] == q;
    var j :| 0 <= j < |s.approvalOrder| && s.approvalOrder[j] == r;
    assert i < j || j < i;
  }

  // ---- Events --------------------------------------------------------------------------------

  predicate EventAt(db: Db, t: Id, tenantId: string, k: nat) {
    k < |db.events| && db.events[k].taskId == t && db.events[k].tenantId == tenantId
  }

  /** A listing of a task's events, by their places in the table: each once, in the order of the stamps the
      database clock gave them. */
  ghost predicate IsEventListing(db: Db, t: Id, tenantId: string, places: seq<nat>)
    requires |db.eventStamps| == |db.events|
  {
    && (forall i :: 0 <= i < |places| ==> EventAt(db, t, tenantId, places[i]))
    && (forall k :: EventAt(db, t, tenantId, k) ==> k in places)
    && (forall i, j :: 0 <= i < j < |places| ==>
          places[i] != places[j] && db.eventStamps[places[i]] <= db.eventStamps[places[j]])
  }

  lemma {:induction false} EventsOfAre(events: seq<TaskEvent>, t: Id, tenantId: string)
    ensures var places := EventsOf(events, t, tenantId);
            && (forall k :: k in places <==>
                  0 <= k < |events| && events[k].taskId == t && events[k].tenantId == tenantId)
            && (forall i, j :: 0 <= i < j < |places| ==> places[i] < places[j])
  {
    if events != [] {
      var n := |events| - 1;
      EventsOfAre(events[..n], t, tenantId);
      var places := EventsOf(events[..n], t, tenantId);
      forall i | 0 <= i < |places| ensures places[i] < n {
        assert places[i] in places;
      }
    }
  }

  predicate NeverBack(stamps: seq<nat>, places: seq<nat>) {
    && (forall i :: 0 <= i < |places| ==> places[i] < |stamps|)
    && (forall i, j :: 0 <= i < j < |places| ==> stamps[places[i]] <= stamps[places[j]])
  }

  predicate AlwaysForth(stamps: seq<nat>, places: seq<nat>) {
    && (forall i :: 0 <= i < |places| ==> places[i] < |stamps|)
    && (forall i, j :: 0 <= i < j < |places| ==> stamps[places[i]] < stamps[places[j]])
  }

  /** SQL may list a task's events in the in-memory order exactly when the database clock never stepped
      back between them. */
  lemma EventOrderPossibleIff(db: Db, t: Id, tenantId: string)
    requires |db.eventStamps| == |db.events|
    ensures IsEventListing(db, t, tenantId, EventsOf(db.events, t, tenantId))
       <==> NeverBack(db.eventStamps, EventsOf(db.events, t, tenantId))
  {
    EventsOfAre(db.events, t, tenantId);
    var places := EventsOf(db.events, t, tenantId);
    forall i | 0 <= i < |places| ensures EventAt(db, t, tenantId, places[i]) {
      assert places[i] in places;
    }
  }

  ghost predicate ArePlaces(db: Db, t: Id, tenantId: string, own: seq<nat>) {
    && (forall k :: k in own ==> EventAt(db, t, tenantId, k))
    && (forall k :: EventAt(db, t, tenantId, k) ==> k in own)
    && (forall i, j :: 0 <= i < j < |own| ==> own[i] < own[j])
  }

  lemma OwnPlaces(db: Db, t: Id, tenantId: string)
    ensures ArePlaces(db, t, tenantId, EventsOf(db.events, t, tenantId))
  {
    EventsOfAre(db.events, t, tenantId);
  }

  lemma ForthUnique(db: Db, t: Id, tenantId: string, own: seq<nat>, places: seq<nat>)
    requires |db.eventStamps| == |db.events| && IsEventListing(db, t, tenantId, places)
    requires ArePlaces(db, t, tenantId, own) && AlwaysForth(db.eventStamps, own)
    ensures places == own
  {
    hide EventAt;
    var stamp := (k: nat) => if k < |db.eventStamps| then db.eventStamps[k] else 0;
    SamePlaces(db, t, tenantId, own, places);
    ListedForth(db, t, tenantId, own, places);
    hide IsEventListing;
    hide ArePlaces;
    AscendingUnique(places, own, stamp);
  }

  lemma SamePlaces(db: Db, t: Id, tenantId: string, own: seq<nat>, places: seq<nat>)
    requires |db.eventStamps| == |db.events|
    requires ArePlaces(db, t, tenantId, own) && IsEventListing(db, t, tenantId, places)
    ensures forall k :: k in places <==> k in own
  {
    hide EventAt;
    forall k | k in places ensures k in own {
      var i :| 0 <= i < |places| && places[i] == k;
      assert EventAt(db, t, tenantId, places[i]);
    }
  }

  lemma ListedForth(db: Db, t: Id, tenantId: string, own: seq<nat>, places: seq<nat>)
    requires |db.eventStamps| == |db.events|
    requires IsEventListing(db, t, tenantId, places) && AlwaysForth(db.eventStamps, own)
    requires forall k :: k in places <==> k in own
    ensures AlwaysForth(db.eventStamps, places)
  {
    hide EventAt;
    forall i | 0 <= i < |places| ensures places[i] in own && places[i] < |db.eventStamps| {
      assert places[i] in places;
    }
    forall i, j | 0 <= i < j < |places| ensures db.eventStamps[places[i]] < db.eventStamps[places[j]] {
      assert places[i] != places[j] && db.eventStamps[places[i]] <= db.eventStamps[places[j]];
      hide IsEventListing;
      var x :| 0 <= x < |own| && own[x] == places[i];
      var y :| 0 <= y < |own| && own[y] == places[j];
      assert x < y || y < x;
    }
  }

  function Swapped<T>(s: seq<T>, i: nat): seq<T>
    requires i + 1 < |s|
  {
    s[i := s[i + 1]][i + 1 := s[i]]
  }

  lemma SwappedSame<T>(s: seq<T>, i: nat)
    requires i + 1 < |s|
    ensures forall x :: x in Swapped(s, i) <==> x in s
  {
    var s' := Swapped(s, i);
    forall x | x in s ensures x in s' {
      var j :| 0 <= j < |s| && s[j] == x;
      assert s'[if j == i then i + 1 else if j == i + 1 then i else j] == x;
    }
  }

  /** Two neighbours with equal stamps may be listed either way round. */
  lemma TieSwaps(db: Db, t: Id, tenantId: string, own: seq<nat>, i: nat)
    requires |db.eventStamps| == |db.events| && i + 1 < |own|
    requires ArePlaces(db, t, tenantId, own) && NeverBack(db.eventStamps, own)
    requires db.eventStamps[own[i]] == db.eventStamps[own[i + 1]]
    ensures IsEventListing(db, t, tenantId, Swapped(own, i)) && Swapped(own, i) != own
  {
    hide EventAt;
    SwappedSame(own, i);
    var places := Swapped(own, i);
    assert own[i] < own[i + 1];
    forall j | 0 <= j < |places| ensures EventAt(db, t, tenantId, places[j]) {
      assert places[j] in places;
    }
    forall j, k | 0 <= j < k < |places|
      ensures places[j] != places[k] && db.eventStamps[places[j]] <= db.eventStamps[places[k]]
    {
      SwappedSorted(db.eventStamps, own, i, j, k);
    }
  }

  lemma SwappedSorted(stamps: seq<nat>, own: seq<nat>, i: nat, j: nat, k: nat)
    requires i + 1 < |own| && j < k < |own| && NeverBack(stamps, own)
    requires forall x, y :: 0 <= x < y < |own| ==> own[x] < own[y]
    requires stamps[own[i]] == stamps[own[i + 1]]
    ensures var places := Swapped(own, i);
            && places[j] != places[k] && places[j] < |stamps| && places[k] < |stamps|
            && stamps[places[j]] <= stamps[places[k]]
  {
    var x := if j == i then i + 1 else if j == i + 1 then i else j;
    var y := if k == i then i + 1 else if k == i + 1 then i else k;
    assert Swapped(own, i)[j] == own[x] && Swapped(own, i)[k] == own[y];
    assert x < y || (x == i + 1 && y == i);
  }

  lemma Tie(stamps: seq<nat>, places: seq<nat>) returns (i: nat)
    requires NeverBack(stamps, places) && !AlwaysForth(stamps, places)
    ensures i + 1 < |places| && stamps[places[i]] == stamps[places[i + 1]]
  {
    var k, j :| 0 <= k < j < |places| && stamps[places[k]] >= stamps[places[j]];
    i := k;
    assert stamps[places[i]] <= stamps[places[i + 1]] && (i + 1 < j ==> stamps[places[i + 1]] <= stamps[places[j]]);
  }

  /** SQL always lists a task's events in the in-memory order exactly when the database clock showed a later
      time at each of them than at the one before. */
  lemma EventOrderIff(db: Db, t: Id, tenantId: string)
    requires |db.eventStamps| == |db.events|
    ensures IsEventListing(db, t, tenantId, EventsOf(db.events, t, tenantId))
            && (forall places :: IsEventListing(db, t, tenantId, places) ==> places == EventsOf(db.events, t, tenantId))
       <==> AlwaysForth(db.eventStamps, EventsOf(db.events, t, tenantId))
  {
    var own := EventsOf(db.events, t, tenantId);
    EventOrderPossibleIff(db, t, tenantId);
    OwnPlaces(db, t, tenantId);
    ForthNeverBack(db.eventStamps, own);
    hide IsEventListing;
    hide ArePlaces;
    hide EventsOf;
    hide NeverBack;
    hide AlwaysForth;
    hide Swapped;
    if AlwaysForth(db.eventStamps, own) {
      forall places | IsEventListing(db, t, tenantId, places) ensures places == own {
        ForthUnique(db, t, tenantId, own, places);
      }
    } else if NeverBack(db.eventStamps, own) {
      var i := Tie(db.eventStamps, own);
      TieSwaps(db, t, tenantId, own, i);
    }
  }

  lemma ForthNeverBack(stamps: seq<nat>, places: seq<nat>)
    ensures AlwaysForth(stamps, places) ==> NeverBack(stamps, places)
  {
  }
}
