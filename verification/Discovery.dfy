// discovery/service.py and discovery/repository.py: candidates stored by id, one per chain and pool, and an event
// each time one is found newly qualified by a snapshot that is published.
module Discovery {
  import opened Schemas

  datatype CandidateStatus = OBSERVED | QUALIFIED | REJECTED | EXPIRED

  datatype Candidate = Candidate(id: string, chain: Chain, pool: string, status: CandidateStatus)

  // What the scanner made of a snapshot, and whether it is published at all: an observe-only source of flow snapshots
  // writes the row and nothing else, and so does a process that dies between the row and the event.
  datatype Snapshot = Snapshot(found: Candidate, publish: bool)

  type Rows = map<string, Candidate>

  predicate SamePool(a: Candidate, b: Candidate) { a.chain == b.chain && a.pool == b.pool }

  // INSERT OR REPLACE under two unique keys: the id, and the chain with the pool address.
  function Upserted(rows: Rows, c: Candidate): Rows {
    (map id | id in rows && !SamePool(rows[id], c) :: rows[id])[c.id := c]
  }

  predicate QualifiedRow(rows: Rows, id: string) { id in rows && rows[id].status == QUALIFIED }

  // The candidate rows, and the candidates announced as qualified on the stream.
  datatype State = State(rows: Rows, qualified: seq<string>)

  const EMPTY := State(map[], [])

  predicate Announces(rows: Rows, x: Snapshot) {
    x.publish && x.found.status == QUALIFIED && !QualifiedRow(rows, x.found.id)
  }

  function Ingested(s: State, x: Snapshot): State {
    State(Upserted(s.rows, x.found), s.qualified + if Announces(s.rows, x) then [x.found.id] else [])
  }

  function Ran(xs: seq<Snapshot>, n: nat): State
    requires n <= |xs|
  {
    if n == 0 then EMPTY else Ingested(Ran(xs, n - 1), xs[n - 1])
  }

  // How often a candidate has been announced.
  function Announced(xs: seq<Snapshot>, n: nat, id: string): nat
    requires n <= |xs|
  {
    multiset(Ran(xs, n).qualified)[id]
  }

  class AlphaDiscoveryStore {
    var rows: Rows

    constructor ()
      ensures rows == map[]
    {
      rows := map[];
    }

    method UpsertCandidate(c: Candidate)
      modifies this
      ensures rows == Upserted(old(rows), c)
    {
      var replaced := set id | id in rows && SamePool(rows[id], c);
      rows := (rows - replaced)[c.id := c];
    }

    method LoadCandidate(id: string) returns (c: Option<Candidate>)
      ensures c == if id in rows then Some(rows[id]) else None
    {
      if id in rows {
        return Some(rows[id]);
      }
      c := None;
    }
  }

  class AlphaSyncService {
    const store: AlphaDiscoveryStore
    var qualified: seq<string>

    constructor (store: AlphaDiscoveryStore)
      ensures this.store == store && qualified == []
    {
      this.store, qualified := store, [];
    }

    method PublishQualified(previous: Option<Candidate>, c: Candidate)
      modifies this
      ensures qualified == old(qualified)
        + if c.status == QUALIFIED && !(previous.Some? && previous.value.status == QUALIFIED) then [c.id] else []
    {
      if c.status != QUALIFIED {
        return;
      }
      if previous.Some? && previous.value.status == QUALIFIED {
        return;
      }
      qualified := qualified + [c.id];
    }

    // The previous row is read before it is overwritten.
    method IngestSnapshot(x: Snapshot)
      modifies this, store
      ensures State(store.rows, qualified) == Ingested(State(old(store.rows), old(qualified)), x)
    {
      var previous := store.LoadCandidate(x.found.id);
      store.UpsertCandidate(x.found);
      if x.publish {
        PublishQualified(previous, x.found);
      }
    }
  }

  // --- history -----------------------------------------------------------------------------------

  // The last snapshot of a candidate among the first n.
  function Last(xs: seq<Snapshot>, n: nat, id: string): Option<Candidate>
    requires n <= |xs|
  {
    if n == 0 then None else if xs[n - 1].found.id == id then Some(xs[n - 1].found) else Last(xs, n - 1, id)
  }

  // A candidate of another id has taken its pool since.
  predicate Evicted(xs: seq<Snapshot>, n: nat, id: string)
    requires n <= |xs|
  {
    && n > 0 && xs[n - 1].found.id != id
    && (Evicted(xs, n - 1, id)
        || (Last(xs, n - 1, id).Some? && SamePool(Last(xs, n - 1, id).value, xs[n - 1].found)))
  }

  predicate WasQualified(xs: seq<Snapshot>, n: nat, id: string)
    requires n <= |xs|
  {
    Last(xs, n, id).Some? && Last(xs, n, id).value.status == QUALIFIED
  }

  predicate QualifiedAt(xs: seq<Snapshot>, n: nat, id: string)
    requires 0 < n <= |xs|
  {
    xs[n - 1].found.id == id && xs[n - 1].found.status == QUALIFIED
  }

  // The n-th snapshot lifts the candidate into QUALIFIED.
  predicate RisesAt(xs: seq<Snapshot>, n: nat, id: string)
    requires 0 < n <= |xs|
  {
    QualifiedAt(xs, n, id) && !WasQualified(xs, n - 1, id)
  }

  // It finds the candidate QUALIFIED still, but its row gone.
  predicate RelapsesAt(xs: seq<Snapshot>, n: nat, id: string)
    requires 0 < n <= |xs|
  {
    QualifiedAt(xs, n, id) && WasQualified(xs, n - 1, id) && Evicted(xs, n - 1, id)
  }

  // Published snapshots that lift it, that find it gone, and snapshots that lift it without being published.
  function Rises(xs: seq<Snapshot>, n: nat, id: string): nat
    requires n <= |xs|
  {
    if n == 0 then 0 else Rises(xs, n - 1, id) + if RisesAt(xs, n, id) && xs[n - 1].publish then 1 else 0
  }

  function Relapses(xs: seq<Snapshot>, n: nat, id: string): nat
    requires n <= |xs|
  {
    if n == 0 then 0 else Relapses(xs, n - 1, id) + if RelapsesAt(xs, n, id) && xs[n - 1].publish then 1 else 0
  }

  function SilentRises(xs: seq<Snapshot>, n: nat, id: string): nat
    requires n <= |xs|
  {
    if n == 0 then 0 else SilentRises(xs, n - 1, id) + if RisesAt(xs, n, id) && !xs[n - 1].publish then 1 else 0
  }

  // A row is the candidate's last snapshot, unless it was evicted.
  lemma {:induction false} RowIsLast(xs: seq<Snapshot>, n: nat, id: string)
    requires n <= |xs|
    ensures var rows := Ran(xs, n).rows;
      && (id in rows <==> Last(xs, n, id).Some? && !Evicted(xs, n, id))
      && (id in rows ==> Some(rows[id]) == Last(xs, n, id))
  {
    if n > 0 {
      RowIsLast(xs, n - 1, id);
    }
  }

  // Exactly how often a candidate is announced, over any run of snapshots of any candidates, published or not.
  lemma {:induction false} AnnouncedExactly(xs: seq<Snapshot>, n: nat, id: string)
    requires n <= |xs|
    ensures Announced(xs, n, id) == Rises(xs, n, id) + Relapses(xs, n, id)
  {
    if n > 0 {
      AnnouncedExactly(xs, n - 1, id);
      AnnouncedAt(xs, n, id);
      CountedAt(xs, n, id);
    }
  }

  lemma CountedAt(xs: seq<Snapshot>, n: nat, id: string)
    requires 0 < n <= |xs|
    ensures Rises(xs, n, id) + Relapses(xs, n, id) == Rises(xs, n - 1, id) + Relapses(xs, n - 1, id)
      + if xs[n - 1].publish && (RisesAt(xs, n, id) || RelapsesAt(xs, n, id)) then 1 else 0
  {
  }

  lemma CountSnoc(s: seq<string>, x: string, id: string)
    ensures multiset(s + [x])[id] == multiset(s)[id] + if x == id then 1 else 0
  {
  }

  // A snapshot is announced exactly if it is published and a rise or a relapse of its candidate.
  lemma AnnouncedWhen(xs: seq<Snapshot>, n: nat)
    requires 0 < n <= |xs|
    ensures var x := xs[n - 1];
      Announces(Ran(xs, n - 1).rows, x)
      <==> x.publish && (RisesAt(xs, n, x.found.id) || RelapsesAt(xs, n, x.found.id))
  {
    RowIsLast(xs, n - 1, xs[n - 1].found.id);
  }

  lemma AnnouncedAt(xs: seq<Snapshot>, n: nat, id: string)
    requires 0 < n <= |xs|
    ensures Announced(xs, n, id) == Announced(xs, n - 1, id)
      + if xs[n - 1].publish && (RisesAt(xs, n, id) || RelapsesAt(xs, n, id)) then 1 else 0
  {
    var s, x := Ran(xs, n - 1), xs[n - 1];
    AnnouncedWhen(xs, n);
    if Announces(s.rows, x) {
      CountSnoc(s.qualified, x.found.id, id);
    } else {
      assert Ingested(s, x).qualified == s.qualified;
    }
  }

  // --- pools of one's own ------------------------------------------------------------------------

  lemma {:induction false} LastIsOwn(xs: seq<Snapshot>, n: nat, id: string)
    requires n <= |xs| && Last(xs, n, id).Some?
    ensures exists x :: x in xs && x.found == Last(xs, n, id).value && x.found.id == id
  {
    if xs[n - 1].found.id != id {
      LastIsOwn(xs, n - 1, id);
    } else {
      assert xs[n - 1] in xs;
    }
  }

  // No candidate of another id is in a pool of this one.
  predicate OwnPool(xs: seq<Snapshot>, id: string) {
    forall a, b | a in xs && b in xs && a.found.id == id && b.found.id != id :: !SamePool(a.found, b.found)
  }

  lemma {:induction false} OwnPoolStays(xs: seq<Snapshot>, n: nat, id: string)
    requires n <= |xs| && OwnPool(xs, id)
    ensures !Evicted(xs, n, id) && Relapses(xs, n, id) == 0
  {
    if n > 0 {
      OwnPoolStays(xs, n - 1, id);
      if Last(xs, n - 1, id).Some? {
        LastIsOwn(xs, n - 1, id);
        assert xs[n - 1] in xs;
      }
    }
  }

  // In any run, among candidates of any kind: one that shares no pool with another is announced once for each rise
  // into QUALIFIED whose snapshot is published.
  lemma OwnPoolEdges(xs: seq<Snapshot>, n: nat, id: string)
    requires n <= |xs| && OwnPool(xs, id)
    ensures Announced(xs, n, id) == Rises(xs, n, id)
  {
    AnnouncedExactly(xs, n, id);
    OwnPoolStays(xs, n, id);
  }

  // The n-th snapshot does not find it in another status.
  predicate KeepsQualified(xs: seq<Snapshot>, n: nat, id: string)
    requires 0 < n <= |xs|
  {
    xs[n - 1].found.id == id ==> xs[n - 1].found.status == QUALIFIED
  }

  lemma StillQualified(xs: seq<Snapshot>, n: nat, id: string)
    requires 0 < n <= |xs| && WasQualified(xs, n - 1, id) && KeepsQualified(xs, n, id) && !Evicted(xs, n - 1, id)
    ensures WasQualified(xs, n, id)
    ensures Announced(xs, n, id) == Announced(xs, n - 1, id)
  {
    AnnouncedAt(xs, n, id);
  }

  lemma RiseAnnounced(xs: seq<Snapshot>, n: nat, id: string)
    requires 0 < n <= |xs| && RisesAt(xs, n, id)
    ensures WasQualified(xs, n, id)
    ensures Announced(xs, n, id) == Announced(xs, n - 1, id) + if xs[n - 1].publish then 1 else 0
  {
    AnnouncedAt(xs, n, id);
  }

  // A rise that is not published is never made up for: while the candidate stays QUALIFIED in a pool of its own, later
  // snapshots announce nothing, published or not.
  lemma {:induction false} SilentRiseStaysSilent(xs: seq<Snapshot>, m: nat, n: nat, id: string)
    requires 0 < m <= n <= |xs| && OwnPool(xs, id) && RisesAt(xs, m, id)
    requires forall k | m < k <= n :: KeepsQualified(xs, k, id)
    ensures WasQualified(xs, n, id)
    ensures Announced(xs, n, id) == Announced(xs, m - 1, id) + if xs[m - 1].publish then 1 else 0
    decreases n
  {
    if m < n {
      SilentRiseStaysSilent(xs, m, n - 1, id);
      OwnPoolStays(xs, n - 1, id);
      StillQualified(xs, n, id);
    } else {
      RiseAnnounced(xs, n, id);
    }
  }

  // A launch candidate is named after its chain and pool.
  predicate Launch(c: Candidate) { c.id == c.chain + ":" + c.pool }

  lemma {:induction false} NoSilentRises(xs: seq<Snapshot>, n: nat, id: string)
    requires n <= |xs| && forall x | x in xs && x.found.id == id :: x.publish
    ensures SilentRises(xs, n, id) == 0
  {
    if n > 0 {
      NoSilentRises(xs, n - 1, id);
      assert xs[n - 1] in xs;
    }
  }

  // Launches are always published and never share a pool with each other, so only candidates of other kinds can get in
  // the way of one: else every rise is announced once, and none is silent.
  lemma LaunchEdges(xs: seq<Snapshot>, n: nat, id: string)
    requires n <= |xs| && forall x | x in xs && x.found.id == id :: Launch(x.found) && x.publish
    requires forall a, b | a in xs && b in xs && a.found.id == id && b.found.id != id && !Launch(b.found) ::
      !SamePool(a.found, b.found)
    ensures Announced(xs, n, id) == Rises(xs, n, id)
    ensures SilentRises(xs, n, id) == 0
  {
    OwnPoolEdges(xs, n, id);
    NoSilentRises(xs, n, id);
  }

  // Catalyst candidates share a pool address when they share a venue: the second evicts the first, which is then
  // announced again although its status never changed.
  lemma SharedVenueAnnouncesAgain(a: Candidate, b: Candidate)
    requires a.id != b.id && SamePool(a, b) && a.status == b.status == QUALIFIED
    ensures var xs := [Snapshot(a, true), Snapshot(b, true), Snapshot(a, true)];
      Announced(xs, 3, a.id) == 2 && Rises(xs, 3, a.id) == 1
  {
    var xs := [Snapshot(a, true), Snapshot(b, true), Snapshot(a, true)];
    AnnouncedExactly(xs, 3, a.id);
    assert Last(xs, 1, a.id) == Some(a) && Last(xs, 2, a.id) == Some(a);
    assert Evicted(xs, 2, a.id);
    assert Rises(xs, 1, a.id) == 1 && Rises(xs, 2, a.id) == 1 && Rises(xs, 3, a.id) == 1;
    assert Relapses(xs, 1, a.id) == 0 && Relapses(xs, 2, a.id) == 0 && Relapses(xs, 3, a.id) == 1;
  }
}
