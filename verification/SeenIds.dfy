// The rolling window of seen source ids that the live syncs of core/worker.py keep in a checkpoint.
module SeenIds {
  import opened Schemas

  const WINDOW: nat := 200

  function Tail(ids: seq<string>): seq<string> {
    if |ids| <= WINDOW then ids else ids[|ids| - WINDOW..]
  }

  // Empty ids are dropped when the window is loaded.
  function Loaded(stored: seq<string>): seq<string> {
    if stored == [] then []
    else (if stored[0] != "" then [stored[0]] else []) + Loaded(stored[1..])
  }

  // The ids that one poll adds to those it knows.
  function Added(seen: seq<string>, fetched: seq<string>): seq<string>
    decreases |fetched|
  {
    if fetched == [] then []
    else if fetched[0] in seen then Added(seen, fetched[1..])
    else [fetched[0]] + Added(seen + [fetched[0]], fetched[1..])
  }

  class LiveSync {
    var seenIds: seq<string>
    // Every id handed to the ingestion service, in order.
    var ingested: seq<string>

    constructor ()
      ensures seenIds == [] && ingested == []
    {
      seenIds, ingested := [], [];
    }

    // A poll whose ingestions all succeed.
    method Poll(fetched: seq<string>)
      modifies this
      ensures ingested == old(ingested) + Added(Loaded(old(seenIds)), fetched)
      ensures seenIds == Tail(Loaded(old(seenIds)) + Added(Loaded(old(seenIds)), fetched))
    {
      var seen := Loaded(seenIds);
      var i := 0;
      while i < |fetched|
        invariant 0 <= i <= |fetched| && seenIds == old(seenIds)
        invariant seen + Added(seen, fetched[i..])
          == Loaded(seenIds) + Added(Loaded(seenIds), fetched)
        invariant ingested + Added(seen, fetched[i..]) == old(ingested) + Added(Loaded(seenIds), fetched)
      {
        var id := fetched[i];
        assert fetched[i..][1..] == fetched[i + 1..];
        if id !in seen {
          Shift(seen, id, Added(seen + [id], fetched[i + 1..]));
          Shift(ingested, id, Added(seen + [id], fetched[i + 1..]));
          ingested := ingested + [id];
          seen := seen + [id];
        }
        i := i + 1;
      }
      assert Added(seen, fetched[i..]) == [];
      seenIds := Tail(seen);
    }
  }

  lemma Shift(a: seq<string>, x: string, b: seq<string>)
    ensures a + ([x] + b) == (a + [x]) + b
  {
  }

  // --- runs --------------------------------------------------------------------------------------

  // What is stored and what has been ingested.
  datatype State = State(stored: seq<string>, log: seq<string>)

  const START := State([], [])

  function Polled(s: State, fetched: seq<string>): State {
    var added := Added(Loaded(s.stored), fetched);
    State(Tail(Loaded(s.stored) + added), s.log + added)
  }

  function Run(polls: seq<seq<string>>): State {
    if polls == [] then START else Polled(Run(polls[..|polls| - 1]), polls[|polls| - 1])
  }

  predicate Named(ids: seq<string>) { forall id | id in ids :: id != "" }

  predicate Distinct(ids: seq<string>) {
    forall i, j | 0 <= i < j < |ids| :: ids[i] != ids[j]
  }

  lemma {:induction false} LoadedIsNamed(ids: seq<string>)
    ensures Named(Loaded(ids)) && |Loaded(ids)| <= |ids|
    ensures forall id :: id in Loaded(ids) <==> id in ids && id != ""
  {
    if ids != [] {
      LoadedIsNamed(ids[1..]);
      assert ids == [ids[0]] + ids[1..];
    }
  }

  lemma {:induction false} LoadedNamed(ids: seq<string>)
    requires Named(ids)
    ensures Loaded(ids) == ids
  {
    if ids != [] {
      assert ids[0] in ids && forall id | id in ids[1..] :: id in ids;
      LoadedNamed(ids[1..]);
    }
  }

  lemma {:induction false} LoadedConcat(a: seq<string>, b: seq<string>)
    ensures Loaded(a + b) == Loaded(a) + Loaded(b)
  {
    if a == [] {
      assert a + b == b;
    } else {
      LoadedConcat(a[1..], b);
      assert (a + b)[1..] == a[1..] + b && (a + b)[0] == a[0];
      Associate(if a[0] != "" then [a[0]] else [], Loaded(a[1..]), Loaded(b));
    }
  }

  lemma Associate(a: seq<string>, b: seq<string>, c: seq<string>)
    ensures a + (b + c) == (a + b) + c
  {
  }

  lemma LoadedTwice(ids: seq<string>)
    ensures Loaded(Loaded(ids)) == Loaded(ids)
  {
    LoadedIsNamed(ids);
    LoadedNamed(Loaded(ids));
  }

  lemma {:induction false} AddedFresh(seen: seq<string>, fetched: seq<string>)
    requires Distinct(seen)
    ensures Distinct(seen + Added(seen, fetched))
    decreases |fetched|
  {
    if fetched == [] {
      assert seen + [] == seen;
    } else {
      if fetched[0] in seen {
        AddedFresh(seen, fetched[1..]);
      } else {
        AddedFresh(seen + [fetched[0]], fetched[1..]);
        Shift(seen, fetched[0], Added(seen + [fetched[0]], fetched[1..]));
      }
    }
  }

  lemma TailOfTail(a: seq<string>, b: seq<string>)
    ensures Tail(Tail(a) + b) == Tail(a + b)
  {
  }

  lemma TailDistinct(ids: seq<string>)
    requires Distinct(ids)
    ensures Distinct(Tail(ids))
  {
  }

  // The end of a list.
  ghost predicate Suffix(s: seq<string>, all: seq<string>) { |s| <= |all| && s == all[|all| - |s|..] }

  // The named ids of the stored list end the log's, and reach back at least over its last 200 entries.
  ghost predicate Covers(stored: seq<string>, log: seq<string>) {
    && Suffix(Loaded(stored), Loaded(log))
    && |Loaded(Tail(log))| <= |Loaded(stored)|
  }

  lemma TailSplit(ids: seq<string>)
    ensures exists front :: ids == front + Tail(ids)
  {
    assert ids == ids[..|ids| - |Tail(ids)|] + Tail(ids);
  }

  lemma LoadedTailSuffix(ids: seq<string>)
    ensures Suffix(Loaded(Tail(ids)), Loaded(ids))
  {
    TailSplit(ids);
    var front :| ids == front + Tail(ids);
    LoadedConcat(front, Tail(ids));
  }

  lemma SuffixStep(a: seq<string>, all: seq<string>, b: seq<string>)
    requires Suffix(a, all)
    ensures Suffix(a + b, all + b)
  {
  }

  lemma SuffixTransitive(a: seq<string>, b: seq<string>, c: seq<string>)
    requires Suffix(a, b) && Suffix(b, c)
    ensures Suffix(a, c)
  {
  }

  // One more poll.
  lemma CoversNext(stored: seq<string>, log: seq<string>, added: seq<string>)
    requires Covers(stored, log)
    ensures Covers(Tail(Loaded(stored) + added), log + added)
  {
    var known := Loaded(stored);
    LoadedTwice(stored);
    LoadedConcat(known, added);
    LoadedConcat(log, added);
    SuffixStep(known, Loaded(log), Loaded(added));
    LoadedTailSuffix(known + added);
    SuffixTransitive(Loaded(Tail(known + added)), Loaded(known + added), Loaded(log + added));
    ReachesBack(known, log, added);
  }

  function LastOf(ids: seq<string>, n: nat): seq<string> { if |ids| <= n then ids else ids[|ids| - n..] }

  lemma TailConcat(a: seq<string>, b: seq<string>)
    ensures Tail(a + b) == if |b| >= WINDOW then Tail(b) else LastOf(a, WINDOW - |b|) + b
  {
  }

  lemma ReachesBack(known: seq<string>, log: seq<string>, added: seq<string>)
    requires Loaded(known) == known && |Loaded(Tail(log))| <= |known|
    ensures |Loaded(Tail(log + added))| <= |Loaded(Tail(known + added))|
  {
    TailConcat(log, added);
    TailConcat(known, added);
    if |added| < WINDOW {
      var room := WINDOW - |added|;
      RoomCovered(known, log, room);
      LoadedLonger(LastOf(log, room), LastOf(known, room), added);
    }
  }

  lemma LoadedLonger(a: seq<string>, b: seq<string>, added: seq<string>)
    requires |Loaded(a)| <= |Loaded(b)|
    ensures |Loaded(a + added)| <= |Loaded(b + added)|
  {
    LoadedConcat(a, added);
    LoadedConcat(b, added);
  }

  lemma RoomCovered(known: seq<string>, log: seq<string>, room: nat)
    requires Loaded(known) == known && |Loaded(Tail(log))| <= |known| && room <= WINDOW
    ensures |Loaded(LastOf(log, room))| <= |Loaded(LastOf(known, room))|
  {
    LastNamed(known, room);
    LoadedIsNamed(LastOf(log, room));
    LoadedShrinks(log, room);
  }

  lemma LastNamed(ids: seq<string>, n: nat)
    requires Loaded(ids) == ids
    ensures Loaded(LastOf(ids, n)) == LastOf(ids, n)
  {
    LoadedIsNamed(ids);
    forall id | id in LastOf(ids, n)
      ensures id != ""
    {
      assert id in ids;
    }
    LoadedNamed(LastOf(ids, n));
  }

  lemma LoadedShrinks(ids: seq<string>, n: nat)
    requires n <= WINDOW
    ensures |Loaded(LastOf(ids, n))| <= |Loaded(Tail(ids))|
  {
    var s, l := Tail(ids), LastOf(ids, n);
    assert s == s[..|s| - |l|] + l;
    LoadedConcat(s[..|s| - |l|], l);
  }

  // The stored list has no duplicate and at most 200 entries, and covers the log.
  ghost predicate Windowed(s: State) {
    Distinct(s.stored) && |s.stored| <= 200 && Covers(s.stored, s.log)
  }

  // After any completed polls the named ids stored are the last named ids ingested, back to the 200th ingestion at
  // least.
  lemma {:induction false} WindowHoldsLast(polls: seq<seq<string>>)
    ensures Windowed(Run(polls))
    decreases |polls|
  {
    if polls == [] {
      StartWindowed();
    } else {
      var n := |polls| - 1;
      WindowHoldsLast(polls[..n]);
      OnePoll(Run(polls[..n]), polls[n]);
    }
  }

  lemma StartWindowed()
    ensures Windowed(START)
  {
    assert Tail([]) == [] && Loaded([]) == [];
  }

  lemma OnePoll(s: State, fetched: seq<string>)
    requires Windowed(s)
    ensures Windowed(Polled(s, fetched))
  {
    var known := Loaded(s.stored);
    CoversNext(s.stored, s.log, Added(known, fetched));
    LoadedDistinct(s.stored);
    AddedFresh(known, fetched);
    TailDistinct(known + Added(known, fetched));
  }

  lemma {:induction false} LoadedDistinct(ids: seq<string>)
    requires Distinct(ids)
    ensures Distinct(Loaded(ids))
  {
    if ids != [] {
      LoadedDistinct(ids[1..]);
      LoadedIsNamed(ids[1..]);
      assert ids[0] !in ids[1..];
    }
  }

  // Events that all have ids: the stored list is the last 200 ingested.
  lemma {:induction false} NamedWindow(polls: seq<seq<string>>)
    requires Named(Run(polls).log)
    ensures Run(polls).stored == Tail(Run(polls).log)
    decreases |polls|
  {
    if polls != [] {
      var n := |polls| - 1;
      var s := Run(polls[..n]);
      var log := Run(polls).log;
      assert forall id | id in s.log :: id in log;
      NamedWindow(polls[..n]);
      assert forall id | id in Tail(s.log) :: id in s.log;
      LoadedNamed(s.stored);
      TailOfTail(s.log, Added(Loaded(s.stored), polls[n]));
    }
  }

  lemma RecentKnown(stored: seq<string>, log: seq<string>, i: nat)
    requires Covers(stored, log) && |log| - WINDOW <= i < |log| && log[i] != ""
    ensures log[i] in Loaded(stored)
  {
    var t := Tail(log);
    assert t[i - (|log| - |t|)] == log[i];
    LoadedIsNamed(t);
    LoadedTailSuffix(log);
    assert Suffix(Loaded(t), Loaded(stored));
  }

  // Two ingestions of one named id are more than 200 places apart in the log.
  predicate Spaced(log: seq<string>) {
    forall i, j | 0 <= i < j < |log| && log[i] == log[j] != "" :: j - i > 200
  }

  // So over any polls a named id is ingested again only after at least 200 other ingestions, whatever unnamed events
  // come in between.
  lemma {:induction false} ReingestedLate(polls: seq<seq<string>>)
    ensures Spaced(Run(polls).log)
    decreases |polls|
  {
    if polls != [] {
      var n := |polls| - 1;
      ReingestedLate(polls[..n]);
      WindowHoldsLast(polls[..n]);
      var s := Run(polls[..n]);
      LoadedDistinct(s.stored);
      AddedFresh(Loaded(s.stored), polls[n]);
      StillSpaced(s.stored, s.log, Added(Loaded(s.stored), polls[n]));
    }
  }

  lemma StillSpaced(stored: seq<string>, log: seq<string>, added: seq<string>)
    requires Spaced(log) && Covers(stored, log) && Distinct(Loaded(stored) + added)
    ensures Spaced(log + added)
  {
    var all := log + added;
    forall i, j | 0 <= i < j < |all| && all[i] == all[j] != ""
      ensures j - i > WINDOW
    {
      if j >= |log| && i >= |log| - WINDOW {
        RecentDiffer(stored, log, added, i, j);
      }
    }
  }

  lemma RecentDiffer(stored: seq<string>, log: seq<string>, added: seq<string>, i: nat, j: nat)
    requires Covers(stored, log) && Distinct(Loaded(stored) + added)
    requires |log| - WINDOW <= i < j < |log| + |added| && j >= |log|
    ensures (log + added)[i] != "" ==> (log + added)[i] != (log + added)[j]
  {
    var known := Loaded(stored);
    var shown := known + added;
    assert (log + added)[j] == shown[|known| + j - |log|];
    if i < |log| && log[i] != "" {
      RecentKnown(stored, log, i);
      var k :| 0 <= k < |known| && known[k] == log[i];
      assert shown[k] == log[i];
    } else if i >= |log| {
      assert (log + added)[i] == shown[|known| + i - |log|];
    }
  }

  // --- what a poll ingests -----------------------------------------------------------------------

  // Of one fetched id, itself unless it is known ...
  lemma AddedOne(seen: seq<string>, id: string)
    ensures Added(seen, [id]) == if id in seen then [] else [id]
  {
    assert [id][1..] == [];
  }

  // ... and of more, what the first ones add and then what the others add to that.
  lemma {:induction false} AddedMore(seen: seq<string>, a: seq<string>, b: seq<string>)
    ensures Added(seen, a + b) == Added(seen, a) + Added(seen + Added(seen, a), b)
    decreases |a|
  {
    if a == [] {
      assert a + b == b && seen + [] == seen;
    } else {
      var id, rest := a[0], a[1..];
      assert (a + b)[0] == id && (a + b)[1..] == rest + b;
      if id in seen {
        AddedMore(seen, rest, b);
      } else {
        var more := Added(seen + [id], rest);
        AddedMore(seen + [id], rest, b);
        Shift(seen, id, more);
        Associate([id], more, Added((seen + [id]) + more, b));
      }
    }
  }

  // --- what breaks it ----------------------------------------------------------------------------

  lemma {:induction false} AddsUnseen(seen: seq<string>, fetched: seq<string>, id: string)
    requires id in fetched && id !in seen
    ensures id in Added(seen, fetched)
    decreases |fetched|
  {
    if fetched[0] != id {
      assert id in fetched[1..];
      AddsUnseen(if fetched[0] in seen then seen else seen + [fetched[0]], fetched[1..], id);
    }
  }

  // An event without an id is ingested again at every poll that fetches it.
  lemma EmptyIdAlwaysIngested(s: State, fetched: seq<string>)
    requires "" in fetched
    ensures "" in Added(Loaded(s.stored), fetched)
  {
    LoadedIsNamed(s.stored);
    AddsUnseen(Loaded(s.stored), fetched, "");
  }

  // A poll that dies after ingesting has stored nothing: whatever was new to it is ingested again by the next poll
  // that fetches it.
  lemma DiedPollRepeats(s: State, fetched: seq<string>, cut: nat, next: seq<string>, id: string)
    requires cut <= |fetched| && id in Added(Loaded(s.stored), fetched[..cut]) && id in next
    ensures var died := State(s.stored, s.log + Added(Loaded(s.stored), fetched[..cut]));
      id in died.log && id in Added(Loaded(died.stored), next)
  {
    AddedUnseen(Loaded(s.stored), fetched[..cut], id);
    AddsUnseen(Loaded(s.stored), next, id);
  }

  lemma {:induction false} AddedUnseen(seen: seq<string>, fetched: seq<string>, id: string)
    requires id in Added(seen, fetched)
    ensures id !in seen
    decreases |fetched|
  {
    if fetched[0] in seen {
      AddedUnseen(seen, fetched[1..], id);
    } else if id != fetched[0] {
      AddedUnseen(seen + [fetched[0]], fetched[1..], id);
    }
  }
}
