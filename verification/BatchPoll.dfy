// PipelineWorker.poll_once of core/pipeline.py: one batch of stream messages, grouped by token, processed,
// dead-lettered and acknowledged.
module BatchPoll {
  import opened Schemas

  datatype Envelope = Envelope(eventType: string, token: Token, retrievalMode: string)

  datatype Message = Message(id: string, event: Envelope)

  // SIGNAL_TRIGGER_EVENT_TYPES
  const TRIGGERS := {"onchain.liquidity_snapshot", "wallet.cluster_snapshot", "social.signal_snapshot"}

  // Everything else is acknowledged and dropped. The mode of a social snapshot is in lower case.
  predicate Triggers(m: Message) {
    && m.event.eventType in TRIGGERS
    && !(m.event.eventType == "social.signal_snapshot" && m.event.retrievalMode == "discovery")
  }

  // --- grouping ----------------------------------------------------------------------------------

  datatype Group = Group(token: Token, messages: seq<Message>)

  // grouped.setdefault(token, []).append(message)
  function Appended(groups: seq<Group>, m: Message): seq<Group> {
    if groups == [] then [Group(m.event.token, [m])]
    else if groups[0].token == m.event.token
    then [groups[0].(messages := groups[0].messages + [m])] + groups[1..]
    else [groups[0]] + Appended(groups[1..], m)
  }

  // The groups after the first n messages.
  function Grouped(ms: seq<Message>, n: nat): seq<Group>
    requires n <= |ms|
  {
    if n == 0 then []
    else if Triggers(ms[n - 1]) then Appended(Grouped(ms, n - 1), ms[n - 1])
    else Grouped(ms, n - 1)
  }

  // The signal messages of one token among the first n, in the order read.
  function OfToken(ms: seq<Message>, n: nat, token: Token): seq<Message>
    requires n <= |ms|
  {
    if n == 0 then []
    else if Triggers(ms[n - 1]) && ms[n - 1].event.token == token then OfToken(ms, n - 1, token) + [ms[n - 1]]
    else OfToken(ms, n - 1, token)
  }

  ghost predicate IsPartition(groups: seq<Group>, ms: seq<Message>, n: nat)
    requires n <= |ms|
  {
    && DistinctTokens(groups)
    && (forall g | g in groups :: g.messages == OfToken(ms, n, g.token) && g.messages != [])
    && (forall i | 0 <= i < n && Triggers(ms[i]) :: HasToken(groups, ms[i].event.token))
  }

  ghost predicate HasToken(groups: seq<Group>, token: Token) { exists g :: g in groups && g.token == token }

  lemma {:induction false} AppendedTokens(groups: seq<Group>, m: Message, token: Token)
    ensures HasToken(Appended(groups, m), token) <==> HasToken(groups, token) || token == m.event.token
  {
    if groups != [] {
      var rest := groups[1..];
      assert groups == [groups[0]] + rest;
      if groups[0].token == m.event.token {
        var head := groups[0].(messages := groups[0].messages + [m]);
        assert forall g :: g in [head] + rest <==> g == head || g in rest;
        assert head in Appended(groups, m) && groups[0] in groups;
      } else {
        AppendedTokens(rest, m, token);
        var after := Appended(rest, m);
        assert forall g :: g in [groups[0]] + after <==> g == groups[0] || g in after;
        assert groups[0] in groups;
      }
    } else {
      var g := Group(m.event.token, [m]);
      assert g in [g];
    }
  }

  predicate DistinctTokens(groups: seq<Group>) {
    forall i, j | 0 <= i < j < |groups| :: groups[i].token != groups[j].token
  }

  lemma HeadTokenUnique(groups: seq<Group>)
    requires DistinctTokens(groups) && groups != []
    ensures !HasToken(groups[1..], groups[0].token)
  {
  }

  lemma {:induction false} AppendedDistinct(groups: seq<Group>, m: Message)
    requires DistinctTokens(groups)
    ensures DistinctTokens(Appended(groups, m))
  {
    if groups != [] && groups[0].token != m.event.token {
      var after := Appended(groups[1..], m);
      AppendedDistinct(groups[1..], m);
      AppendedTokens(groups[1..], m, groups[0].token);
      HeadTokenUnique(groups);
      forall j | 0 <= j < |after|
        ensures after[j].token != groups[0].token
      {
        assert after[j] in after;
      }
    }
  }

  // A group of the new list is an old one, or the message's own with the message at its end.
  lemma {:induction false} AppendedGroup(groups: seq<Group>, m: Message, g: Group)
    requires DistinctTokens(groups) && g in Appended(groups, m)
    ensures g.token != m.event.token ==> g in groups
    ensures g.token == m.event.token ==>
      (g.messages == [m] && !HasToken(groups, g.token))
      || (exists was :: was in groups && was.token == g.token && g.messages == was.messages + [m])
  {
    if groups != [] {
      assert groups[0] in groups;
      assert forall h :: h in groups[1..] ==> h in groups;
      if groups[0].token != m.event.token && g != groups[0] {
        AppendedGroup(groups[1..], m, g);
        if HasToken(groups, g.token) {
          var h :| h in groups && h.token == g.token;
          assert h == groups[0] || h in groups[1..];
        }
      } else if groups[0].token == m.event.token && g in groups[1..] {
        var k :| 0 <= k < |groups[1..]| && groups[1..][k] == g;
        assert groups[k + 1] == g;
      }
    }
  }

  lemma {:induction false} OfTokenHas(ms: seq<Message>, n: nat, token: Token, m: Message)
    requires n <= |ms|
    ensures m in OfToken(ms, n, token)
      <==> Triggers(m) && m.event.token == token && exists i :: 0 <= i < n && ms[i] == m
  {
    if n > 0 {
      OfTokenHas(ms, n - 1, token, m);
    }
  }

  lemma MessagesHaveGroup(groups: seq<Group>, ms: seq<Message>, n: nat, token: Token, m: Message)
    requires n <= |ms| && IsPartition(groups, ms, n) && m in OfToken(ms, n, token)
    ensures HasToken(groups, token)
  {
    OfTokenHas(ms, n, token, m);
    var i :| 0 <= i < n && ms[i] == m;
    assert HasToken(groups, ms[i].event.token);
  }

  // The groups are a partition of the signal messages by token that keeps their order.
  lemma {:induction false} GroupedPartitions(ms: seq<Message>, n: nat)
    requires n <= |ms|
    ensures IsPartition(Grouped(ms, n), ms, n)
  {
    if n > 0 {
      GroupedPartitions(ms, n - 1);
      if Triggers(ms[n - 1]) {
        PartitionNext(Grouped(ms, n - 1), ms, n - 1);
      }
    }
  }

  lemma PartitionNext(groups: seq<Group>, ms: seq<Message>, n: nat)
    requires n < |ms| && IsPartition(groups, ms, n) && Triggers(ms[n])
    ensures IsPartition(Appended(groups, ms[n]), ms, n + 1)
  {
    var m := ms[n];
    AppendedDistinct(groups, m);
    forall g | g in Appended(groups, m)
      ensures g.messages == OfToken(ms, n + 1, g.token) && g.messages != []
    {
      AppendedGroup(groups, m, g);
      if g.token == m.event.token && !HasToken(groups, g.token) {
        if OfToken(ms, n, g.token) != [] {
          MessagesHaveGroup(groups, ms, n, g.token, OfToken(ms, n, g.token)[0]);
        }
      }
    }
    forall i | 0 <= i <= n && Triggers(ms[i])
      ensures HasToken(Appended(groups, m), ms[i].event.token)
    {
      AppendedTokens(groups, m, ms[i].event.token);
    }
  }

  function Tokens(groups: seq<Group>): seq<Token> {
    seq(|groups|, i requires 0 <= i < |groups| => groups[i].token)
  }

  lemma {:induction false} AppendedInOrder(groups: seq<Group>, m: Message)
    ensures Tokens(Appended(groups, m))
      == Tokens(groups) + if HasToken(groups, m.event.token) then [] else [m.event.token]
  {
    if groups == [] {
    } else {
      assert groups[0] in groups;
      AppendedInOrder(groups[1..], m);
      assert Tokens(groups) == [groups[0].token] + Tokens(groups[1..]);
      if groups[0].token != m.event.token {
        assert Tokens(Appended(groups, m)) == [groups[0].token] + Tokens(Appended(groups[1..], m));
        assert HasToken(groups, m.event.token) <==> HasToken(groups[1..], m.event.token);
      }
    }
  }

  // The first signal message of one token comes before any of the other.
  ghost predicate ComesFirst(ms: seq<Message>, n: nat, x: Token, y: Token)
    requires n <= |ms|
  {
    exists p :: 0 <= p < n && Triggers(ms[p]) && ms[p].event.token == x && NoneBefore(ms, p, y)
  }

  predicate NoneBefore(ms: seq<Message>, p: nat, y: Token)
    requires p <= |ms|
  {
    forall k | 0 <= k < p && Triggers(ms[k]) :: ms[k].event.token != y
  }

  ghost predicate InOrder(tokens: seq<Token>, ms: seq<Message>, n: nat)
    requires n <= |ms|
  {
    forall a, b | 0 <= a < b < |tokens| :: ComesFirst(ms, n, tokens[a], tokens[b])
  }

  // The groups come in the order in which their tokens first appear.
  lemma {:induction false} GroupedInOrder(ms: seq<Message>, n: nat)
    requires n <= |ms|
    ensures InOrder(Tokens(Grouped(ms, n)), ms, n)
  {
    if n > 0 {
      GroupedInOrder(ms, n - 1);
      FirstsStay(Tokens(Grouped(ms, n - 1)), ms, n - 1);
      if Triggers(ms[n - 1]) {
        AppendedInOrder(Grouped(ms, n - 1), ms[n - 1]);
        if !HasToken(Grouped(ms, n - 1), ms[n - 1].event.token) {
          NewTokenLast(ms, n - 1);
        }
      }
    }
  }

  lemma FirstsStay(tokens: seq<Token>, ms: seq<Message>, n: nat)
    requires n < |ms| && InOrder(tokens, ms, n)
    ensures InOrder(tokens, ms, n + 1)
  {
    forall a, b | 0 <= a < b < |tokens|
      ensures ComesFirst(ms, n + 1, tokens[a], tokens[b])
    {
      assert ComesFirst(ms, n, tokens[a], tokens[b]);
    }
  }

  lemma NewTokenLast(ms: seq<Message>, n: nat)
    requires n < |ms| && Triggers(ms[n]) && !HasToken(Grouped(ms, n), ms[n].event.token)
    ensures forall a | 0 <= a < |Grouped(ms, n)| ::
      ComesFirst(ms, n + 1, Tokens(Grouped(ms, n))[a], ms[n].event.token)
  {
    var groups := Grouped(ms, n);
    GroupedPartitions(ms, n);
    forall a | 0 <= a < |groups|
      ensures ComesFirst(ms, n + 1, Tokens(groups)[a], ms[n].event.token)
    {
      assert groups[a] in groups;
      var first := groups[a].messages[0];
      OfTokenHas(ms, n, groups[a].token, first);
      var p :| 0 <= p < n && ms[p] == first;
      assert NoneBefore(ms, p, ms[n].event.token);
    }
  }

  // --- the batch ---------------------------------------------------------------------------------

  function Dropped(ms: seq<Message>, n: nat): seq<Message>
    requires n <= |ms|
  {
    if n == 0 then []
    else if Triggers(ms[n - 1]) then Dropped(ms, n - 1)
    else Dropped(ms, n - 1) + [ms[n - 1]]
  }

  // The messages of the first n groups, one group after the other; with a selection, of those it picks.
  function Flattened(groups: seq<Group>, n: nat, picks: nat -> bool): seq<Message>
    requires n <= |groups|
  {
    if n == 0 then []
    else Flattened(groups, n - 1, picks) + if picks(n - 1) then groups[n - 1].messages else []
  }

  function Ids(ms: seq<Message>): seq<string> { seq(|ms|, i requires 0 <= i < |ms| => ms[i].id) }

  function Events(ms: seq<Message>): seq<Envelope> { seq(|ms|, i requires 0 <= i < |ms| => ms[i].event) }

  function EventLists(groups: seq<Group>): seq<seq<Envelope>> {
    seq(|groups|, i requires 0 <= i < |groups| => Events(groups[i].messages))
  }

  function All(): nat -> bool { (k: nat) => true }

  // What a batch acknowledges, in order: first the messages that do not trigger, then group by group.
  function Settled(ms: seq<Message>): seq<Message> {
    var groups := Grouped(ms, |ms|);
    Dropped(ms, |ms|) + Flattened(groups, |groups|, All())
  }

  lemma IdsConcat(a: seq<Message>, b: seq<Message>)
    ensures Ids(a + b) == Ids(a) + Ids(b)
  {
  }

  lemma FlattenedNext(groups: seq<Group>, n: nat)
    requires n < |groups|
    ensures Ids(Flattened(groups, n + 1, All())) == Ids(Flattened(groups, n, All())) + Ids(groups[n].messages)
  {
  }

  lemma Extend<T>(start: seq<T>, a: seq<T>, b: seq<T>)
    ensures (start + a) + b == start + (a + b)
  {
  }

  lemma EventsNext(groups: seq<Group>, n: nat)
    requires n < |groups|
    ensures EventLists(groups)[..n + 1] == EventLists(groups)[..n] + [Events(groups[n].messages)]
  {
  }

  class Consumer {
    var acked: seq<string>
    var deadLetters: seq<Message>
    // The event lists handed to process_events.
    var processed: seq<seq<Envelope>>

    constructor ()
      ensures acked == [] && deadLetters == [] && processed == []
    {
      acked, deadLetters, processed := [], [], [];
    }

    method Acknowledge(ms: seq<Message>)
      modifies this`acked
      ensures acked == old(acked) + Ids(ms)
    {
      var i := 0;
      while i < |ms|
        invariant 0 <= i <= |ms| && acked == old(acked) + Ids(ms)[..i]
      {
        acked := acked + [ms[i].id];
        i := i + 1;
      }
    }

    method DeadLetter(ms: seq<Message>)
      modifies this`deadLetters
      ensures deadLetters == old(deadLetters) + ms
    {
      var i := 0;
      while i < |ms|
        invariant 0 <= i <= |ms| && deadLetters == old(deadLetters) + ms[..i]
      {
        deadLetters := deadLetters + [ms[i]];
        i := i + 1;
      }
    }

    method Group(ms: seq<Message>) returns (groups: seq<Group>)
      modifies this`acked
      ensures groups == Grouped(ms, |ms|) && acked == old(acked) + Ids(Dropped(ms, |ms|))
    {
      groups := [];
      var i := 0;
      while i < |ms|
        invariant 0 <= i <= |ms|
        invariant groups == Grouped(ms, i) && acked == old(acked) + Ids(Dropped(ms, i))
      {
        if Triggers(ms[i]) {
          groups := Appended(groups, ms[i]);
        } else {
          IdsConcat(Dropped(ms, i), [ms[i]]);
          acked := acked + Ids([ms[i]]);
        }
        i := i + 1;
      }
    }

    // One group: processed, dead-lettered if that raises, and acknowledged in any case.
    method Settle(messages: seq<Message>, raises: bool)
      modifies this
      ensures acked == old(acked) + Ids(messages)
      ensures deadLetters == old(deadLetters) + if raises then messages else []
      ensures processed == old(processed) + [Events(messages)]
    {
      processed := processed + [Events(messages)];
      if raises {
        DeadLetter(messages);
      }
      Acknowledge(messages);
    }

    // raises says of each group, by its position, whether processing it raises.
    method PollOnce(ms: seq<Message>, raises: nat -> bool)
      modifies this
      ensures var groups := Grouped(ms, |ms|);
        && acked == old(acked) + Ids(Settled(ms))
        && deadLetters == old(deadLetters) + Flattened(groups, |groups|, raises)
        && processed == old(processed) + EventLists(groups)
    {
      var groups := Group(ms);
      IdsConcat(Dropped(ms, |ms|), Flattened(groups, |groups|, All()));
      SettleAll(groups, raises);
    }

    method SettleAll(groups: seq<Group>, raises: nat -> bool)
      modifies this
      ensures acked == old(acked) + Ids(Flattened(groups, |groups|, All()))
      ensures deadLetters == old(deadLetters) + Flattened(groups, |groups|, raises)
      ensures processed == old(processed) + EventLists(groups)
    {
      var i := 0;
      while i < |groups|
        invariant 0 <= i <= |groups|
        invariant acked == old(acked) + Ids(Flattened(groups, i, All()))
        invariant deadLetters == old(deadLetters) + Flattened(groups, i, raises)
        invariant processed == old(processed) + EventLists(groups)[..i]
      {
        FlattenedNext(groups, i);
        EventsNext(groups, i);
        Extend(old(acked), Ids(Flattened(groups, i, All())), Ids(groups[i].messages));
        Extend(old(deadLetters), Flattened(groups, i, raises), if raises(i) then groups[i].messages else []);
        Extend(old(processed), EventLists(groups)[..i], [Events(groups[i].messages)]);
        Settle(groups[i].messages, raises(i));
        i := i + 1;
      }
    }
  }

  // --- accounting --------------------------------------------------------------------------------

  // All messages of the groups.
  function Held(groups: seq<Group>): multiset<Message> {
    if groups == [] then multiset{} else multiset(groups[0].messages) + Held(groups[1..])
  }

  lemma {:induction false} AppendedHeld(groups: seq<Group>, m: Message)
    ensures Held(Appended(groups, m)) == Held(groups) + multiset{m}
  {
    if groups != [] && groups[0].token != m.event.token {
      AppendedHeld(groups[1..], m);
    }
  }

  lemma {:induction false} HeldSnoc(groups: seq<Group>, g: Group)
    ensures Held(groups + [g]) == Held(groups) + multiset(g.messages)
  {
    if groups == [] {
      assert [] + [g] == [g];
    } else {
      assert (groups + [g])[1..] == groups[1..] + [g];
      HeldSnoc(groups[1..], g);
    }
  }

  lemma {:induction false} HeldIsFlattened(groups: seq<Group>, n: nat)
    requires n <= |groups|
    ensures multiset(Flattened(groups, n, All())) == Held(groups[..n])
    decreases n
  {
    if n > 0 {
      HeldIsFlattened(groups, n - 1);
      assert groups[..n] == groups[..n - 1] + [groups[n - 1]];
      HeldSnoc(groups[..n - 1], groups[n - 1]);
    }
  }

  lemma PrefixCounts(ms: seq<Message>, n: nat)
    requires 0 < n <= |ms|
    ensures multiset(ms[..n]) == multiset(ms[..n - 1]) + multiset{ms[n - 1]}
  {
    assert ms[..n] == ms[..n - 1] + [ms[n - 1]];
  }

  lemma {:induction false} SettledCounts(ms: seq<Message>, n: nat)
    requires n <= |ms|
    ensures multiset(Dropped(ms, n)) + Held(Grouped(ms, n)) == multiset(ms[..n])
    decreases n
  {
    if n > 0 {
      SettledCounts(ms, n - 1);
      PrefixCounts(ms, n);
      SettledStep(ms, n);
    }
  }

  lemma SettledStep(ms: seq<Message>, n: nat)
    requires 0 < n <= |ms|
    ensures multiset(Dropped(ms, n)) + Held(Grouped(ms, n))
      == multiset(Dropped(ms, n - 1)) + Held(Grouped(ms, n - 1)) + multiset{ms[n - 1]}
  {
    var m := ms[n - 1];
    if Triggers(m) {
      AppendedHeld(Grouped(ms, n - 1), m);
    } else {
      assert multiset(Dropped(ms, n)) == multiset(Dropped(ms, n - 1)) + multiset{m};
    }
  }

  // Every message read is acknowledged exactly once, whatever raises.
  lemma EachAcknowledgedOnce(ms: seq<Message>)
    ensures multiset(Settled(ms)) == multiset(ms)
  {
    var groups := Grouped(ms, |ms|);
    SettledCounts(ms, |ms|);
    HeldIsFlattened(groups, |groups|);
    assert ms[..|ms|] == ms && groups[..|groups|] == groups;
  }

  lemma {:induction false} FlattenedHas(groups: seq<Group>, n: nat, picks: nat -> bool, m: Message)
    requires n <= |groups|
    ensures m in Flattened(groups, n, picks) <==> exists k: nat :: k < n && picks(k) && m in groups[k].messages
    decreases n
  {
    if n > 0 {
      FlattenedHas(groups, n - 1, picks, m);
    }
  }

  // What poll_once drops: whatever is no snapshot of liquidity, of a wallet cluster or of social signals, and of the
  // last those that come from discovery.
  lemma {:induction false} DroppedExactly(ms: seq<Message>, n: nat, m: Message)
    requires n <= |ms|
    ensures m in Dropped(ms, n) <==>
      && m in ms[..n]
      && m.event.eventType != "onchain.liquidity_snapshot" && m.event.eventType != "wallet.cluster_snapshot"
      && (m.event.eventType == "social.signal_snapshot" ==> m.event.retrievalMode == "discovery")
    decreases n
  {
    if n > 0 {
      DroppedExactly(ms, n - 1, m);
      assert ms[..n] == ms[..n - 1] + [ms[n - 1]];
    }
  }

  // A message is dead-lettered exactly if it is a signal message whose token's group raised.
  lemma DeadLetteredExactly(ms: seq<Message>, raises: nat -> bool, m: Message)
    ensures var groups := Grouped(ms, |ms|);
      m in Flattened(groups, |groups|, raises)
      <==> m in ms && Triggers(m)
           && exists k: nat :: k < |groups| && groups[k].token == m.event.token && raises(k)
  {
    var groups := Grouped(ms, |ms|);
    GroupedPartitions(ms, |ms|);
    FlattenedHas(groups, |groups|, raises, m);
    forall k: nat | k < |groups|
      ensures m in groups[k].messages <==> m in ms && Triggers(m) && groups[k].token == m.event.token
    {
      assert groups[k] in groups;
      OfTokenHas(ms, |ms|, groups[k].token, m);
    }
  }

  // And no more often than it was read.
  lemma {:induction false} DeadLettersFit(groups: seq<Group>, n: nat, raises: nat -> bool)
    requires n <= |groups|
    ensures multiset(Flattened(groups, n, raises)) <= multiset(Flattened(groups, n, All()))
    decreases n
  {
    if n > 0 {
      DeadLettersFit(groups, n - 1, raises);
    }
  }

  lemma DeadLettersRead(ms: seq<Message>, raises: nat -> bool)
    ensures var groups := Grouped(ms, |ms|);
      multiset(Flattened(groups, |groups|, raises)) <= multiset(ms)
  {
    var groups := Grouped(ms, |ms|);
    DeadLettersFit(groups, |groups|, raises);
    EachAcknowledgedOnce(ms);
    assert multiset(Settled(ms)) == multiset(Dropped(ms, |ms|)) + multiset(Flattened(groups, |groups|, All()));
  }
}
