// The published slippage over quotes arriving in any order.
module SlippageRows {
  import opened Schemas
  import opened Ordering
  import opened FeatureStore
  import opened FeatureAggregator
  import SlippageCurve

  ghost function Quoted(qs: seq<QuoteSample>, settings: FeatureSettings): QuoteTables {
    FeedQuotes(NO_QUOTES, qs, settings)
  }

  ghost function SampleTable(qs: seq<QuoteSample>): map<string, QuoteSample> {
    if qs == [] then map[] else SampleTable(qs[..|qs| - 1])[qs[|qs| - 1].quoteId := qs[|qs| - 1]]
  }

  ghost predicate QuotesFixed(qs: seq<QuoteSample>) {
    forall i, j | 0 <= i < |qs| && 0 <= j < |qs| && qs[i].quoteId == qs[j].quoteId :: qs[i] == qs[j]
  }

  // The latest row is the slippage of the samples now stored.
  ghost predicate Fresh(t: QuoteTables, chain: Chain, token: Token, settings: FeatureSettings) {
    var newest := NewestSamples(t.samples, chain, token);
    && newest != []
    && var key := QuoteKey(chain, token, LatestQuotedAt(newest));
       LatestSlippage(t, key) && t.snapshots[key] == Slippage(newest, settings)
  }

  lemma {:induction false} QuotedSamples(qs: seq<QuoteSample>, settings: FeatureSettings)
    ensures Quoted(qs, settings).samples == SampleTable(qs)
    decreases |qs|
  {
    if qs != [] {
      QuotedSamples(qs[..|qs| - 1], settings);
    }
  }

  lemma {:induction false} SampleTableHas(qs: seq<QuoteSample>, q: QuoteSample)
    requires QuotesFixed(qs)
    ensures q.quoteId in SampleTable(qs) && SampleTable(qs)[q.quoteId] == q <==> q in qs
    ensures forall id | id in SampleTable(qs) :: SampleTable(qs)[id].quoteId == id
    decreases |qs|
  {
    if qs != [] {
      var n := |qs| - 1;
      SampleTableHas(qs[..n], q);
      assert qs == qs[..n] + [qs[n]];
    }
  }

  lemma SamplesHave(qs: seq<QuoteSample>, chain: Chain, token: Token, q: QuoteSample)
    requires QuotesFixed(qs)
    ensures q in SamplesOf(SampleTable(qs), chain, token) <==> q in qs && q.chain == chain && q.token == token
  {
    SampleTableHas(qs, q);
  }

  lemma NewestHead(samples: map<string, QuoteSample>, chain: Chain, token: Token)
    requires SamplesOf(samples, chain, token) != {}
    ensures var newest := NewestSamples(samples, chain, token);
      newest != [] && forall q | q in SamplesOf(samples, chain, token) :: q.quotedAt <= newest[0].quotedAt
  {
    var items := SamplesOf(samples, chain, token);
    var all := Sorted(items, SampleRank);
    SortedHas(items, SampleRank);
    SortedAscends(items, SampleRank);
    NewestFirstHead(all);
    LastIsNewest(all);
    forall q | q in items
      ensures q.quotedAt <= all[|all| - 1].quotedAt
    {
      assert q in all;
    }
  }

  lemma LastIsNewest(s: seq<QuoteSample>)
    requires s != [] && Ascending(s, SampleRank)
    ensures forall q | q in s :: q.quotedAt <= s[|s| - 1].quotedAt
  {
  }

  lemma NewestOnly(samples: map<string, QuoteSample>, chain: Chain, token: Token, q: QuoteSample)
    requires q in NewestSamples(samples, chain, token)
    ensures q in SamplesOf(samples, chain, token)
  {
    var items := SamplesOf(samples, chain, token);
    SortedHas(items, SampleRank);
    NewestFirstOnly(Sorted(items, SampleRank), q);
  }

  // The newest sample loaded is the newest there is.
  lemma NewestIsLatest(samples: map<string, QuoteSample>, chain: Chain, token: Token)
    requires SamplesOf(samples, chain, token) != {}
    ensures var newest := NewestSamples(samples, chain, token);
      && newest != []
      && (forall q | q in SamplesOf(samples, chain, token) :: q.quotedAt <= LatestQuotedAt(newest))
      && exists q :: q in SamplesOf(samples, chain, token) && q.quotedAt == LatestQuotedAt(newest)
  {
    var newest := NewestSamples(samples, chain, token);
    NewestHead(samples, chain, token);
    assert newest[0] in newest;
    LatestQuoted(newest);
    var q :| q in newest && q.quotedAt == LatestQuotedAt(newest);
    NewestOnly(samples, chain, token, q);
  }

  // The row that the last quote writes.
  lemma LastQuote(qs: seq<QuoteSample>, settings: FeatureSettings) returns (key: QuoteKey)
    requires QuotesFixed(qs) && qs != []
    ensures var n := |qs| - 1;
      var t, t' := Quoted(qs[..n], settings), Quoted(qs, settings);
      var newest := NewestSamples(t'.samples, qs[n].chain, qs[n].token);
      && t.samples == SampleTable(qs[..n]) && t'.samples == SampleTable(qs)
      && newest != [] && key == QuoteKey(qs[n].chain, qs[n].token, LatestQuotedAt(newest))
      && t'.snapshots == t.snapshots[key := Slippage(newest, settings)]
  {
    var n := |qs| - 1;
    QuotedSamples(qs[..n], settings);
    QuotedSamples(qs, settings);
    var t' := Quoted(qs, settings);
    SampleLoads(t'.samples, qs[n]);
    key := QuoteKey(qs[n].chain, qs[n].token, LatestQuotedAt(NewestSamples(t'.samples, qs[n].chain, qs[n].token)));
  }

  // A quote for another pair leaves this one alone; one for this pair writes its latest row.
  lemma {:induction false} LatestSlippageFresh(
    qs: seq<QuoteSample>, chain: Chain, token: Token, settings: FeatureSettings)
    requires QuotesFixed(qs)
    requires exists q :: q in qs && q.chain == chain && q.token == token
    ensures Fresh(Quoted(qs, settings), chain, token, settings)
    decreases |qs|
  {
    var n := |qs| - 1;
    assert qs == qs[..n] + [qs[n]];
    if qs[n].chain == chain && qs[n].token == token {
      WrittenFresh(qs, settings);
    } else {
      LatestSlippageFresh(qs[..n], chain, token, settings);
      var key := LastQuote(qs, settings);
      OtherPair(qs, Quoted(qs[..n], settings), Quoted(qs, settings), key, chain, token, settings);
    }
  }

  lemma FreshMoves(
    t: QuoteTables, t': QuoteTables, key: QuoteKey, row: Snapshot, chain: Chain, token: Token,
    settings: FeatureSettings)
    requires t'.snapshots == t.snapshots[key := row] && (key.chain != chain || key.token != token)
    requires NewestSamples(t.samples, chain, token) == NewestSamples(t'.samples, chain, token)
    requires Fresh(t, chain, token, settings)
    ensures Fresh(t', chain, token, settings)
  {
  }

  lemma OtherPair(
    qs: seq<QuoteSample>, t: QuoteTables, t': QuoteTables, key: QuoteKey, chain: Chain, token: Token,
    settings: FeatureSettings)
    requires QuotesFixed(qs) && qs != [] && (qs[|qs| - 1].chain != chain || qs[|qs| - 1].token != token)
    requires t.samples == SampleTable(qs[..|qs| - 1]) && t'.samples == SampleTable(qs)
    requires key.chain == qs[|qs| - 1].chain && key.token == qs[|qs| - 1].token
    requires key in t'.snapshots && t'.snapshots == t.snapshots[key := t'.snapshots[key]]
    requires Fresh(t, chain, token, settings)
    ensures Fresh(t', chain, token, settings)
  {
    SameSamples(qs, chain, token);
    SameNewest(t.samples, t'.samples, chain, token);
    FreshMoves(t, t', key, t'.snapshots[key], chain, token, settings);
  }

  lemma SameNewest(a: map<string, QuoteSample>, b: map<string, QuoteSample>, chain: Chain, token: Token)
    requires SamplesOf(a, chain, token) == SamplesOf(b, chain, token)
    ensures NewestSamples(a, chain, token) == NewestSamples(b, chain, token)
  {
  }

  lemma SameSamples(qs: seq<QuoteSample>, chain: Chain, token: Token)
    requires QuotesFixed(qs) && qs != [] && (qs[|qs| - 1].chain != chain || qs[|qs| - 1].token != token)
    ensures SamplesOf(SampleTable(qs), chain, token) == SamplesOf(SampleTable(qs[..|qs| - 1]), chain, token)
  {
    var n := |qs| - 1;
    assert qs == qs[..n] + [qs[n]];
    forall q: QuoteSample
      ensures q in SamplesOf(SampleTable(qs), chain, token) <==> q in SamplesOf(SampleTable(qs[..n]), chain, token)
    {
      SamplesHave(qs, chain, token, q);
      SamplesHave(qs[..n], chain, token, q);
    }
  }

  // No row is dated after the newest sample of its pair.
  ghost predicate Dated(t: QuoteTables) {
    forall k | k in t.snapshots ::
      exists q :: q in SamplesOf(t.samples, k.chain, k.token) && q.quotedAt == k.asOf
  }

  lemma {:induction false} RowsDated(qs: seq<QuoteSample>, settings: FeatureSettings)
    requires QuotesFixed(qs)
    ensures Dated(Quoted(qs, settings))
    decreases |qs|
  {
    if qs != [] {
      var n := |qs| - 1;
      RowsDated(qs[..n], settings);
      DatedStep(qs, settings);
    }
  }

  lemma DatedMoves(t: QuoteTables, t': QuoteTables, key: QuoteKey, row: Snapshot)
    requires t'.snapshots == t.snapshots[key := row] && Dated(t)
    requires forall id | id in t.samples :: id in t'.samples && t'.samples[id] == t.samples[id]
    requires exists q :: q in SamplesOf(t'.samples, key.chain, key.token) && q.quotedAt == key.asOf
    ensures Dated(t')
  {
  }

  lemma SamplesKept(qs: seq<QuoteSample>)
    requires QuotesFixed(qs) && qs != []
    ensures var was, now := SampleTable(qs[..|qs| - 1]), SampleTable(qs);
      forall id | id in was :: id in now && now[id] == was[id]
  {
    var was, now := SampleTable(qs[..|qs| - 1]), SampleTable(qs);
    assert qs == qs[..|qs| - 1] + [qs[|qs| - 1]];
    forall id | id in was
      ensures id in now && now[id] == was[id]
    {
      SampleTableHas(qs[..|qs| - 1], was[id]);
      SampleTableHas(qs, was[id]);
    }
  }

  lemma DatedStep(qs: seq<QuoteSample>, settings: FeatureSettings)
    requires QuotesFixed(qs) && qs != [] && Dated(Quoted(qs[..|qs| - 1], settings))
    ensures Dated(Quoted(qs, settings))
  {
    var n := |qs| - 1;
    var t, t' := Quoted(qs[..n], settings), Quoted(qs, settings);
    var key := LastQuote(qs, settings);
    LastSample(qs);
    NewestIsLatest(t'.samples, qs[n].chain, qs[n].token);
    SamplesKept(qs);
    DatedMoves(t, t', key, t'.snapshots[key]);
  }

  lemma LastSample(qs: seq<QuoteSample>)
    requires QuotesFixed(qs) && qs != []
    ensures qs[|qs| - 1] in SamplesOf(SampleTable(qs), qs[|qs| - 1].chain, qs[|qs| - 1].token)
  {
    SamplesHave(qs, qs[|qs| - 1].chain, qs[|qs| - 1].token, qs[|qs| - 1]);
  }

  lemma WrittenFresh(qs: seq<QuoteSample>, settings: FeatureSettings)
    requires QuotesFixed(qs) && qs != []
    ensures Fresh(Quoted(qs, settings), qs[|qs| - 1].chain, qs[|qs| - 1].token, settings)
  {
    var n := |qs| - 1;
    var t := Quoted(qs, settings);
    QuotedSamples(qs, settings);
    SamplesHave(qs, qs[n].chain, qs[n].token, qs[n]);
    NewestIsLatest(t.samples, qs[n].chain, qs[n].token);
    RowsDated(qs, settings);
  }

  // --- what is published -------------------------------------------------------------------------

  lemma {:induction false} FirstAtIndex(samples: seq<QuoteSample>, notional: real) returns (i: nat)
    requires FirstAt(samples, notional).Some?
    ensures i < |samples| && FirstAt(samples, notional) == Some(samples[i]) && samples[i].notionalUsd == notional
    ensures forall j | 0 <= j < i :: samples[j].notionalUsd != notional
  {
    if samples[0].notionalUsd == notional {
      i := 0;
    } else {
      var rest := FirstAtIndex(samples[1..], notional);
      i := rest + 1;
      forall j | 0 <= j < i
        ensures samples[j].notionalUsd != notional
      {
        assert j > 0 ==> samples[j] == samples[1..][j - 1];
      }
    }
  }

  // The newest sample taken at the published notional is also what the curve gives there, so with the fallback
  // allowed the published value is the curve's estimate in either case.
  lemma PublishedIsEstimate(samples: seq<QuoteSample>, settings: FeatureSettings)
    requires settings.allowCurveFallback
    ensures Slippage(samples, settings).value
      == SlippageCurve.Estimate(Points(samples), settings.publicationNotionalUsd)
  {
    SlippageCurve.CurveEstimate(Points(samples), settings.publicationNotionalUsd);
    if FirstAt(samples, settings.publicationNotionalUsd).Some? {
      var i := FirstAtIndex(samples, settings.publicationNotionalUsd);
      SlippageCurve.EstimateAtKnot(Points(samples), i);
    }
  }

  // --- which sample is published -----------------------------------------------------------------

  lemma AllLoaded(samples: map<string, QuoteSample>, chain: Chain, token: Token)
    requires |SamplesOf(samples, chain, token)| <= 100
    ensures var newest := NewestSamples(samples, chain, token);
      && |newest| == |SamplesOf(samples, chain, token)|
      && (forall q :: q in newest <==> q in SamplesOf(samples, chain, token))
      && forall i, j | 0 <= i < j < |newest| :: newest[i].quotedAt >= newest[j].quotedAt
  {
    var items, newest := SamplesOf(samples, chain, token), NewestSamples(samples, chain, token);
    var all := Sorted(items, SampleRank);
    SelectedSound(items, SampleRank, 100);
    assert all == Selected(items, SampleRank, 100) && newest == Reversed(all);
    forall i | 0 <= i < |newest|
      ensures newest[i] == all[|all| - 1 - i]
    {
      ReversedAt(all, i);
    }
    forall q | q in items
      ensures q in newest
    {
      var k :| 0 <= k < |all| && all[k] == q;
      assert newest[|all| - 1 - k] == q;
    }
  }

  lemma {:induction false} FirstAtSome(samples: seq<QuoteSample>, notional: real)
    ensures FirstAt(samples, notional).Some? <==> exists q :: q in samples && q.notionalUsd == notional
  {
    if samples != [] {
      FirstAtSome(samples[1..], notional);
      assert samples == [samples[0]] + samples[1..];
    }
  }

  // Of its pair at the published notional, and newer than any other such sample.
  ghost predicate NewestAt(qs: seq<QuoteSample>, chain: Chain, token: Token, notional: real, q: QuoteSample) {
    && q in qs && q.chain == chain && q.token == token && q.notionalUsd == notional
    && forall p | p in qs && p != q && p.chain == chain && p.token == token && p.notionalUsd == notional ::
         p.quotedAt < q.quotedAt
  }

  // Over any run of quotes, while a pair has at most the 100 samples that a query returns: the latest row counts them
  // and gives the newest sample at the published notional; without one, the curve's estimate, or zero if that is
  // switched off.
  lemma PublishedExactly(qs: seq<QuoteSample>, chain: Chain, token: Token, settings: FeatureSettings)
    requires QuotesFixed(qs) && exists q :: q in qs && q.chain == chain && q.token == token
    requires |SamplesOf(SampleTable(qs), chain, token)| <= 100
    ensures var published, notional := SlippageNow(Quoted(qs, settings), chain, token), settings.publicationNotionalUsd;
      var samples := NewestSamples(SampleTable(qs), chain, token);
      && published.Some? && published.value.sampleCount == |SamplesOf(SampleTable(qs), chain, token)|
      && (forall q | NewestAt(qs, chain, token, notional, q) :: published.value.value == q.slippageBps)
      && ((forall q | q in qs && q.chain == chain && q.token == token :: q.notionalUsd != notional) ==>
            published.value.value
            == if settings.allowCurveFallback then SlippageCurve.Estimate(Points(samples), notional) else 0.0)
  {
    var t, notional := Quoted(qs, settings), settings.publicationNotionalUsd;
    var newest := NewestSamples(SampleTable(qs), chain, token);
    LatestSlippageFresh(qs, chain, token, settings);
    QuotedSamples(qs, settings);
    SlippageKnown(t, QuoteKey(chain, token, LatestQuotedAt(newest)));
    AllLoaded(SampleTable(qs), chain, token);
    FirstAtSome(newest, notional);
    SlippageCurve.CurveEstimate(Points(newest), notional);
    forall q: QuoteSample
      ensures q in newest <==> q in qs && q.chain == chain && q.token == token
    {
      SamplesHave(qs, chain, token, q);
    }
    forall q | NewestAt(qs, chain, token, notional, q)
      ensures FirstAt(newest, notional) == Some(q)
    {
      NewestIsFirst(newest, notional, q);
    }
  }

  lemma NewestIsFirst(newest: seq<QuoteSample>, notional: real, q: QuoteSample)
    requires q in newest && q.notionalUsd == notional
    requires forall i, j | 0 <= i < j < |newest| :: newest[i].quotedAt >= newest[j].quotedAt
    requires forall p | p in newest && p != q && p.notionalUsd == notional :: p.quotedAt < q.quotedAt
    ensures FirstAt(newest, notional) == Some(q)
  {
    FirstAtSome(newest, notional);
    var i := FirstAtIndex(newest, notional);
    var j :| 0 <= j < |newest| && newest[j] == q;
    assert newest[i] in newest;
  }
}
