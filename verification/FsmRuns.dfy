// The rate limit of core/state_engine.py as it survives core/pipeline.py's checkpoints: over whole runs, with
// crashes, restarts and signals whose timestamps arrive in any order.
module FsmRuns {
  import opened Schemas
  import opened World
  import opened Pipeline
  import opened OrderLifecycle
  import PipelineWorker
  import StateEngine

  // --- one step and one checkpoint ---------------------------------------------------------------

  ghost predicate SavesOnly(es: seq<Effect>, key: FsmKey, ck: StateEngine.Checkpoint) {
    forall e | e in es && e.SaveCheckpoint? :: e.key == key && e.checkpoint == ck
  }

  lemma {:induction false} CheckpointAfter(w: World, es: seq<Effect>, k: nat, key: FsmKey, ck: StateEngine.Checkpoint)
    requires k <= |es| && SavesOnly(es, key, ck)
    ensures After(w, es, k).checkpoints in {w.checkpoints, w.checkpoints[key := ck]}
    decreases k
  {
    if k > 0 {
      CheckpointAfter(w, es, k - 1, key, ck);
      assert es[k - 1] in es;
      assert w.checkpoints[key := ck][key := ck] == w.checkpoints[key := ck];
    }
  }

  lemma {:induction false} ExecuteSavesNone(
    s: Settings, intent: Intent, adjusted: real, at: int, adapter: nat -> Outcome, n: nat)
    ensures forall e | e in ExecuteEffects(s, intent, adjusted, at, adapter, n) :: !e.SaveCheckpoint?
    decreases s.MaxAttempts() - n
  {
    if n < s.MaxAttempts() {
      ExecuteSavesNone(s, intent, adjusted, at, adapter, n + 1);
      var first := AttemptEffects(s, intent, adjusted, at, adapter, n);
      forall e | e in first
        ensures !e.SaveCheckpoint?
      {
        assert e == first[0] || e == first[1] || e == first[2] || e == first[3];
      }
    }
  }

  lemma SavesConcat(a: seq<Effect>, b: seq<Effect>, key: FsmKey, ck: StateEngine.Checkpoint)
    requires SavesOnly(a, key, ck) && SavesOnly(b, key, ck)
    ensures SavesOnly(a + b, key, ck)
  {
  }

  lemma TradeSaves(s: Settings, w: World, p: Plan, input: Input, intent: Intent, adjusted: real)
    ensures SavesOnly(TradeEffects(s, w, p, input, intent, adjusted), KeyOf(input.signal), p.checkpoint)
  {
    var key, ck, at, n := KeyOf(input.signal), p.checkpoint, input.signal.timestamp, AttemptsOf(w, intent.id);
    ExecuteSavesNone(s, intent, adjusted, at, input.adapter, n);
    var opening := OpeningEffects(s, w, input, intent, adjusted);
    SavesConcat(
      SubmissionEffects(w, intent, adjusted, at), ExecuteEffects(s, intent, adjusted, at, input.adapter, n), key, ck);
    var result := ExecuteResult(s, intent, input.adapter, n);
    var closing := if result.None? then [] else
      FilledClosing(p, input, intent, result.value, adjusted, LastAttempt(s, input.adapter, n));
    SavesConcat(opening, closing, key, ck);
  }

  lemma ProcessSaves(s: Settings, w: World, input: Input)
    ensures SavesOnly(ProcessEffects(s, w, input), KeyOf(input.signal), PlanOf(s, w, input).checkpoint)
  {
    var p := PlanOf(s, w, input);
    if p.intent.Some? {
      TradeSaves(s, w, p, input, p.intent.value, Adjusted(s, p, input));
    }
  }

  lemma {:induction false} RecoverSavesNone(s: Settings, w: World, rs: seq<Recoverable>, env: IntentId -> Env)
    ensures forall e | e in RecoverEffects(s, w, rs, env) :: !e.SaveCheckpoint?
    decreases |rs|
  {
    if rs != [] {
      var n := |rs| - 1;
      RecoverSavesNone(s, w, rs[..n], env);
      var before := RecoverState(s, w, rs[..n], env);
      var r, e := rs[n], env(rs[n].intent.id);
      ExecuteSavesNone(s, r.intent, r.adjustedUsd, e.riskAt, e.adapter, AttemptsOf(before, r.intent.id));
    }
  }

  // One step of a run leaves a checkpoint alone, or replaces it by what the state engine makes of it.
  lemma MoveCheckpoint(s: Settings, w: World, step: Step, w': World, key: FsmKey)
    requires Moves(s, w, step, w')
    ensures
      || CheckpointOf(w', key) == CheckpointOf(w, key)
      || (step.Process?
          && KeyOf(step.input.signal) == key
          && CheckpointOf(w', key)
             == Some(StateEngine.Step(s.minTransitionInterval, CheckpointOf(w, key), step.input.signal).1))
  {
    var es := StepEffects(s, w, step);
    var k := if step.cut <= |es| then step.cut else |es|;
    match step {
      case Process(input, _) =>
        ProcessSaves(s, w, input);
        CheckpointAfter(w, es, k, KeyOf(input.signal), PlanOf(s, w, input).checkpoint);
      case Recover(rows, env, _) =>
        RecoverSavesNone(s, w, rows, env);
        CheckpointAfter(w, es, k, key, StateEngine.Checkpoint(UNKNOWN, None));
        NoSaves(w, es, k);
    }
  }

  lemma {:induction false} NoSaves(w: World, es: seq<Effect>, k: nat)
    requires k <= |es| && forall e | e in es :: !e.SaveCheckpoint?
    ensures After(w, es, k).checkpoints == w.checkpoints
    decreases k
  {
    if k > 0 {
      NoSaves(w, es, k - 1);
      assert es[k - 1] in es;
    }
  }

  // --- when it moves -----------------------------------------------------------------------------

  ghost function StateAt(w: World, key: FsmKey): TokenState { StateEngine.PersistedState(CheckpointOf(w, key)) }

  ghost predicate SavesLast(es: seq<Effect>, key: FsmKey, ck: StateEngine.Checkpoint) {
    && es != [] && es[|es| - 1] == SaveCheckpoint(key, ck)
    && forall i | 0 <= i < |es| - 1 :: !es[i].SaveCheckpoint?
  }

  lemma SavesLastConcat(a: seq<Effect>, b: seq<Effect>, key: FsmKey, ck: StateEngine.Checkpoint)
    requires (forall e | e in a :: !e.SaveCheckpoint?) && SavesLast(b, key, ck)
    ensures SavesLast(a + b, key, ck)
  {
    forall i | 0 <= i < |a + b| - 1
      ensures !(a + b)[i].SaveCheckpoint?
    {
      assert i < |a| ==> (a + b)[i] in a;
    }
  }

  lemma OpeningSavesNone(s: Settings, w: World, input: Input, intent: Intent, adjusted: real)
    ensures forall e | e in OpeningEffects(s, w, input, intent, adjusted) :: !e.SaveCheckpoint?
  {
    ExecuteSavesNone(s, intent, adjusted, input.signal.timestamp, input.adapter, AttemptsOf(w, intent.id));
  }

  // The checkpoint is the last write of a batch, and an exhausted batch makes none.
  lemma CheckpointLast(s: Settings, w: World, input: Input)
    ensures var es := ProcessEffects(s, w, input);
      if Exhausted(s, w, input) then forall e | e in es :: !e.SaveCheckpoint?
      else SavesLast(es, KeyOf(input.signal), PlanOf(s, w, input).checkpoint)
  {
    var p := PlanOf(s, w, input);
    if p.intent.Some? && !AlreadyTerminal(w, p.intent.value.id) && Allowed(s, p, input) {
      TradeSavesLast(s, w, input, p, p.intent.value);
    }
  }

  lemma TradeSavesLast(s: Settings, w: World, input: Input, p: Plan, x: Intent)
    ensures var es := TradeEffects(s, w, p, input, x, Adjusted(s, p, input));
      if ExecuteResult(s, x, input.adapter, AttemptsOf(w, x.id)).None? then forall e | e in es :: !e.SaveCheckpoint?
      else SavesLast(es, KeyOf(input.signal), p.checkpoint)
  {
    var adjusted, n := Adjusted(s, p, input), AttemptsOf(w, x.id);
    var opening, result := OpeningEffects(s, w, input, x, adjusted), ExecuteResult(s, x, input.adapter, n);
    OpeningSavesNone(s, w, input, x, adjusted);
    if result.Some? {
      SavesLastConcat(
        opening, FilledClosing(p, input, x, result.value, adjusted, LastAttempt(s, input.adapter, n)),
        KeyOf(input.signal), p.checkpoint);
    }
  }

  lemma SavedAtEnd(w: World, es: seq<Effect>, k: nat, key: FsmKey, ck: StateEngine.Checkpoint)
    requires SavesLast(es, key, ck) && k <= |es|
    ensures After(w, es, k).checkpoints == if k == |es| then w.checkpoints[key := ck] else w.checkpoints
  {
    SavedNothing(w, es, if k < |es| then k else |es| - 1);
  }

  lemma {:induction false} SavedNothing(w: World, es: seq<Effect>, k: nat)
    requires k <= |es| && forall i | 0 <= i < k :: !es[i].SaveCheckpoint?
    ensures After(w, es, k).checkpoints == w.checkpoints
    decreases k
  {
    if k > 0 {
      SavedNothing(w, es, k - 1);
    }
  }

  // The batch gets to its checkpoint: it neither exhausts its attempts nor is cut short.
  ghost predicate Completes(s: Settings, w: World, step: Step) {
    step.Process? && !Exhausted(s, w, step.input) && step.cut >= |ProcessEffects(s, w, step.input)|
  }

  // The persisted state of a token changes exactly in a batch of that token that gets to its checkpoint, when the
  // interval has passed since the last transition and its signal derives another state; and it becomes that state.
  lemma MovesExactly(s: Settings, w: World, step: Step, w': World, key: FsmKey)
    requires Moves(s, w, step, w')
    ensures StateAt(w', key) != StateAt(w, key) <==>
      && Completes(s, w, step) && KeyOf(step.input.signal) == key
      && StateEngine.Waited(CheckpointOf(w, key), step.input.signal.timestamp) >= s.minTransitionInterval
      && StateEngine.DeriveState(StateAt(w, key), step.input.signal) != StateAt(w, key)
    ensures StateAt(w', key) != StateAt(w, key) ==>
      StateAt(w', key) == StateEngine.DeriveState(StateAt(w, key), step.input.signal)
  {
    var es := StepEffects(s, w, step);
    var k := if step.cut <= |es| then step.cut else |es|;
    match step {
      case Process(input, _) =>
        CheckpointLast(s, w, input);
        StateEngine.StepExactly(s.minTransitionInterval, CheckpointOf(w, KeyOf(input.signal)), input.signal);
        if Exhausted(s, w, input) {
          NoSaves(w, es, k);
        } else {
          SavedAtEnd(w, es, k, KeyOf(input.signal), PlanOf(s, w, input).checkpoint);
        }
      case Recover(rows, env, _) =>
        RecoverSavesNone(s, w, rows, env);
        NoSaves(w, es, k);
    }
  }

  // --- the history of persisted changes ----------------------------------------------------------

  // The signal timestamps of the steps, among the first k, that changed the persisted state of a token.
  ghost function ChangeTimes(states: seq<World>, steps: seq<Step>, key: FsmKey, k: nat): seq<int>
    requires k <= |steps| && |states| == |steps| + 1
    decreases k
  {
    if k == 0 then []
    else
      ChangeTimes(states, steps, key, k - 1)
      + if StateAt(states[k - 1], key) != StateAt(states[k], key) && steps[k - 1].Process?
        then [steps[k - 1].input.signal.timestamp] else []
  }

  // Every change at least the interval after the one before; hence strictly increasing.
  ghost predicate Spaced(times: seq<int>, interval: int) {
    forall i | 0 < i < |times| :: times[i] >= times[i - 1] + interval
  }

  // What a step does to the stored timestamp of a token, relative to the change it makes.
  ghost predicate Respects(interval: int, w: World, step: Step, w': World, key: FsmKey) {
    var last, last' :=
      StateEngine.LastTransition(CheckpointOf(w, key)), StateEngine.LastTransition(CheckpointOf(w', key));
    if StateAt(w, key) == StateAt(w', key) then last' == last
    else
      && step.Process?
      && last' == Some(step.input.signal.timestamp)
      && (last.Some? ==> last'.value >= last.value + interval)
  }

  lemma StepSpaced(s: Settings, w: World, step: Step, w': World, key: FsmKey)
    requires s.minTransitionInterval > 0 && Moves(s, w, step, w')
    ensures Respects(s.minTransitionInterval, w, step, w', key)
  {
    MoveCheckpoint(s, w, step, w', key);
    if step.Process? {
      StateEngine.StepSpacing(s.minTransitionInterval, CheckpointOf(w, key), step.input.signal);
    }
  }

  // The spacing so far, and the stored timestamp as the latest change.
  ghost predicate Tracked(times: seq<int>, interval: int, last: Option<int>) {
    Spaced(times, interval) && last == if times == [] then None else Some(times[|times| - 1])
  }

  lemma TrackOne(times: seq<int>, interval: int, last: Option<int>, t: int)
    requires Tracked(times, interval, last) && (last.Some? ==> t >= last.value + interval)
    ensures Tracked(times + [t], interval, Some(t))
  {
  }

  lemma {:induction false} SpacedHistory(interval: int, states: seq<World>, steps: seq<Step>, key: FsmKey, k: nat)
    requires |states| == |steps| + 1 && k <= |steps|
    requires forall i | 0 <= i < |steps| :: Respects(interval, states[i], steps[i], states[i + 1], key)
    requires CheckpointOf(states[0], key) == None
    ensures Tracked(
      ChangeTimes(states, steps, key, k), interval, StateEngine.LastTransition(CheckpointOf(states[k], key)))
    decreases k
  {
    if k > 0 {
      var before := ChangeTimes(states, steps, key, k - 1);
      SpacedHistory(interval, states, steps, key, k - 1);
      assert Respects(interval, states[k - 1], steps[k - 1], states[k - 1 + 1], key);
      if StateAt(states[k - 1], key) == StateAt(states[k], key) {
        assert before + [] == before;
      } else {
        TrackOne(
          before, interval, StateEngine.LastTransition(CheckpointOf(states[k - 1], key)),
          steps[k - 1].input.signal.timestamp);
      }
    }
  }

  // For any run with crashes and any signals, even out of order: the persisted changes of a token are at least
  // the minimum interval apart, and the stored timestamp is that of the latest one.
  lemma RateLimitOverRuns(s: Settings, states: seq<World>, steps: seq<Step>, key: FsmKey, k: nat)
    requires s.minTransitionInterval > 0
    requires Run(s, states, steps) && states[0] == EMPTY && k <= |steps|
    ensures Tracked(
      ChangeTimes(states, steps, key, k), s.minTransitionInterval,
      StateEngine.LastTransition(CheckpointOf(states[k], key)))
  {
    forall i | 0 <= i < |steps|
      ensures Respects(s.minTransitionInterval, states[i], steps[i], states[i + 1], key)
    {
      StepSpaced(s, states[i], steps[i], states[i + 1], key);
    }
    SpacedHistory(s.minTransitionInterval, states, steps, key, k);
  }

  // --- how many changes fit into an interval -----------------------------------------------------

  function CountWithin(times: seq<int>, a: int, b: int): nat {
    if times == [] then 0
    else CountWithin(times[..|times| - 1], a, b) + if a <= times[|times| - 1] <= b then 1 else 0
  }

  // Enough time since the last of these changes; a token that has never changed counts as waiting for 120 seconds.
  predicate Due(times: seq<int>, interval: int, now: int) {
    if times == [] then interval <= 120 else now >= times[|times| - 1] + interval
  }

  // Over every run: a batch that gets to its checkpoint changes the state of its token exactly if the token's last
  // change is at least the interval ago and the signal derives another state. So no token is ever stuck.
  lemma MovesWhenDue(s: Settings, states: seq<World>, steps: seq<Step>, key: FsmKey, k: nat)
    requires s.minTransitionInterval > 0
    requires Run(s, states, steps) && states[0] == EMPTY && k < |steps|
    requires Completes(s, states[k], steps[k]) && KeyOf(steps[k].input.signal) == key
    ensures var g, times := steps[k].input.signal, ChangeTimes(states, steps, key, k);
      ChangeTimes(states, steps, key, k + 1) == times + [g.timestamp] <==>
        && Due(times, s.minTransitionInterval, g.timestamp)
        && StateEngine.DeriveState(StateAt(states[k], key), g) != StateAt(states[k], key)
  {
    RateLimitOverRuns(s, states, steps, key, k);
    assert Moves(s, states[k], steps[k], states[k + 1]);
    MovesExactly(s, states[k], steps[k], states[k + 1], key);
  }

  lemma {:induction false} SpacedBelow(times: seq<int>, interval: int, i: nat)
    requires Spaced(times, interval) && interval > 0 && i < |times| - 1
    ensures times[i] + interval <= times[|times| - 1]
    decreases |times| - i
  {
    assert times[i + 1] >= times[i + 1 - 1] + interval;
    if i < |times| - 2 {
      SpacedBelow(times, interval, i + 1);
    }
  }

  // Nothing lies beyond the last change, so the upper end of the interval may be lowered to it.
  lemma {:induction false} CountClipped(times: seq<int>, a: int, b: int, top: int)
    requires top <= b && forall t | t in times :: t <= top
    ensures CountWithin(times, a, b) == CountWithin(times, a, top)
    decreases |times|
  {
    if times != [] {
      var n := |times| - 1;
      assert forall t | t in times[..n] :: t in times;
      CountClipped(times[..n], a, b, top);
      assert times[n] in times;
    }
  }

  lemma EarlierOnes(init: seq<int>, last: int, interval: int)
    requires Spaced(init + [last], interval) && interval > 0
    ensures forall t | t in init :: t <= last - interval
  {
    forall t | t in init
      ensures t <= last - interval
    {
      var i :| 0 <= i < |init| && init[i] == t;
      SpacedBelow(init + [last], interval, i);
    }
  }

  ghost predicate Fits(n: nat, interval: int, span: int) { n > 0 ==> Times(n - 1, interval) <= span }

  lemma OneMore(n: nat, interval: int, a: int, last: int, b: int)
    requires Fits(n, interval, last - interval - a) && a <= last <= b
    ensures Fits(n + 1, interval, b - a)
  {
  }

  lemma SpacedPrefix(times: seq<int>, interval: int)
    requires Spaced(times, interval) && times != []
    ensures Spaced(times[..|times| - 1], interval)
    ensures times == times[..|times| - 1] + [times[|times| - 1]]
  {
  }

  // n changes span at least n - 1 intervals.
  lemma {:induction false} CountSpan(times: seq<int>, interval: int, a: int, b: int)
    requires Spaced(times, interval) && interval > 0
    ensures Fits(CountWithin(times, a, b), interval, b - a)
    decreases |times|
  {
    if times != [] {
      var n := |times| - 1;
      var init, last := times[..n], times[n];
      SpacedPrefix(times, interval);
      if a <= last <= b {
        EarlierOnes(init, last, interval);
        CountClipped(init, a, b, last - interval);
        CountSpan(init, interval, a, last - interval);
        OneMore(CountWithin(init, a, b), interval, a, last, b);
      } else {
        CountSpan(init, interval, a, b);
      }
    }
  }

  // n intervals, by repeated addition.
  function Times(n: nat, d: int): int { if n == 0 then 0 else Times(n - 1, d) + d }

  lemma {:induction false} TimesIsProduct(n: nat, d: int)
    ensures Times(n, d) == n * d
  {
    if n > 0 {
      TimesIsProduct(n - 1, d);
    }
  }

  lemma Quotient(x: int, d: int)
    requires d > 0
    ensures (x / d) * d <= x < (x / d) * d + d
  {
  }

  lemma ProductMono(a: int, b: int, d: int)
    requires a <= b && d > 0
    ensures a * d <= b * d
  {
  }

  lemma FloorBound(n: nat, x: int, d: int)
    requires d > 0 && Times(n, d) <= x
    ensures n <= x / d
  {
    var q := x / d;
    TimesIsProduct(n, d);
    Quotient(x, d);
    assert (q + 1) * d == q * d + d;
    if n >= q + 1 {
      ProductMono(q + 1, n, d);
    }
  }

  // Any closed interval of signal time holds at most floor((b - a) / interval) + 1 persisted changes.
  lemma ChangesPerInterval(s: Settings, states: seq<World>, steps: seq<Step>, key: FsmKey, a: int, b: int)
    requires s.minTransitionInterval > 0 && a <= b
    requires Run(s, states, steps) && states[0] == EMPTY
    ensures CountWithin(ChangeTimes(states, steps, key, |steps|), a, b) <= (b - a) / s.minTransitionInterval + 1
  {
    RateLimitOverRuns(s, states, steps, key, |steps|);
    SpanFloor(ChangeTimes(states, steps, key, |steps|), s.minTransitionInterval, a, b);
  }

  lemma SpanFloor(times: seq<int>, interval: int, a: int, b: int)
    requires Spaced(times, interval) && interval > 0 && a <= b
    ensures CountWithin(times, a, b) <= (b - a) / interval + 1
  {
    CountSpan(times, interval, a, b);
    var n := CountWithin(times, a, b);
    FloorBound(if n > 0 then n - 1 else 0, b - a, interval);
  }
}
