/**
 * What every run of the scan achieves: it cannot deadlock while a thread is
 * still running (given at least one worker), it ends after a bounded number
 * of steps, and when it ends every candidate was handled exactly once and
 * every worker stopped on a sentinel of its own.
 */
module Outcome {
  import opened Wrappers
  import opened Wordlist
  import opened Sink
  import opened Counting
  import opened Scan
  import opened Shutdown

  /** The queue holds only candidates before the sentinels are put. */
  lemma NoSentinelBeforeSignalling(cfg: Config, phase: Phase, pushed: seq<Item>)
    requires Shape(cfg, phase, pushed) && (phase.Feeding? || phase.Joining?)
    ensures forall p :: 0 <= p < |pushed| ==> pushed[p].Name?
  {
  }

  /** Once signalling is over, exactly one sentinel per thread has been put,
      and the last item put is one of them. */
  lemma SentinelsPut(cfg: Config, phase: Phase, pushed: seq<Item>)
    requires Shape(cfg, phase, pushed) && (phase.Reaping? || phase.Finished?)
    ensures Count(pushed, IsSentinel) == Pool(cfg)
    ensures Pool(cfg) > 0 ==> pushed[|pushed| - 1] == Sentinel
  {
    var all := Names(Candidates(SourceLines(cfg.source)));
    CountAppend(all, Sentinels(Pool(cfg)), IsSentinel);
    CountNone(all, IsSentinel);
    CountAll(Sentinels(Pool(cfg)), IsSentinel);
  }

  /** While the coordinator waits in the join, some worker can move. */
  lemma JoinProgress(cfg: Config, env: Env, s: State) returns (w: nat)
    requires Inv(cfg, env, s) && Pool(cfg) >= 1 && s.phase.Joining? && s.unfinished != 0
    ensures Enabled(s, Work(w))
  {
    NoSentinelBeforeSignalling(cfg, s.phase, s.pushed);
    CountNone(s.pushed[..s.popped], IsSentinel);
    if s.workers[0].Busy? || s.popped < |s.pushed| {
      w := 0;
    } else {
      w := CountWitness(s.workers, IsBusy);
    }
  }

  /** Fewer workers have exited than sentinels were put, so a sentinel is
      still queued. */
  lemma SentinelStillQueued(pushed: seq<Item>, popped: nat, workers: seq<WorkerState>, w: nat)
    requires popped <= |pushed| && w < |workers| && !workers[w].Exited?
    requires Count(pushed[..popped], IsSentinel) == Count(workers, IsExited)
    requires Count(pushed, IsSentinel) == |workers|
    ensures popped < |pushed|
  {
    CountBelowLength(workers, IsExited, w);
    assert pushed[..|pushed|] == pushed;
  }

  /** While the coordinator waits for the workers to exit, one that has not
      exited can move. */
  lemma ReapProgress(cfg: Config, env: Env, s: State, w: nat)
    requires Inv(cfg, env, s) && s.phase.Reaping?
    requires w < |s.workers| && !s.workers[w].Exited?
    ensures Enabled(s, Work(w))
  {
    SentinelsPut(cfg, s.phase, s.pushed);
    SentinelStillQueued(s.pushed, s.popped, s.workers, w);
  }

  /** Some thread can always move until the scan is finished. */
  lemma Progress(cfg: Config, env: Env, s: State) returns (step: Step)
    requires Inv(cfg, env, s) && Pool(cfg) >= 1 && !s.phase.Finished?
    ensures Enabled(s, step)
  {
    match s.phase
    case Feeding(_) => step := Coordinator;
    case Signalling(_) => step := Coordinator;
    case Joining =>
      if s.unfinished == 0 {
        step := Coordinator;
      } else {
        var w := JoinProgress(cfg, env, s);
        step := Work(w);
      }
    case Reaping =>
      if forall w :: 0 <= w < |s.workers| ==> s.workers[w].Exited? {
        step := Coordinator;
      } else {
        var w :| 0 <= w < |s.workers| && !s.workers[w].Exited?;
        ReapProgress(cfg, env, s, w);
        step := Work(w);
      }
  }

  /** What remains to be done by the coordinator, counting for every line
      still to read the worker steps its candidate may cause. */
  function Remaining(cfg: Config, phase: Phase): nat {
    match phase
    case Feeding(rest) => 3 * |rest| + 2 * Pool(cfg) + 4
    case Joining => 2 * Pool(cfg) + 3
    case Signalling(left) => 2 * left + 2
    case Reaping => 1
    case Finished => 0
  }

  /** An upper bound on the steps left: each queued candidate needs a take
      and an acknowledgement, each queued sentinel a take, each candidate in
      hand an acknowledgement. */
  function Potential(cfg: Config, s: State): nat
    requires s.popped <= |s.pushed|
  {
    Remaining(cfg, s.phase) + (|s.pushed| - s.popped) + Count(s.pushed[s.popped..], IsName)
      + Count(s.workers, IsBusy)
  }

  lemma PutPotential(cfg: Config, s: State, phase: Phase, more: seq<Item>)
    requires s.popped <= |s.pushed|
    ensures var t := AfterPut(s, phase, more);
            && t.popped == s.popped <= |t.pushed| == |s.pushed| + |more| && t.workers == s.workers
            && Count(t.pushed[t.popped..], IsName) == Count(s.pushed[s.popped..], IsName) + Count(more, IsName)
  {
    var t := AfterPut(s, phase, more);
    assert t.pushed[t.popped..] == s.pushed[s.popped..] + more;
    CountAppend(s.pushed[s.popped..], more, IsName);
  }

  /** Reading a line, or the end of the wordlist, lowers the potential. */
  lemma FeedDecreasesPotential(cfg: Config, env: Env, s: State)
    requires s.popped <= |s.pushed| && s.phase.Feeding?
    ensures var t := Next(cfg, env, s, Coordinator); t.popped <= |t.pushed| && Potential(cfg, t) < Potential(cfg, s)
  {
    var t := Next(cfg, env, s, Coordinator);
    var rest := s.phase.rest;
    if rest == [] {
      var phase := if SetupFails(cfg.source) then Signalling(Pool(cfg)) else Joining;
      assert t == AfterPut(s, phase, []);
      PutPotential(cfg, s, phase, []);
    } else {
      var more := Names(Keep(rest[0]));
      assert t == AfterPut(s, Feeding(rest[1..]), more);
      PutPotential(cfg, s, Feeding(rest[1..]), more);
      assert |more| <= 1;
    }
  }

  /** Every coordinator step lowers the potential. */
  lemma CoordinatorDecreasesPotential(cfg: Config, env: Env, s: State)
    requires s.popped <= |s.pushed| && Enabled(s, Coordinator)
    requires s.phase.Signalling? ==> s.phase.left <= Pool(cfg)
    ensures var t := Next(cfg, env, s, Coordinator); t.popped <= |t.pushed| && Potential(cfg, t) < Potential(cfg, s)
  {
    var t := Next(cfg, env, s, Coordinator);
    match s.phase {
      case Feeding(rest) =>
        FeedDecreasesPotential(cfg, env, s);
      case Joining =>
        assert t == AfterPut(s, Signalling(Pool(cfg)), []);
        PutPotential(cfg, s, Signalling(Pool(cfg)), []);
      case Signalling(left) =>
        if left == 0 {
          assert t == AfterPut(s, Reaping, []);
          PutPotential(cfg, s, Reaping, []);
        } else {
          assert t == AfterPut(s, Signalling(left - 1), [Sentinel]);
          PutPotential(cfg, s, Signalling(left - 1), [Sentinel]);
          CountNone([Sentinel], IsName);
        }
      case Reaping =>
        assert t == AfterPut(s, Finished, []);
        PutPotential(cfg, s, Finished, []);
    }
  }

  /** Every worker step lowers the potential. */
  lemma WorkDecreasesPotential(cfg: Config, env: Env, s: State, w: nat)
    requires s.popped <= |s.pushed| && Enabled(s, Work(w))
    ensures var t := Next(cfg, env, s, Work(w)); t.popped <= |t.pushed| && Potential(cfg, t) < Potential(cfg, s)
  {
    var t := Next(cfg, env, s, Work(w));
    assert t.phase == s.phase;
    CountUpdate(s.workers, IsBusy, w, t.workers[w]);
    if s.workers[w].Waiting? {
      assert s.pushed[s.popped..] == [s.pushed[s.popped]] + t.pushed[t.popped..];
      CountAppend([s.pushed[s.popped]], t.pushed[t.popped..], IsName);
    }
  }

  /** Runs keep the invariant, and each step uses up part of the potential. */
  lemma {:induction false} RunKeepsInv(cfg: Config, env: Env, s: State, steps: seq<Step>)
    requires Inv(cfg, env, s) && Run(cfg, env, s, steps).Some?
    ensures var t := Run(cfg, env, s, steps).value;
            Inv(cfg, env, t) && Potential(cfg, t) + |steps| <= Potential(cfg, s)
    decreases |steps|
  {
    if steps != [] {
      NextPreservesInv(cfg, env, s, steps[0]);
      if steps[0].Coordinator? {
        CoordinatorDecreasesPotential(cfg, env, s);
      } else {
        WorkDecreasesPotential(cfg, env, s, steps[0].w);
      }
      RunKeepsInv(cfg, env, Next(cfg, env, s, steps[0]), steps[1..]);
    }
  }

  /** Every state some interleaving reaches satisfies the invariant. */
  lemma Reachable(cfg: Config, env: Env, steps: seq<Step>)
    requires Run(cfg, env, Init(cfg), steps).Some?
    ensures Inv(cfg, env, Run(cfg, env, Init(cfg), steps).value)
  {
    InitEstablishesInv(cfg, env);
    RunKeepsInv(cfg, env, Init(cfg), steps);
  }

  /** Every interleaving of the threads ends within a bound fixed by the
      wordlist's length and the number of threads. */
  lemma ScanTerminates(cfg: Config, env: Env, steps: seq<Step>)
    requires Run(cfg, env, Init(cfg), steps).Some?
    ensures |steps| <= 3 * |SourceLines(cfg.source)| + 2 * Pool(cfg) + 4
  {
    InitEstablishesInv(cfg, env);
    RunKeepsInv(cfg, env, Init(cfg), steps);
    CountNone(Init(cfg).workers, IsBusy);
  }

  /** On the normal path the first sentinel is put only after every candidate
      was acknowledged. */
  lemma SentinelsFollowTheJoin(cfg: Config, env: Env, steps: seq<Step>, p: nat)
    requires Run(cfg, env, Init(cfg), steps).Some? && !SetupFails(cfg.source)
    requires var t := Run(cfg, env, Init(cfg), steps).value; p < |t.pushed| && t.pushed[p] == Sentinel
    ensures var t := Run(cfg, env, Init(cfg), steps).value;
            forall q :: 0 <= q < |t.pushed| && t.pushed[q].Name? ==> q in t.handled
  {
    Reachable(cfg, env, steps);
    var t := Run(cfg, env, Init(cfg), steps).value;
    if t.phase.Feeding? || t.phase.Joining? {
      NoSentinelBeforeSignalling(cfg, t.phase, t.pushed);
    }
  }

  /** A worker holds at most one unacknowledged candidate it has taken: it calls
      `task_done` for one item before it takes the next. */
  lemma OneCandidateInHand(cfg: Config, env: Env, steps: seq<Step>, p: nat, q: nat)
    requires Run(cfg, env, Init(cfg), steps).Some?
    requires var t := Run(cfg, env, Init(cfg), steps).value;
             p < |t.owner| && q < |t.owner| && p < |t.pushed| && q < |t.pushed|
             && t.pushed[p].Name? && t.pushed[q].Name?
             && t.owner[p] == t.owner[q] && p !in t.handled && q !in t.handled
    ensures p == q
  {
    Reachable(cfg, env, steps);
  }

  /** No worker takes a second sentinel. */
  lemma OneSentinelPerWorker(cfg: Config, env: Env, steps: seq<Step>, p: nat, q: nat)
    requires Run(cfg, env, Init(cfg), steps).Some?
    requires var t := Run(cfg, env, Init(cfg), steps).value;
             p < |t.owner| && q < |t.owner| && p < |t.pushed| && q < |t.pushed|
             && t.pushed[p] == Sentinel && t.pushed[q] == Sentinel
             && t.owner[p] == t.owner[q]
    ensures p == q
  {
    Reachable(cfg, env, steps);
  }

  /** A worker that has taken its sentinel never moves again, and no other
      step changes its state. */
  lemma ExitedIsFinal(cfg: Config, env: Env, s: State, step: Step, w: nat)
    requires Enabled(s, step) && w < |s.workers| && s.workers[w].Exited?
    ensures step != Work(w)
    ensures Next(cfg, env, s, step).workers[w] == s.workers[w]
  {
  }

  /** A scan in which no thread can move has finished. */
  lemma QuiescentIsFinished(cfg: Config, env: Env, t: State)
    requires Inv(cfg, env, t) && Pool(cfg) >= 1 && Quiescent(t)
    ensures t.phase == Finished
  {
    if !t.phase.Finished? {
      var step := Progress(cfg, env, t);
    }
  }

  /** At the end the queue is empty: every worker took its sentinel, and the
      last item is a sentinel. */
  lemma FinishedDrained(cfg: Config, env: Env, t: State)
    requires Inv(cfg, env, t) && Pool(cfg) >= 1 && t.phase == Finished
    ensures t.popped == |t.pushed|
  {
    SentinelsPut(cfg, t.phase, t.pushed);
    CountAll(t.workers, IsExited);
    if t.popped < |t.pushed| {
      CountShortPrefix(t.pushed, IsSentinel, t.popped);
    }
  }

  /** The state a clean shutdown leaves: the queue received the wordlist's
      candidates followed by one sentinel per thread and all were taken;
      every candidate was handled, only candidates were handled, none twice;
      each worker stopped on a sentinel it took itself, one per worker; and
      the lines this run appended to the result file read back as the records
      of the handled candidates, in the order they were appended, after
      whatever records the file held before. */
  ghost predicate CleanShutdown(cfg: Config, env: Env, t: State) {
    && t.phase == Finished
    && t.pushed == Names(Candidates(SourceLines(cfg.source))) + Sentinels(Pool(cfg))
    && t.popped == |t.pushed| == |t.owner|
    && (forall p :: 0 <= p < |t.pushed| && t.pushed[p].Name? ==> p in t.handled)
    && (forall i :: 0 <= i < |t.handled| ==> t.handled[i] < |t.pushed| && t.pushed[t.handled[i]].Name?)
    && (forall i, j :: 0 <= i < j < |t.handled| ==> t.handled[i] != t.handled[j])
    && |t.workers| == Pool(cfg)
    && (forall w :: 0 <= w < |t.workers| ==>
          t.workers[w].Exited? && t.workers[w].pos < |t.pushed|
          && t.pushed[t.workers[w].pos] == Sentinel && t.owner[t.workers[w].pos] == w)
    && (forall p :: 0 <= p < |t.pushed| && t.pushed[p] == Sentinel ==>
          t.owner[p] < |t.workers| && t.workers[t.owner[p]] == Exited(p))
    && Parse(t.sink) == Written(cfg, env, t.pushed, t.handled)
    && (forall prior: seq<string> ::
          Parse(prior + t.sink) == Parse(prior) + Written(cfg, env, t.pushed, t.handled))
  }

  lemma FinishedIsClean(cfg: Config, env: Env, t: State)
    requires Inv(cfg, env, t) && Pool(cfg) >= 1 && t.phase == Finished
    ensures CleanShutdown(cfg, env, t)
  {
    FinishedDrained(cfg, env, t);
    ParseRender(Written(cfg, env, t.pushed, t.handled));
    forall prior: seq<string>
      ensures Parse(prior + t.sink) == Parse(prior) + Written(cfg, env, t.pushed, t.handled)
    {
      ParseAfterPrior(prior, Written(cfg, env, t.pushed, t.handled));
    }
  }

  /** When no thread can move any more, the scan has shut down cleanly. */
  lemma ScanCompletes(cfg: Config, env: Env, steps: seq<Step>)
    requires Pool(cfg) >= 1
    requires Run(cfg, env, Init(cfg), steps).Some? && Quiescent(Run(cfg, env, Init(cfg), steps).value)
    ensures CleanShutdown(cfg, env, Run(cfg, env, Init(cfg), steps).value)
  {
    Reachable(cfg, env, steps);
    var t := Run(cfg, env, Init(cfg), steps).value;
    QuiescentIsFinished(cfg, env, t);
    FinishedIsClean(cfg, env, t);
  }

  /** `n` coordinator steps. */
  function Coordinators(n: nat): (steps: seq<Step>)
    ensures |steps| == n
    ensures forall i :: 0 <= i < n ==> steps[i] == Coordinator
  {
    seq(n, _ => Coordinator)
  }

  /** The coordinator alone reads the whole wordlist and reaches the join
      (or, when setup failed, the signalling) without any worker moving. */
  lemma {:induction false} FeedToEnd(cfg: Config, env: Env, s: State)
    requires s.phase.Feeding?
    ensures var r := Run(cfg, env, s, Coordinators(|s.phase.rest| + 1));
            && r.Some?
            && r.value.phase == (if SetupFails(cfg.source) then Signalling(Pool(cfg)) else Joining)
            && r.value.workers == s.workers && r.value.popped == s.popped
            && r.value.unfinished == s.unfinished + (|r.value.pushed| - |s.pushed|)
            && |s.pushed| <= |r.value.pushed|
    decreases |s.phase.rest|
  {
    var steps := Coordinators(|s.phase.rest| + 1);
    var t := Next(cfg, env, s, Coordinator);
    assert steps[1..] == Coordinators(|s.phase.rest|);
    assert Run(cfg, env, s, steps) == Run(cfg, env, t, steps[1..]);
    if s.phase.rest != [] {
      FeedToEnd(cfg, env, t);
    }
  }

  /** What some interleaving reaches has the shape the invariant describes. */
  lemma ReachableShape(cfg: Config, env: Env, steps: seq<Step>)
    requires Run(cfg, env, Init(cfg), steps).Some?
    ensures var t := Run(cfg, env, Init(cfg), steps).value; Shape(cfg, t.phase, t.pushed)
  {
    Reachable(cfg, env, steps);
  }

  /** With no worker thread (a thread count below one, which nothing
      rejects), a wordlist with at least one candidate leaves the
      coordinator blocked in the join for ever. */
  lemma ZeroWorkersHang(cfg: Config, env: Env)
    requires Pool(cfg) == 0
    requires cfg.source.Opened? && !cfg.source.readFails && Candidates(cfg.source.lines) != []
    ensures var r := Run(cfg, env, Init(cfg), Coordinators(|cfg.source.lines| + 1));
            r.Some? && r.value.phase == Joining && Quiescent(r.value)
  {
    var steps := Coordinators(|cfg.source.lines| + 1);
    InitFeeds(cfg);
    FeedToEnd(cfg, env, Init(cfg));
    ReachableShape(cfg, env, steps);
    var t := Run(cfg, env, Init(cfg), steps).value;
    JoinWaits(cfg, t);
    JoinStuck(t);
  }

  lemma InitFeeds(cfg: Config)
    requires cfg.source.Opened?
    ensures var s := Init(cfg);
            s.phase == Feeding(cfg.source.lines) && s.pushed == [] && s.popped == 0 && s.unfinished == 0
            && |s.workers| == Pool(cfg)
  {
  }

  /** In the join, the queue's count covers every candidate put. */
  lemma JoinWaits(cfg: Config, t: State)
    requires Shape(cfg, t.phase, t.pushed) && t.phase.Joining?
    requires Candidates(SourceLines(cfg.source)) != [] && t.unfinished == |t.pushed|
    ensures t.unfinished != 0
  {
  }

  /** With no worker, a join that still waits for a candidate never returns. */
  lemma JoinStuck(t: State)
    requires t.phase == Joining && t.workers == [] && t.unfinished != 0
    ensures Quiescent(t)
  {
    forall step: Step
      ensures !Enabled(t, step)
    {
    }
  }
}
