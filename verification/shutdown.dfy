/**
 * Properties of the scan's queue protocol: the invariant every interleaving
 * keeps, the absence of deadlock, termination of every run, and what holds
 * once no thread can move.
 */
module Shutdown {
  import opened Wrappers
  import opened Wordlist
  import opened Sink
  import opened Counting
  import opened Scan

  ghost predicate Bookkeeping(cfg: Config, s: State) {
    && |s.workers| == Pool(cfg)
    && s.popped <= |s.pushed|
    && |s.owner| == s.popped
  }

  /** What has been put so far: the candidates of the lines read, then the
      sentinels, and no sentinel before the wordlist is done. */
  ghost predicate Shape(cfg: Config, phase: Phase, pushed: seq<Item>) {
    var lines := SourceLines(cfg.source);
    var all := Names(Candidates(lines));
    match phase
    case Feeding(rest) =>
      && |rest| <= |lines| && rest == lines[|lines| - |rest|..]
      && pushed == Names(Candidates(lines[..|lines| - |rest|]))
    case Joining => !SetupFails(cfg.source) && pushed == all
    case Signalling(left) => left <= Pool(cfg) && pushed == all + Sentinels(Pool(cfg) - left)
    case Reaping => pushed == all + Sentinels(Pool(cfg))
    case Finished => pushed == all + Sentinels(Pool(cfg))
  }

  /** Every taken position belongs to the worker that took it: a sentinel
      stopped that worker, and a candidate is either being handled by it or
      has been acknowledged. */
  ghost predicate Ownership(s: State)
    requires s.popped <= |s.pushed| && |s.owner| == s.popped
  {
    && (forall p :: 0 <= p < s.popped ==> s.owner[p] < |s.workers|)
    && (forall p :: 0 <= p < s.popped && s.pushed[p].Sentinel? ==>
          s.owner[p] < |s.workers| && s.workers[s.owner[p]] == Exited(p))
    && (forall p :: 0 <= p < s.popped && s.pushed[p].Name? ==>
          s.owner[p] < |s.workers| && (p in s.handled <==> s.workers[s.owner[p]] != Busy(p)))
  }

  ghost predicate WorkerPositions(s: State)
    requires s.popped <= |s.pushed| && |s.owner| == s.popped
  {
    forall w :: 0 <= w < |s.workers| ==>
      match s.workers[w]
      case Waiting => true
      case Busy(p) => p < s.popped && s.owner[p] == w && s.pushed[p].Name?
      case Exited(p) => p < s.popped && s.owner[p] == w && s.pushed[p].Sentinel?
  }

  /** Only taken candidates are acknowledged, each at most once. */
  ghost predicate HandledOnce(s: State) {
    && (forall i :: 0 <= i < |s.handled| ==> s.handled[i] < s.popped <= |s.pushed| && s.pushed[s.handled[i]].Name?)
    && (forall i, j :: 0 <= i < j < |s.handled| ==> s.handled[i] != s.handled[j])
  }

  /** The queue's unfinished count: put items minus acknowledged ones, as the
      untaken items, the candidates in hand and the sentinels taken. */
  ghost predicate Counts(s: State)
    requires s.popped <= |s.pushed|
  {
    && s.unfinished == |s.pushed| - s.popped + Count(s.workers, IsBusy) + Count(s.pushed[..s.popped], IsSentinel)
    && Count(s.pushed[..s.popped], IsSentinel) == Count(s.workers, IsExited)
  }

  ghost predicate PastJoin(ph: Phase) {
    ph.Signalling? || ph.Reaping? || ph.Finished?
  }

  /** Every candidate that was put has been acknowledged. */
  ghost predicate AllHandled(s: State) {
    forall p :: 0 <= p < |s.pushed| && s.pushed[p].Name? ==> p in s.handled
  }

  ghost predicate Inv(cfg: Config, env: Env, s: State) {
    && Bookkeeping(cfg, s)
    && Shape(cfg, s.phase, s.pushed)
    && Ownership(s)
    && WorkerPositions(s)
    && HandledOnce(s)
    && Counts(s)
    // the join barrier: on the normal path no sentinel is put before every candidate is acknowledged
    && (PastJoin(s.phase) && !SetupFails(cfg.source) ==> AllHandled(s))
    && (s.phase.Finished? ==> forall w :: 0 <= w < |s.workers| ==> s.workers[w].Exited?)
    // the lock: the file is the whole records of the handled candidates, in the order appended
    && s.sink == Render(Written(cfg, env, s.pushed, s.handled))
  }

  /** Assembles the invariant from its parts. */
  lemma InvIntro(cfg: Config, env: Env, t: State)
    requires Bookkeeping(cfg, t) && Shape(cfg, t.phase, t.pushed)
    requires Ownership(t) && WorkerPositions(t) && HandledOnce(t) && Counts(t)
    requires PastJoin(t.phase) && !SetupFails(cfg.source) ==> AllHandled(t)
    requires t.phase.Finished? ==> forall w :: 0 <= w < |t.workers| ==> t.workers[w].Exited?
    requires t.sink == Render(Written(cfg, env, t.pushed, t.handled))
    ensures Inv(cfg, env, t)
  {
  }

  lemma InitEstablishesInv(cfg: Config, env: Env)
    ensures Inv(cfg, env, Init(cfg))
  {
    var s := Init(cfg);
    var lines := SourceLines(cfg.source);
    assert lines[|lines| - |lines|..] == lines;
    assert lines[..0] == [];
    CountNone(s.workers, IsBusy);
    CountNone(s.workers, IsExited);
  }

  lemma {:induction false} WrittenExtend(cfg: Config, env: Env, pushed: seq<Item>, more: seq<Item>, handled: seq<nat>)
    requires forall i :: 0 <= i < |handled| ==> handled[i] < |pushed|
    ensures Written(cfg, env, pushed + more, handled) == Written(cfg, env, pushed, handled)
    decreases |handled|
  {
    if handled != [] {
      WrittenExtend(cfg, env, pushed, more, handled[..|handled| - 1]);
    }
  }

  lemma PrefixSnoc<T>(s: seq<T>, p: nat)
    requires p < |s|
    ensures s[..p + 1] == s[..p] + [s[p]]
  {
  }

  /** The state after worker w takes the head of the queue. */
  function AfterTake(s: State, w: nat): State
    requires w < |s.workers| && s.popped < |s.pushed|
  {
    var p := s.popped;
    s.(workers := s.workers[w := if s.pushed[p].Sentinel? then Exited(p) else Busy(p)],
       popped := p + 1, owner := s.owner + [w])
  }

  lemma TakeKeepsOwnership(s: State, w: nat)
    requires s.popped < |s.pushed| && |s.owner| == s.popped && w < |s.workers|
    requires s.workers[w].Waiting?
    requires Ownership(s) && WorkerPositions(s) && HandledOnce(s)
    ensures var t := AfterTake(s, w); Ownership(t) && WorkerPositions(t) && HandledOnce(t)
  {
    var t := AfterTake(s, w);
    var p := s.popped;
    forall q | 0 <= q < t.popped
      ensures t.owner[q] < |t.workers|
      ensures t.pushed[q].Sentinel? ==> t.workers[t.owner[q]] == Exited(q)
      ensures t.pushed[q].Name? ==> (q in t.handled <==> t.workers[t.owner[q]] != Busy(q))
    {
      if q < p {
        assert t.owner[q] == s.owner[q];
      }
    }
    forall v | 0 <= v < |t.workers|
      ensures match t.workers[v]
              case Waiting => true
              case Busy(r) => r < t.popped && t.owner[r] == v && t.pushed[r].Name?
              case Exited(r) => r < t.popped && t.owner[r] == v && t.pushed[r].Sentinel?
    {
      if v != w {
        assert t.workers[v] == s.workers[v];
      }
    }
  }

  lemma TakeKeepsCounts(s: State, w: nat)
    requires s.popped < |s.pushed| && w < |s.workers|
    requires s.workers[w].Waiting?
    requires Counts(s)
    ensures Counts(AfterTake(s, w))
  {
    var t := AfterTake(s, w);
    var p := s.popped;
    PrefixSnoc(s.pushed, p);
    CountAppend(s.pushed[..p], [s.pushed[p]], IsSentinel);
    CountUpdate(s.workers, IsBusy, w, t.workers[w]);
    CountUpdate(s.workers, IsExited, w, t.workers[w]);
  }

  /** A worker takes the head of the queue. */
  lemma TakePreservesInv(cfg: Config, env: Env, s: State, w: nat)
    requires Inv(cfg, env, s) && Enabled(s, Work(w)) && s.workers[w].Waiting?
    ensures Inv(cfg, env, Next(cfg, env, s, Work(w)))
  {
    var t := AfterTake(s, w);
    assert t == Next(cfg, env, s, Work(w));
    TakeKeepsOwnership(s, w);
    TakeKeepsCounts(s, w);
    InvIntro(cfg, env, t);
  }

  /** The state after worker w acknowledges the candidate it handled. */
  function AfterAcknowledge(cfg: Config, env: Env, s: State, w: nat): State
    requires w < |s.workers| && s.workers[w].Busy?
  {
    var p := s.workers[w].pos;
    s.(workers := s.workers[w := Waiting], handled := s.handled + [p],
       unfinished := s.unfinished - 1,
       sink := s.sink + Render(RecordAt(cfg, env, s.pushed, p)))
  }

  lemma AcknowledgeKeepsOwnership(cfg: Config, env: Env, s: State, w: nat)
    requires s.popped <= |s.pushed| && |s.owner| == s.popped && w < |s.workers|
    requires s.workers[w].Busy?
    requires Ownership(s) && WorkerPositions(s) && HandledOnce(s)
    ensures var t := AfterAcknowledge(cfg, env, s, w); Ownership(t) && WorkerPositions(t) && HandledOnce(t)
  {
    var t := AfterAcknowledge(cfg, env, s, w);
    var p := s.workers[w].pos;
    assert s.owner[p] == w;
    assert p !in s.handled;
    forall q | 0 <= q < t.popped
      ensures t.owner[q] < |t.workers|
      ensures t.pushed[q].Sentinel? ==> t.workers[t.owner[q]] == Exited(q)
      ensures t.pushed[q].Name? ==> (q in t.handled <==> t.workers[t.owner[q]] != Busy(q))
    {
      assert q in t.handled <==> q in s.handled || q == p;
    }
    forall v | 0 <= v < |t.workers|
      ensures match t.workers[v]
              case Waiting => true
              case Busy(r) => r < t.popped && t.owner[r] == v && t.pushed[r].Name?
              case Exited(r) => r < t.popped && t.owner[r] == v && t.pushed[r].Sentinel?
    {
      if v != w {
        assert t.workers[v] == s.workers[v];
      }
    }
    forall i, j | 0 <= i < j < |t.handled|
      ensures t.handled[i] != t.handled[j]
    {
      if j == |s.handled| {
        assert t.handled[i] == s.handled[i];
        assert s.handled[i] in s.handled;
      }
    }
  }

  lemma AcknowledgeKeepsCounts(cfg: Config, env: Env, s: State, w: nat)
    requires s.popped <= |s.pushed| && w < |s.workers|
    requires s.workers[w].Busy?
    requires Counts(s)
    ensures Counts(AfterAcknowledge(cfg, env, s, w))
  {
    CountUpdate(s.workers, IsBusy, w, Waiting);
    CountUpdate(s.workers, IsExited, w, Waiting);
  }

  lemma AcknowledgeKeepsSink(cfg: Config, env: Env, s: State, w: nat)
    requires w < |s.workers| && s.workers[w].Busy?
    requires s.sink == Render(Written(cfg, env, s.pushed, s.handled))
    ensures var t := AfterAcknowledge(cfg, env, s, w); t.sink == Render(Written(cfg, env, t.pushed, t.handled))
  {
    var t := AfterAcknowledge(cfg, env, s, w);
    var p := s.workers[w].pos;
    assert t.handled[..|t.handled| - 1] == s.handled;
    RenderAppend(Written(cfg, env, s.pushed, s.handled), RecordAt(cfg, env, s.pushed, p));
  }

  /** A worker acknowledges the candidate it handled. */
  lemma AcknowledgePreservesInv(cfg: Config, env: Env, s: State, w: nat)
    requires Inv(cfg, env, s) && Enabled(s, Work(w)) && s.workers[w].Busy?
    ensures Inv(cfg, env, Next(cfg, env, s, Work(w)))
  {
    var t := AfterAcknowledge(cfg, env, s, w);
    assert t == Next(cfg, env, s, Work(w));
    AcknowledgeKeepsOwnership(cfg, env, s, w);
    AcknowledgeKeepsCounts(cfg, env, s, w);
    AcknowledgeKeepsSink(cfg, env, s, w);
    InvIntro(cfg, env, t);
  }

  /** The state after the coordinator moves to `phase` and puts `more`. */
  function AfterPut(s: State, phase: Phase, more: seq<Item>): State {
    s.(phase := phase, pushed := s.pushed + more, unfinished := s.unfinished + |more|)
  }

  /** Putting items leaves everything about the items already put unchanged. */
  lemma PutKeepsBookkeeping(cfg: Config, env: Env, s: State, phase: Phase, more: seq<Item>)
    requires Bookkeeping(cfg, s) && Ownership(s) && WorkerPositions(s) && HandledOnce(s) && Counts(s)
    requires s.sink == Render(Written(cfg, env, s.pushed, s.handled))
    ensures var t := AfterPut(s, phase, more);
            && Bookkeeping(cfg, t) && Ownership(t) && WorkerPositions(t) && HandledOnce(t) && Counts(t)
            && t.sink == Render(Written(cfg, env, t.pushed, t.handled))
  {
    var t := AfterPut(s, phase, more);
    assert t.pushed[..t.popped] == s.pushed[..s.popped];
    assert forall q :: 0 <= q < |s.pushed| ==> t.pushed[q] == s.pushed[q];
    WrittenExtend(cfg, env, s.pushed, more, s.handled);
  }

  lemma NamesAppend(a: seq<string>, b: seq<string>)
    ensures Names(a + b) == Names(a) + Names(b)
  {
  }

  lemma FeedLineShape(cfg: Config, rest: seq<string>, pushed: seq<Item>)
    requires rest != [] && Shape(cfg, Feeding(rest), pushed)
    ensures Shape(cfg, Feeding(rest[1..]), pushed + Names(Keep(rest[0])))
  {
    var lines := SourceLines(cfg.source);
    var read := lines[..|lines| - |rest|];
    assert lines[..|lines| - |rest[1..]|] == read + [rest[0]];
    CandidatesSnoc(read, rest[0]);
    NamesAppend(Candidates(read), Keep(rest[0]));
    assert rest[1..] == lines[|lines| - |rest[1..]|..];
  }

  /** The coordinator reads one wordlist line. */
  lemma FeedLinePreservesInv(cfg: Config, env: Env, s: State)
    requires Inv(cfg, env, s) && s.phase.Feeding? && s.phase.rest != []
    ensures Inv(cfg, env, Next(cfg, env, s, Coordinator))
  {
    var rest := s.phase.rest;
    var more := Names(Keep(rest[0]));
    var t := AfterPut(s, Feeding(rest[1..]), more);
    assert t == Next(cfg, env, s, Coordinator);
    PutKeepsBookkeeping(cfg, env, s, Feeding(rest[1..]), more);
    FeedLineShape(cfg, rest, s.pushed);
    InvIntro(cfg, env, t);
  }

  /** Once the wordlist is exhausted, the candidates of every line are queued. */
  lemma FedAll(cfg: Config, pushed: seq<Item>)
    requires Shape(cfg, Feeding([]), pushed)
    ensures pushed + [] == Names(Candidates(SourceLines(cfg.source)))
  {
    var lines := SourceLines(cfg.source);
    assert lines[..|lines|] == lines;
    assert pushed + [] == pushed;
  }

  lemma FeedEndJoinShape(cfg: Config, pushed: seq<Item>)
    requires Shape(cfg, Feeding([]), pushed) && !SetupFails(cfg.source)
    ensures Shape(cfg, Joining, pushed + [])
  {
    FedAll(cfg, pushed);
  }

  lemma FeedFailShape(cfg: Config, pushed: seq<Item>)
    requires Shape(cfg, Feeding([]), pushed) && SetupFails(cfg.source)
    ensures Shape(cfg, Signalling(Pool(cfg)), pushed + [])
  {
    FedAll(cfg, pushed);
    SignallingStarts(cfg, pushed + []);
  }

  /** Signalling starts with the candidates queued and no sentinel. */
  lemma SignallingStarts(cfg: Config, pushed: seq<Item>)
    requires pushed == Names(Candidates(SourceLines(cfg.source)))
    ensures Shape(cfg, Signalling(Pool(cfg)), pushed)
  {
    var n := Pool(cfg);
    assert Sentinels(n - n) == [];
    assert pushed == pushed + Sentinels(n - n);
  }

  /** The wordlist is exhausted: the coordinator waits for the join barrier. */
  lemma FeedEndJoinPreservesInv(cfg: Config, env: Env, s: State)
    requires Inv(cfg, env, s) && s.phase == Feeding([]) && !SetupFails(cfg.source)
    ensures Inv(cfg, env, Next(cfg, env, s, Coordinator))
  {
    var t := AfterPut(s, Joining, []);
    assert t == Next(cfg, env, s, Coordinator);
    PutKeepsBookkeeping(cfg, env, s, Joining, []);
    FeedEndJoinShape(cfg, s.pushed);
    InvIntro(cfg, env, t);
  }

  /** Opening or reading the wordlist raised: the join is skipped. */
  lemma FeedFailPreservesInv(cfg: Config, env: Env, s: State)
    requires Inv(cfg, env, s) && s.phase == Feeding([]) && SetupFails(cfg.source)
    ensures Inv(cfg, env, Next(cfg, env, s, Coordinator))
  {
    var t := AfterPut(s, Signalling(Pool(cfg)), []);
    assert t == Next(cfg, env, s, Coordinator);
    PutKeepsBookkeeping(cfg, env, s, Signalling(Pool(cfg)), []);
    FeedFailShape(cfg, s.pushed);
    InvIntro(cfg, env, t);
  }

  /** The wordlist is exhausted, or opening or reading it failed. */
  lemma FeedEndPreservesInv(cfg: Config, env: Env, s: State)
    requires Inv(cfg, env, s) && s.phase == Feeding([])
    ensures Inv(cfg, env, Next(cfg, env, s, Coordinator))
  {
    if SetupFails(cfg.source) {
      FeedFailPreservesInv(cfg, env, s);
    } else {
      FeedEndJoinPreservesInv(cfg, env, s);
    }
  }

  /** When the join barrier returns, nothing is in hand and nothing is
      queued, so every candidate put has been acknowledged. */
  lemma JoinedAllHandled(cfg: Config, env: Env, s: State)
    requires Inv(cfg, env, s) && s.phase.Joining? && s.unfinished == 0
    ensures AllHandled(s)
  {
    CountZero(s.workers, IsBusy);
  }

  lemma JoinShape(cfg: Config, pushed: seq<Item>)
    requires Shape(cfg, Joining, pushed)
    ensures Shape(cfg, Signalling(Pool(cfg)), pushed + [])
  {
    assert pushed + [] == pushed;
    SignallingStarts(cfg, pushed);
  }

  /** The join barrier returns: every put candidate was acknowledged. */
  lemma JoinPreservesInv(cfg: Config, env: Env, s: State)
    requires Inv(cfg, env, s) && s.phase.Joining? && s.unfinished == 0
    ensures Inv(cfg, env, Next(cfg, env, s, Coordinator))
  {
    var t := AfterPut(s, Signalling(Pool(cfg)), []);
    assert t == Next(cfg, env, s, Coordinator);
    PutKeepsBookkeeping(cfg, env, s, Signalling(Pool(cfg)), []);
    JoinShape(cfg, s.pushed);
    JoinedAllHandled(cfg, env, s);
    assert t.pushed == s.pushed && t.handled == s.handled;
    InvIntro(cfg, env, t);
  }

  lemma SignalShape(cfg: Config, left: nat, pushed: seq<Item>)
    requires left > 0 && Shape(cfg, Signalling(left), pushed)
    ensures Shape(cfg, Signalling(left - 1), pushed + [Sentinel])
  {
    var all := Names(Candidates(SourceLines(cfg.source)));
    assert Sentinels(Pool(cfg) - left) + [Sentinel] == Sentinels(Pool(cfg) - (left - 1));
    assert pushed + [Sentinel] == all + (Sentinels(Pool(cfg) - left) + [Sentinel]);
  }

  /** The coordinator puts one more sentinel. */
  lemma SignalPreservesInv(cfg: Config, env: Env, s: State)
    requires Inv(cfg, env, s) && s.phase.Signalling? && s.phase.left > 0
    ensures Inv(cfg, env, Next(cfg, env, s, Coordinator))
  {
    var left := s.phase.left;
    var t := AfterPut(s, Signalling(left - 1), [Sentinel]);
    assert t == Next(cfg, env, s, Coordinator);
    PutKeepsBookkeeping(cfg, env, s, Signalling(left - 1), [Sentinel]);
    SignalShape(cfg, left, s.pushed);
    if !SetupFails(cfg.source) {
      forall p | 0 <= p < |t.pushed| && t.pushed[p].Name?
        ensures p in t.handled
      {
        assert p < |s.pushed| && s.pushed[p] == t.pushed[p];
      }
    }
  }

  /** All sentinels are put; the coordinator joins the threads. */
  lemma SignalEndPreservesInv(cfg: Config, env: Env, s: State)
    requires Inv(cfg, env, s) && s.phase == Signalling(0)
    ensures Inv(cfg, env, Next(cfg, env, s, Coordinator))
  {
    var t := AfterPut(s, Reaping, []);
    assert t == Next(cfg, env, s, Coordinator);
    PutKeepsBookkeeping(cfg, env, s, Reaping, []);
    assert t.pushed == s.pushed;
    InvIntro(cfg, env, t);
  }

  /** Every thread has been joined. */
  lemma ReapPreservesInv(cfg: Config, env: Env, s: State)
    requires Inv(cfg, env, s) && Enabled(s, Coordinator) && s.phase.Reaping?
    ensures Inv(cfg, env, Next(cfg, env, s, Coordinator))
  {
    var t := AfterPut(s, Finished, []);
    assert t == Next(cfg, env, s, Coordinator);
    PutKeepsBookkeeping(cfg, env, s, Finished, []);
    assert t.pushed == s.pushed;
    InvIntro(cfg, env, t);
  }

  /** Every enabled step of every thread keeps the invariant. */
  lemma NextPreservesInv(cfg: Config, env: Env, s: State, step: Step)
    requires Inv(cfg, env, s) && Enabled(s, step)
    ensures Inv(cfg, env, Next(cfg, env, s, step))
  {
    match step
    case Coordinator =>
      match s.phase {
        case Feeding(rest) =>
          if rest == [] { FeedEndPreservesInv(cfg, env, s); } else { FeedLinePreservesInv(cfg, env, s); }
        case Joining => JoinPreservesInv(cfg, env, s);
        case Signalling(left) =>
          if left == 0 { SignalEndPreservesInv(cfg, env, s); } else { SignalPreservesInv(cfg, env, s); }
        case Reaping => ReapPreservesInv(cfg, env, s);
      }
    case Work(w) =>
      if s.workers[w].Waiting? {
        TakePreservesInv(cfg, env, s, w);
      } else {
        AcknowledgePreservesInv(cfg, env, s, w);
      }
  }
}
