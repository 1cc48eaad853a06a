/**
 * The scan coordinator and the worker pool as one sequential state machine.
 *
 * The queue is FIFO with a single producer, so it is modelled as the sequence
 * of every item ever put (`pushed`) and the number of items taken so far
 * (`popped`): the queue's contents are `pushed[popped..]`. A step is either a
 * step of the coordinator (`main`) or of one worker thread; any interleaving
 * of enabled steps is a possible run.
 */
module Scan {
  import opened Wrappers
  import opened Wordlist
  import opened Sink
  import opened Worker

  /** How the wordlist reads: it cannot be opened, or it yields `lines` and
      then either ends or raises an error. */
  datatype Source = Absent | Opened(lines: seq<string>, readFails: bool)

  datatype Config = Config(threads: int, listObjects: bool, output: Option<string>, source: Source)

  /** The remote service: its answers for every bucket name. */
  type Env = string -> Remote

  datatype Item = Name(name: string) | Sentinel

  datatype WorkerState =
    | Waiting           // blocked in (or about to call) the queue's get
    | Busy(pos: nat)    // handling the candidate at queue position pos
    | Exited(pos: nat)  // left the loop on the sentinel at queue position pos

  datatype Phase =
    | Feeding(rest: seq<string>)  // reading the wordlist; rest is still unread
    | Joining                     // blocked in the queue's join
    | Signalling(left: nat)       // putting the shutdown sentinels
    | Reaping                     // joining the worker threads
    | Finished

  datatype State = State(
    phase: Phase,
    pushed: seq<Item>,    // every item put on the queue, in order
    popped: nat,          // how many of them the workers have taken
    unfinished: int,      // the queue's count of unacknowledged items
    workers: seq<WorkerState>,
    owner: seq<nat>,      // owner[p]: the worker that took pushed[p]
    handled: seq<nat>,    // queue positions handled, in the order their records were appended
    sink: seq<string>)    // the lines of the result file

  datatype Step = Coordinator | Work(w: nat)

  /** The number of threads started (and of sentinels put): `range(threads)`. */
  function Pool(cfg: Config): nat {
    if cfg.threads < 0 then 0 else cfg.threads
  }

  /** A result file is written only for a non-empty output path. */
  predicate SinkEnabled(cfg: Config) {
    cfg.output.Some? && cfg.output.value != ""
  }

  function SourceLines(src: Source): seq<string> {
    if src.Absent? then [] else src.lines
  }

  /** Setup raised an exception, so the join barrier is skipped. */
  predicate SetupFails(src: Source) {
    src.Absent? || src.readFails
  }

  predicate IsName(x: Item) { x.Name? }
  predicate IsSentinel(x: Item) { x.Sentinel? }
  predicate IsBusy(ws: WorkerState) { ws.Busy? }
  predicate IsExited(ws: WorkerState) { ws.Exited? }

  function Names(cs: seq<string>): (items: seq<Item>)
    ensures |items| == |cs|
    ensures forall i :: 0 <= i < |cs| ==> items[i] == Name(cs[i])
  {
    seq(|cs|, i requires 0 <= i < |cs| => Name(cs[i]))
  }

  function Sentinels(n: nat): (items: seq<Item>)
    ensures |items| == n
    ensures forall i :: 0 <= i < n ==> items[i] == Sentinel
  {
    seq(n, _ => Sentinel)
  }

  /** All threads are started before the wordlist is opened. */
  function Init(cfg: Config): State {
    State(Feeding(SourceLines(cfg.source)), [], 0, 0, seq(Pool(cfg), _ => Waiting), [], [], [])
  }

  /** The record (if any) appended when the candidate at position p is handled. */
  function RecordAt(cfg: Config, env: Env, pushed: seq<Item>, p: nat): seq<Entry> {
    if p < |pushed| && pushed[p].Name? then
      var name := pushed[p].name;
      var h := HandleCandidate(name, env(name), cfg.listObjects, SinkEnabled(cfg));
      if h.record.Some? then [h.record.value] else []
    else []
  }

  /** The records of the handled positions, in the order they were appended. */
  function Written(cfg: Config, env: Env, pushed: seq<Item>, handled: seq<nat>): seq<Entry> {
    if handled == [] then []
    else Written(cfg, env, pushed, handled[..|handled| - 1]) + RecordAt(cfg, env, pushed, handled[|handled| - 1])
  }

  predicate Enabled(s: State, step: Step) {
    match step
    case Coordinator =>
      (match s.phase
       case Feeding(_) => true
       case Joining => s.unfinished == 0
       case Signalling(_) => true
       case Reaping => forall w :: 0 <= w < |s.workers| ==> s.workers[w].Exited?
       case Finished => false)
    case Work(w) =>
      && w < |s.workers|
      && (match s.workers[w]
          case Waiting => s.popped < |s.pushed|
          case Busy(_) => true
          case Exited(_) => false)
  }

  function Next(cfg: Config, env: Env, s: State, step: Step): State
    requires Enabled(s, step)
  {
    match step
    case Coordinator =>
      (match s.phase
       case Feeding(rest) =>
         if rest == [] then
           // end of the wordlist: join, unless setup raised
           s.(phase := if SetupFails(cfg.source) then Signalling(Pool(cfg)) else Joining)
         else
           // one line: put its stripped form when non-empty
           var found := Keep(rest[0]);
           s.(phase := Feeding(rest[1..]), pushed := s.pushed + Names(found),
              unfinished := s.unfinished + |found|)
       case Joining =>
         s.(phase := Signalling(Pool(cfg)))
       case Signalling(left) =>
         if left == 0 then s.(phase := Reaping)
         else s.(phase := Signalling(left - 1), pushed := s.pushed + [Sentinel],
                 unfinished := s.unfinished + 1)
       case Reaping =>
         s.(phase := Finished))
    case Work(w) =>
      match s.workers[w]
      case Waiting =>
        // take the head of the queue; a sentinel ends the loop
        var p := s.popped;
        s.(workers := s.workers[w := if s.pushed[p].Sentinel? then Exited(p) else Busy(p)],
           popped := p + 1, owner := s.owner + [w])
      case Busy(p) =>
        // handle the candidate, append its record under the lock and call
        // task_done, all as one step
        s.(workers := s.workers[w := Waiting], handled := s.handled + [p],
           unfinished := s.unfinished - 1,
           sink := s.sink + Render(RecordAt(cfg, env, s.pushed, p)))
  }

  /** The state after taking `steps` in order, or None when one is not enabled. */
  function Run(cfg: Config, env: Env, s: State, steps: seq<Step>): Option<State>
    decreases |steps|
  {
    if steps == [] then Some(s)
    else if Enabled(s, steps[0]) then Run(cfg, env, Next(cfg, env, s, steps[0]), steps[1..])
    else None
  }

  /** No thread can move. */
  ghost predicate Quiescent(s: State) {
    forall step :: !Enabled(s, step)
  }
}
