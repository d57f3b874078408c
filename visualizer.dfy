/**
 * The visualizer component as an object: its state hooks become fields, and
 * `parseCode`, `runExecution` (paced steps run to completion), `addLog`,
 * `handleReset`, `handleRun`, `handleExampleChange` and the code editor's
 * `setCode` become methods. Each method is tied to a pure transition on
 * VisState, and the lemmas state what those transitions guarantee.
 */
module Visualizer {
  import opened Text
  import opened Label
  import opened Classifier
  import opened EventLog
  import Examples

  /** The component's state, one field per `useState` hook (`speed` aside). */
  datatype VisState = VisState(
    isRunning: bool,
    isPaused: bool,
    currentPhase: int,
    logs: seq<LogEntry>,
    callStack: seq<string>,
    timersQueue: seq<string>,
    pendingQueue: seq<string>,
    pollQueue: seq<string>,
    checkQueue: seq<string>,
    closeQueue: seq<string>,
    nextTickQueue: seq<string>,
    microTaskQueue: seq<string>,
    selectedExample: Examples.ExampleKey,
    code: string)
  {
    /** The displayed snapshot of one of the four queues a run fills. */
    function Displayed(id: QueueId): seq<string> {
      match id
      case TimersQueue => timersQueue
      case CheckQueue => checkQueue
      case NextTickQueue => nextTickQueue
      case MicroTaskQueue => microTaskQueue
    }

    /** `setTimersQueue(q)`, `setCheckQueue(q)`, ... */
    function WithQueue(id: QueueId, q: seq<string>): VisState {
      match id
      case TimersQueue => this.(timersQueue := q)
      case CheckQueue => this.(checkQueue := q)
      case NextTickQueue => this.(nextTickQueue := q)
      case MicroTaskQueue => this.(microTaskQueue := q)
    }
  }

  /** The state the hooks start in. */
  const InitialState := VisState(false, false, -1, [], [], [], [], [], [], [], [], [],
                                 Examples.DefaultExample, Examples.ExampleOf(Examples.DefaultExample).code)

  /** The last snapshot shown after pushing a whole group: the group itself,
      or the old display when nothing was pushed. */
  function Filled(group: seq<string>, shown: seq<string>): seq<string> {
    if group == [] then shown else group
  }

  /** The last snapshot shown after draining a local queue: empty, or the old
      display when the drain was skipped. */
  function Emptied(local: seq<string>, shown: seq<string>): seq<string> {
    if local == [] then shown else []
  }

  /** After the loop over the synchronous labels of t. */
  function AfterSync(s: VisState, t: ParsedTasks): VisState {
    if t.sync == [] then s
    else s.(logs := s.logs + SyncLog(t), callStack := [],
            timersQueue := Filled(t.timers, s.timersQueue),
            checkQueue := Filled(t.immediate, s.checkQueue),
            nextTickQueue := Filled(t.nextTick, s.nextTickQueue),
            microTaskQueue := Filled(t.promises, s.microTaskQueue))
  }

  /** After the phases, draining the local queues nt, mt, tm and im. */
  function AfterPhases(s: VisState, nt: seq<string>, mt: seq<string>, tm: seq<string>, im: seq<string>): VisState {
    s.(logs := s.logs + PhaseLog(RunBanners, nt, mt, tm, im),
       nextTickQueue := Emptied(nt, s.nextTickQueue),
       microTaskQueue := Emptied(mt, s.microTaskQueue),
       timersQueue := Emptied(tm, s.timersQueue),
       checkQueue := Emptied(im, s.checkQueue),
       currentPhase := -1)
  }

  /** `runExecution` run to completion on the parsed lists t. */
  function RunOn(s: VisState, t: ParsedTasks): VisState {
    AfterPhases(AfterSync(s, t), Drained(t, t.nextTick), Drained(t, t.promises),
                Drained(t, t.timers), Drained(t, t.immediate)).(isRunning := false)
  }

  /** `runExecution` run to completion on the current code. */
  function AfterRun(s: VisState): VisState {
    RunOn(s, ParseText(s.code))
  }

  /** `handleReset`. */
  function AfterReset(s: VisState): VisState {
    s.(isRunning := false, isPaused := false, logs := [], callStack := [],
       timersQueue := [], pendingQueue := [], pollQueue := [], checkQueue := [],
       closeQueue := [], nextTickQueue := [], microTaskQueue := [], currentPhase := -1)
  }

  /** `handleRun`: resume when paused, otherwise reset and run. */
  function AfterHandleRun(s: VisState): VisState {
    if s.isPaused then s.(isPaused := false, isRunning := true)
    else AfterRun(AfterReset(s).(isRunning := true))
  }

  /** `handleExampleChange(k)`. */
  function AfterExampleChange(s: VisState, k: Examples.ExampleKey): VisState {
    AfterReset(s).(selectedExample := k, code := Examples.ExampleOf(k).code)
  }

  /** The code editor's `onChange`. */
  function AfterEditCode(s: VisState, text: string): VisState {
    s.(code := text)
  }

  /** Everything but the four displayed queues, the log, the call stack and
      the current phase is left alone by a run. */
  predicate RunKeeps(s: VisState, r: VisState) {
    && r.isPaused == s.isPaused && r.code == s.code && r.selectedExample == s.selectedExample
    && r.pendingQueue == s.pendingQueue && r.pollQueue == s.pollQueue && r.closeQueue == s.closeQueue
  }

  /** The outcome of a run on the parsed lists t: the log grows by
      ExpectedLog(t); the call stack is empty after any synchronous label;
      the highlight is off and the run is over. */
  lemma RunOutcome(s: VisState, t: ParsedTasks)
    ensures var r := RunOn(s, t);
      && r.logs == s.logs + ExpectedLog(t)
      && r.callStack == (if t.sync == [] then s.callStack else [])
      && r.currentPhase == -1 && !r.isRunning
      && RunKeeps(s, r)
  {
    LogAssoc(s.logs, SyncLog(t), PhaseLog(RunBanners, Drained(t, t.nextTick), Drained(t, t.promises),
                                         Drained(t, t.timers), Drained(t, t.immediate)));
  }

  /** The displayed queues after a run on t: one whose group was enqueued
      and drained ends empty, any other keeps its old display. */
  lemma RunQueues(s: VisState, t: ParsedTasks)
    ensures var r := RunOn(s, t);
      && r.timersQueue == Emptied(Drained(t, t.timers), s.timersQueue)
      && r.checkQueue == Emptied(Drained(t, t.immediate), s.checkQueue)
      && r.nextTickQueue == Emptied(Drained(t, t.nextTick), s.nextTickQueue)
      && r.microTaskQueue == Emptied(Drained(t, t.promises), s.microTaskQueue)
  {
    if t.sync != [] {
      assert Drained(t, t.timers) == t.timers && Drained(t, t.immediate) == t.immediate;
      assert Drained(t, t.nextTick) == t.nextTick && Drained(t, t.promises) == t.promises;
    }
  }

  /** Every drained or shown queue, the log and the call stack are empty and
      nothing is highlighted or running. */
  predicate Idle(s: VisState) {
    && !s.isRunning && !s.isPaused && s.currentPhase == -1
    && s.callStack == [] && s.timersQueue == [] && s.pendingQueue == [] && s.pollQueue == []
    && s.checkQueue == [] && s.closeQueue == [] && s.nextTickQueue == [] && s.microTaskQueue == []
  }

  /** `handleReset` clears everything but the code and the selected example,
      and doing it twice is doing it once. */
  lemma ResetClears(s: VisState)
    ensures var r := AfterReset(s);
      Idle(r) && r.logs == [] && r.code == s.code && r.selectedExample == s.selectedExample
    ensures AfterReset(AfterReset(s)) == AfterReset(s)
  {
  }

  /** A run started from the Run button (not paused) ends with the log of
      this run alone, every queue and the call stack empty, nothing
      highlighted and nothing running. */
  lemma HandleRunOutcome(s: VisState)
    requires !s.isPaused
    ensures var r := AfterHandleRun(s);
      Idle(r) && r.logs == ExpectedLog(ParseText(s.code))
      && r.code == s.code && r.selectedExample == s.selectedExample
  {
    var s1, t := AfterReset(s).(isRunning := true), ParseText(s.code);
    assert AfterHandleRun(s) == RunOn(s1, t);
    RunOutcome(s1, t);
    RunQueues(s1, t);
  }

  /** The log of a run started from the Run button: the outputs are the
      synchronous labels, then nextTick, promise, timer and immediate labels,
      each group in line order (none without a synchronous label); the
      enqueue entries are one per deferred label; the phase headers are those
      of PhaseHeaders; one completion entry, last, and no info entries. */
  lemma HandleRunLog(s: VisState)
    requires !s.isPaused
    ensures var log := AfterHandleRun(s).logs;
      var t := ParseText(s.code);
      && Messages(log, Output) ==
           (if t.sync == [] then [] else t.sync + t.nextTick + t.promises + t.timers + t.immediate)
      && Messages(log, Queue) ==
           (if t.sync == [] then []
            else QueueTexts(t.timers, TimersQueue) + QueueTexts(t.immediate, CheckQueue)
                 + QueueTexts(t.nextTick, NextTickQueue) + QueueTexts(t.promises, MicroTaskQueue))
      && Messages(log, Phase) == PhaseHeaders(RunBanners, t)
      && Messages(log, Complete) == [RunBanners.complete] && Messages(log, Info) == []
      && log[|log| - 1] == LogEntry(RunBanners.complete, Complete)
  {
    HandleRunOutcome(s);
    var t := ParseText(s.code);
    ClassifyLabels(Split(s.code));
    OutputOrder(RunBanners, t);
    QueueEntries(RunBanners, t);
    PhaseEntries(RunBanners, t);
    Completion(RunBanners, t);
  }

  /** What the user can do: the Run/Resume button, the reset button, an
      example button, and typing in the code editor. */
  datatype Action = Run | Reset | ChooseExample(key: Examples.ExampleKey) | EditCode(text: string)

  function Step(s: VisState, a: Action): VisState {
    match a
    case Run => AfterHandleRun(s)
    case Reset => AfterReset(s)
    case ChooseExample(k) => AfterExampleChange(s, k)
    case EditCode(text) => AfterEditCode(s, text)
  }

  function Exec(s: VisState, actions: seq<Action>): VisState
    decreases |actions|
  {
    if actions == [] then s else Exec(Step(s, actions[0]), actions[1..])
  }

  /** Between user actions: idle, and the log is empty or exactly the log
      of one run on some parsed program. */
  ghost predicate Quiescent(s: VisState) {
    Idle(s) && (s.logs == [] || exists t :: s.logs == ExpectedLog(t))
  }

  lemma StepQuiescent(s: VisState, a: Action)
    requires Quiescent(s)
    ensures Quiescent(Step(s, a))
  {
    match a
    case Run =>
      HandleRunOutcome(s);
    case Reset =>
    case ChooseExample(k) =>
    case EditCode(text) =>
  }

  /** A log between actions holds at most one completion entry, and when it
      is not empty that entry is its last. */
  lemma QuiescentLog(s: VisState)
    requires Quiescent(s) && s.logs != []
    ensures Messages(s.logs, Complete) == [RunBanners.complete]
    ensures s.logs[|s.logs| - 1] == LogEntry(RunBanners.complete, Complete)
  {
    var t :| s.logs == ExpectedLog(t);
    Completion(RunBanners, t);
  }

  /** From the initial state, whatever the user does, `isPaused` stays false
      (so the resume branch of `handleRun` is never taken), the Pending I/O,
      Poll and Close queues stay empty, the call stack is empty and no phase
      is highlighted between actions, and the log is empty or the log of exactly one run. */
  lemma {:induction false} AlwaysQuiescent(actions: seq<Action>)
    ensures Quiescent(Exec(InitialState, actions))
  {
    QuiescentExec(InitialState, actions);
  }

  lemma {:induction false} QuiescentExec(s: VisState, actions: seq<Action>)
    requires Quiescent(s)
    ensures Quiescent(Exec(s, actions))
    decreases |actions|
  {
    if actions != [] {
      StepQuiescent(s, actions[0]);
      QuiescentExec(Step(s, actions[0]), actions[1..]);
    }
  }

  /** Part-way through the synchronous loop, after i > 0 labels. */
  function SyncUpTo(s: VisState, t: ParsedTasks, i: nat): VisState
    requires 0 < i <= |t.sync|
  {
    AfterSync(s, t).(logs := s.logs + (Entries([t.sync[0]], Output) + EnqueueLog(t) + Entries(t.sync[1..i], Output)))
  }

  /** A synchronous label run: output, and the call stack emptied. */
  function Ran(s: VisState, msg: string): VisState {
    s.(logs := s.logs + [LogEntry(msg, Output)], callStack := [])
  }

  /** After one whole enqueue loop. */
  function Pushed(s: VisState, id: QueueId, group: seq<string>): VisState {
    s.WithQueue(id, Filled(group, s.Displayed(id))).(logs := s.logs + QueueLog(group, id))
  }

  /** After the enqueue batch: timers, immediates, nextTick labels, promises. */
  function Batched(s: VisState, t: ParsedTasks): VisState {
    Pushed(Pushed(Pushed(Pushed(s, TimersQueue, t.timers), CheckQueue, t.immediate), NextTickQueue, t.nextTick),
           MicroTaskQueue, t.promises)
  }

  /** The batch appends its enqueue entries and shows each non-empty group. */
  lemma BatchedIs(s: VisState, t: ParsedTasks)
    ensures Batched(s, t) == s.(logs := s.logs + EnqueueLog(t),
                                timersQueue := Filled(t.timers, s.timersQueue),
                                checkQueue := Filled(t.immediate, s.checkQueue),
                                nextTickQueue := Filled(t.nextTick, s.nextTickQueue),
                                microTaskQueue := Filled(t.promises, s.microTaskQueue))
  {
    var a, b := QueueLog(t.timers, TimersQueue), QueueLog(t.immediate, CheckQueue);
    var c, d := QueueLog(t.nextTick, NextTickQueue), QueueLog(t.promises, MicroTaskQueue);
    var s1 := Pushed(s, TimersQueue, t.timers);
    assert s1 == s.(logs := s.logs + a, timersQueue := Filled(t.timers, s.timersQueue));
    var s2 := Pushed(s1, CheckQueue, t.immediate);
    assert s2 == s1.(logs := s1.logs + b, checkQueue := Filled(t.immediate, s.checkQueue));
    var s3 := Pushed(s2, NextTickQueue, t.nextTick);
    assert s3 == s2.(logs := s2.logs + c, nextTickQueue := Filled(t.nextTick, s.nextTickQueue));
    assert Batched(s, t) == s3.(logs := s3.logs + d, microTaskQueue := Filled(t.promises, s.microTaskQueue));
    Regroup(s.logs, a, b, c, d);
  }

  /** After the first label and the enqueue batch. */
  lemma SyncStart(s: VisState, t: ParsedTasks)
    requires t.sync != []
    ensures Batched(Ran(s, t.sync[0]), t) == SyncUpTo(s, t, 1)
  {
    var r := Ran(s, t.sync[0]);
    assert r.logs + EnqueueLog(t)
        == s.logs + (Entries([t.sync[0]], Output) + EnqueueLog(t) + Entries(t.sync[1..1], Output)) by {
      assert Entries([t.sync[0]], Output) == [LogEntry(t.sync[0], Output)];
      assert Entries(t.sync[1..1], Output) == [];
      assert s.logs + [LogEntry(t.sync[0], Output)] + EnqueueLog(t)
          == s.logs + ([LogEntry(t.sync[0], Output)] + EnqueueLog(t) + []);
    }
    BatchedIs(r, t);
  }

  /** After one more label. */
  lemma SyncNext(s: VisState, t: ParsedTasks, i: nat)
    requires 0 < i < |t.sync|
    ensures Ran(SyncUpTo(s, t, i), t.sync[i]) == SyncUpTo(s, t, i + 1)
  {
    var head := Entries([t.sync[0]], Output) + EnqueueLog(t);
    assert Entries(t.sync[1..i + 1], Output) == Entries(t.sync[1..i], Output) + [LogEntry(t.sync[i], Output)];
    assert s.logs + (head + Entries(t.sync[1..i], Output)) + [LogEntry(t.sync[i], Output)]
        == s.logs + (head + (Entries(t.sync[1..i], Output) + [LogEntry(t.sync[i], Output)]));
  }

  lemma SyncDone(s: VisState, t: ParsedTasks)
    requires t.sync != []
    ensures SyncUpTo(s, t, |t.sync|) == AfterSync(s, t)
  {
    assert t.sync[1..|t.sync|] == t.sync[1..];
  }

  /** Part-way through an enqueue loop: k labels of the group pushed, each push shown and logged. */
  function Filling(s: VisState, id: QueueId, group: seq<string>, k: nat): VisState
    requires k <= |group|
  {
    s.WithQueue(id, Filled(group[..k], s.Displayed(id))).(logs := s.logs + QueueLog(group[..k], id))
  }

  lemma FillingStep(s: VisState, id: QueueId, group: seq<string>, k: nat)
    requires k < |group|
    ensures var r := Filling(s, id, group, k).WithQueue(id, group[..k + 1]);
      Filling(s, id, group, k + 1) == r.(logs := r.logs + [LogEntry(QueueMessage(group[k], id), Queue)])
  {
    QueueLogSnoc(group, k, id);
    var e := [LogEntry(QueueMessage(group[k], id), Queue)];
    assert s.logs + QueueLog(group[..k], id) + e == s.logs + (QueueLog(group[..k], id) + e);
  }

  lemma FillingDone(s: VisState, id: QueueId, group: seq<string>)
    ensures Filling(s, id, group, |group|) == Pushed(s, id, group)
  {
    assert group[..|group|] == group;
  }

  /** Part-way through a drain loop: `done` labels shifted off the local queue,
      what is left shown, and the non-empty ones logged. */
  function Draining(s: VisState, id: QueueId, local: seq<string>, done: nat): VisState
    requires done <= |local|
  {
    s.WithQueue(id, if done == 0 then s.Displayed(id) else local[done..])
     .(logs := s.logs + DrainLog(local[..done]))
  }

  lemma DrainingStep(s: VisState, id: QueueId, local: seq<string>, done: nat)
    requires done < |local|
    ensures var r := Draining(s, id, local, done).WithQueue(id, local[done + 1..]);
      Draining(s, id, local, done + 1) ==
        if local[done] != "" then r.(logs := r.logs + [LogEntry(local[done], Output)]) else r
  {
    DrainLogSnoc(local, done);
    var e := if local[done] != "" then [LogEntry(local[done], Output)] else [];
    assert s.logs + DrainLog(local[..done]) + e == s.logs + (DrainLog(local[..done]) + e);
  }

  lemma FillingStart(s: VisState, id: QueueId, group: seq<string>)
    ensures Filling(s, id, group, 0) == s
  {
    assert group[..0] == [];
  }

  lemma DrainingStart(s: VisState, id: QueueId, local: seq<string>)
    ensures Draining(s, id, local, 0) == s
  {
    assert local[..0] == [];
  }

  /** The end of a drain that ran: the highlight cleared. */
  lemma DrainingDone(s: VisState, id: QueueId, header: string, phase: int, local: seq<string>)
    requires local != []
    ensures Draining(Entered(s, phase, header), id, local, |local|).(currentPhase := -1)
            == AfterDrain(s, id, header, phase, local)
  {
    assert local[..|local|] == local;
    assert local[|local|..] == [];
    assert s.logs + [LogEntry(header, Phase)] + DrainLog(local) == s.logs + ([LogEntry(header, Phase)] + DrainLog(local));
  }

  /** A skippable phase whose local queue is empty changes nothing. */
  lemma DrainingNone(s: VisState, id: QueueId, header: string, phase: int)
    ensures AfterDrain(s, id, header, phase, []) == s
  {
    assert s.logs + DrainPhase(header, []) == s.logs;
  }

  /** Setting one displayed queue changes that queue and nothing else. */
  lemma QueueSet(s: VisState, id: QueueId, q: seq<string>)
    ensures var r := s.WithQueue(id, q);
      && r.Displayed(id) == q && r.logs == s.logs && r.callStack == s.callStack
      && r.currentPhase == s.currentPhase && DuringRun(s, r)
  {
  }

  /** The outputs logged after j labels of a well-formed local queue are
      those labels. */
  lemma DrainedOutputs(l: seq<LogEntry>, local: seq<string>, j: nat)
    requires j <= |local| && Labelled(local)
    ensures Messages(l + DrainLog(local[..j]), Output) == Messages(l, Output) + local[..j]
  {
    NonEmptyAll(local[..j]);
    MessagesAppend(l, DrainLog(local[..j]), Output);
    EntriesMessages(local[..j], Output, Output);
  }

  /** What a state shows of a drain of `local` that began after the outputs
      m: the outputs logged so far followed by the display are m followed by
      the local queue, or, between a `shift` and its log entry, they are
      with the label just taken off in between. */
  predicate DrainView(m: seq<string>, local: seq<string>, out: seq<string>, shown: seq<string>) {
    || out + shown == m + local
    || (|shown| < |local| && out + [local[|local| - |shown| - 1]] + shown == m + local)
  }

  /** The log and the display of a state part-way through a drain. */
  lemma DrainingIs(s: VisState, id: QueueId, local: seq<string>, done: nat)
    requires done <= |local|
    ensures var d := Draining(s, id, local, done);
      && d.logs == s.logs + DrainLog(local[..done]) && d.Displayed(id) == (if done == 0 then s.Displayed(id) else local[done..])
      && d.callStack == s.callStack && d.currentPhase == s.currentPhase && DuringRun(s, d)
  {
    QueueSet(s, id, if done == 0 then s.Displayed(id) else local[done..]);
  }

  /** Both states of the k-th `shift` show the drain. */
  lemma DrainShows(s: VisState, id: QueueId, local: seq<string>, k: nat)
    requires 0 < k <= |local| && Labelled(local)
    ensures var a := Draining(s, id, local, k - 1).WithQueue(id, local[k..]);
      DrainView(Messages(s.logs, Output), local, Messages(a.logs, Output), a.Displayed(id))
    ensures var b := Draining(s, id, local, k);
      DrainView(Messages(s.logs, Output), local, Messages(b.logs, Output), b.Displayed(id))
  {
    ShiftTaken(s, id, local, k);
    ShiftLogged(s, id, local, k);
  }

  /** After the k-th `shift`, before its log entry: the label is in hand. */
  lemma ShiftTaken(s: VisState, id: QueueId, local: seq<string>, k: nat)
    requires 0 < k <= |local| && Labelled(local)
    ensures var a := Draining(s, id, local, k - 1).WithQueue(id, local[k..]);
      Messages(a.logs, Output) + [local[|local| - |a.Displayed(id)| - 1]] + a.Displayed(id)
        == Messages(s.logs, Output) + local
  {
    var d := Draining(s, id, local, k - 1);
    var a := d.WithQueue(id, local[k..]);
    assert Messages(a.logs, Output) == Messages(s.logs, Output) + local[..k - 1] by {
      DrainingIs(s, id, local, k - 1);
      QueueSet(d, id, local[k..]);
      DrainedOutputs(s.logs, local, k - 1);
    }
    assert a.Displayed(id) == local[k..] by {
      QueueSet(d, id, local[k..]);
    }
    InHand(Messages(s.logs, Output), local, k);
  }

  /** Outputs m and the first k - 1 labels, then the k-th label, then the
      rest of the queue, are m followed by the queue. */
  lemma InHand(m: seq<string>, local: seq<string>, k: nat)
    requires 0 < k <= |local|
    ensures m + local[..k - 1] + [local[|local| - |local[k..]| - 1]] + local[k..] == m + local
  {
    assert local[..k - 1] + [local[k - 1]] + local[k..] == local;
  }

  /** After the log entry of the k-th `shift`: the label has been output. */
  lemma ShiftLogged(s: VisState, id: QueueId, local: seq<string>, k: nat)
    requires 0 < k <= |local| && Labelled(local)
    ensures var b := Draining(s, id, local, k);
      Messages(b.logs, Output) + b.Displayed(id) == Messages(s.logs, Output) + local
  {
    var m := Messages(s.logs, Output);
    var b := Draining(s, id, local, k);
    assert Messages(b.logs, Output) == m + local[..k] && b.Displayed(id) == local[k..] by {
      DrainingIs(s, id, local, k);
      DrainedOutputs(s.logs, local, k);
    }
    assert m + local[..k] + local[k..] == m + local by {
      assert local[..k] + local[k..] == local;
    }
  }

  /** A phase highlighted and its header logged. */
  function Entered(s: VisState, phase: int, header: string): VisState {
    s.(currentPhase := phase, logs := s.logs + [LogEntry(header, Phase)])
  }

  /** After a phase with nothing to run: its header logged, no highlight. */
  function Passed(s: VisState, phase: int, header: string): VisState {
    Entered(s, phase, header).(currentPhase := -1)
  }

  /** After a skippable phase: unchanged when its local queue is empty;
      otherwise header and outputs logged, display emptied, no highlight. */
  function AfterDrain(s: VisState, id: QueueId, header: string, phase: int, local: seq<string>): VisState {
    s.WithQueue(id, Emptied(local, s.Displayed(id)))
     .(logs := s.logs + DrainPhase(header, local), currentPhase := if local == [] then s.currentPhase else -1)
  }

  /** After the Close phase and the completion entry. */
  function Closed(s: VisState): VisState {
    s.(logs := s.logs + [LogEntry(RunBanners.close, Phase)] + [LogEntry(RunBanners.complete, Complete)],
       currentPhase := -1)
  }

  lemma PhaseAssoc(l0: seq<LogEntry>, b: Banners, nt: seq<string>, mt: seq<string>,
                   tm: seq<string>, im: seq<string>)
    ensures l0 + DrainPhase(b.nextTick, nt) + DrainPhase(b.microtask, mt) + DrainPhase(b.timers, tm)
            + [LogEntry(b.pending, Phase)] + [LogEntry(b.poll, Phase)] + DrainPhase(b.check, im)
            + [LogEntry(b.close, Phase)] + [LogEntry(b.complete, Complete)]
            == l0 + PhaseLog(b, nt, mt, tm, im)
  {
    var p1, p2, p3 := DrainPhase(b.nextTick, nt), DrainPhase(b.microtask, mt), DrainPhase(b.timers, tm);
    var p4, p5, p6 := [LogEntry(b.pending, Phase)], [LogEntry(b.poll, Phase)], DrainPhase(b.check, im);
    var p7, p8 := [LogEntry(b.close, Phase)], [LogEntry(b.complete, Complete)];
    LogAssoc(l0, p1, p2);
    LogAssoc(l0, p1 + p2, p3);
    LogAssoc(l0, p1 + p2 + p3, p4);
    LogAssoc(l0, p1 + p2 + p3 + p4, p5);
    LogAssoc(l0, p1 + p2 + p3 + p4 + p5, p6);
    LogAssoc(l0, p1 + p2 + p3 + p4 + p5 + p6, p7);
    LogAssoc(l0, p1 + p2 + p3 + p4 + p5 + p6 + p7, p8);
  }

  /** The phases one after the other reach AfterPhases. */
  lemma PhaseChain(s: VisState, nt: seq<string>, mt: seq<string>, tm: seq<string>, im: seq<string>)
    ensures
      var s1 := AfterDrain(s, NextTickQueue, RunBanners.nextTick, -2, nt);
      var s2 := AfterDrain(s1, MicroTaskQueue, RunBanners.microtask, -1, mt);
      var s3 := AfterDrain(s2, TimersQueue, RunBanners.timers, 0, tm);
      var s4 := Passed(s3, 1, RunBanners.pending);
      var s5 := Passed(s4, 2, RunBanners.poll);
      Closed(AfterDrain(s5, CheckQueue, RunBanners.check, 3, im)) == AfterPhases(s, nt, mt, tm, im)
  {
    PhaseAssoc(s.logs, RunBanners, nt, mt, tm, im);
  }

  /* The states a run shows at its pauses. Each `await sleep(...)` of
     `runExecution` lets the component render; the functions below append the
     state shown at each of them to `acc`, in order. */

  /** After each push of an enqueue loop. */
  function PushTrail(acc: seq<VisState>, s: VisState, id: QueueId, group: seq<string>, n: nat): seq<VisState>
    requires n <= |group|
  {
    if n == 0 then acc else PushTrail(acc, s, id, group, n - 1) + [Filling(s, id, group, n)]
  }

  /** The four enqueue loops, then the pause after the batch. */
  function BatchTrail(acc: seq<VisState>, s: VisState, t: ParsedTasks): seq<VisState> {
    var s1 := Pushed(s, TimersQueue, t.timers);
    var s2 := Pushed(s1, CheckQueue, t.immediate);
    var s3 := Pushed(s2, NextTickQueue, t.nextTick);
    PushTrail(PushTrail(PushTrail(PushTrail(acc, s, TimersQueue, t.timers, |t.timers|),
                                  s1, CheckQueue, t.immediate, |t.immediate|),
                        s2, NextTickQueue, t.nextTick, |t.nextTick|),
              s3, MicroTaskQueue, t.promises, |t.promises|)
    + [Batched(s, t)]
  }

  /** A synchronous label on the call stack, then output and off it. */
  function LabelTrail(acc: seq<VisState>, s: VisState, msg: string): seq<VisState> {
    acc + [s.(callStack := [msg])] + [Ran(s, msg)]
  }

  /** The first i iterations of the synchronous loop; the first one also enqueues. */
  function SyncTrail(acc: seq<VisState>, s: VisState, t: ParsedTasks, i: nat): seq<VisState>
    requires i <= |t.sync|
    decreases i
  {
    if i == 0 then acc
    else if i == 1 then BatchTrail(LabelTrail(acc, s, t.sync[0]), Ran(s, t.sync[0]), t)
    else LabelTrail(SyncTrail(acc, s, t, i - 1), SyncUpTo(s, t, i - 1), t.sync[i - 1])
  }

  /** The first n shifts of a drain: after the label is taken off, then after it is logged. */
  function ShiftTrail(acc: seq<VisState>, s: VisState, id: QueueId, local: seq<string>, n: nat): seq<VisState>
    requires n <= |local|
  {
    if n == 0 then acc
    else ShiftTrail(acc, s, id, local, n - 1) + [Draining(s, id, local, n - 1).WithQueue(id, local[n..])]
         + [Draining(s, id, local, n)]
  }

  /** A skippable phase: after the header, two per shift, after the highlight
      is cleared; no pause at all when it is skipped. */
  function DrainTrail(acc: seq<VisState>, s: VisState, id: QueueId, header: string, phase: int,
                      local: seq<string>): seq<VisState>
  {
    if local == [] then acc
    else ShiftTrail(acc + [Entered(s, phase, header)], Entered(s, phase, header), id, local, |local|)
         + [AfterDrain(s, id, header, phase, local)]
  }

  /** A phase with nothing to run: after its header, after the highlight is cleared. */
  function PassTrail(acc: seq<VisState>, s: VisState, phase: int, header: string): seq<VisState> {
    acc + [Entered(s, phase, header)] + [Passed(s, phase, header)]
  }

  /** The Close phase pauses once, after its header. */
  function CloseTrail(acc: seq<VisState>, s: VisState): seq<VisState> {
    acc + [Entered(s, 4, RunBanners.close)]
  }

  /** The phases: nextTick (-2), microtasks (-1), Timers (0), Pending I/O (1),
      Poll (2), Check (3), Close (4). */
  function PhaseTrail(acc: seq<VisState>, s: VisState, nt: seq<string>, mt: seq<string>,
                      tm: seq<string>, im: seq<string>): seq<VisState>
  {
    var s1 := AfterDrain(s, NextTickQueue, RunBanners.nextTick, -2, nt);
    var s2 := AfterDrain(s1, MicroTaskQueue, RunBanners.microtask, -1, mt);
    var s3 := AfterDrain(s2, TimersQueue, RunBanners.timers, 0, tm);
    var s4 := Passed(s3, 1, RunBanners.pending);
    var s5 := Passed(s4, 2, RunBanners.poll);
    var s6 := AfterDrain(s5, CheckQueue, RunBanners.check, 3, im);
    var a1 := DrainTrail(acc, s, NextTickQueue, RunBanners.nextTick, -2, nt);
    var a2 := DrainTrail(a1, s1, MicroTaskQueue, RunBanners.microtask, -1, mt);
    var a3 := DrainTrail(a2, s2, TimersQueue, RunBanners.timers, 0, tm);
    var a5 := PassTrail(PassTrail(a3, s3, 1, RunBanners.pending), s4, 2, RunBanners.poll);
    CloseTrail(DrainTrail(a5, s5, CheckQueue, RunBanners.check, 3, im), s6)
  }

  /** A whole run: the synchronous loop, the pause after it, the phases. */
  function TrailOn(acc: seq<VisState>, s: VisState, t: ParsedTasks): seq<VisState> {
    var s1 := AfterSync(s, t);
    PhaseTrail(SyncTrail(acc, s, t, |t.sync|) + [s1], s1,
               Drained(t, t.nextTick), Drained(t, t.promises), Drained(t, t.timers), Drained(t, t.immediate))
  }

  /** The states `runExecution` shows at its pauses, on the current code. */
  function RunTrail(acc: seq<VisState>, s: VisState): seq<VisState> {
    TrailOn(acc, s, ParseText(s.code))
  }

  /** The states a run from s shows at its pauses, in order. */
  function RunFrames(s: VisState): seq<VisState> {
    RunTrail([], s)
  }

  /** A state shown during a run from s: the flags, the code, the example and
      the three never-filled queues are those of s. */
  predicate DuringRun(s: VisState, f: VisState) {
    RunKeeps(s, f) && f.isRunning == s.isRunning
  }

  /** ... and the call stack is that of s, empty, or one synchronous label of t. */
  predicate Calm(s: VisState, t: ParsedTasks, f: VisState) {
    && DuringRun(s, f)
    && (f.callStack == s.callStack || f.callStack == [] || (|f.callStack| == 1 && f.callStack[0] in t.sync))
  }

  /** fs extends acc with states shown during a run from s, each with the
      call stack of s. */
  predicate Grows(acc: seq<VisState>, fs: seq<VisState>, s: VisState) {
    forall f | f in fs :: f in acc || (DuringRun(s, f) && f.callStack == s.callStack)
  }

  lemma GrowsSnoc(acc: seq<VisState>, fs: seq<VisState>, s: VisState, f: VisState)
    requires Grows(acc, fs, s) && DuringRun(s, f) && f.callStack == s.callStack
    ensures Grows(acc, fs + [f], s)
  {
  }

  lemma GrowsTrans(a: seq<VisState>, b: seq<VisState>, c: seq<VisState>, s: VisState, s1: VisState)
    requires Grows(a, b, s) && Grows(b, c, s1) && DuringRun(s, s1) && s1.callStack == s.callStack
    ensures Grows(a, c, s)
  {
  }

  lemma {:induction false} PushTrailFrames(acc: seq<VisState>, s: VisState, id: QueueId, group: seq<string>, n: nat)
    requires n <= |group|
    ensures Grows(acc, PushTrail(acc, s, id, group, n), s)
    decreases n
  {
    if n > 0 {
      PushTrailFrames(acc, s, id, group, n - 1);
    }
  }

  /** An enqueue loop leaves all but its queue and the log alone. */
  lemma PushedKeeps(s: VisState, id: QueueId, group: seq<string>)
    ensures var r := Pushed(s, id, group);
      DuringRun(s, r) && r.callStack == s.callStack && r.currentPhase == s.currentPhase
  {
    QueueSet(s, id, Filled(group, s.Displayed(id)));
  }

  lemma BatchTrailFrames(acc: seq<VisState>, s: VisState, t: ParsedTasks)
    ensures Grows(acc, BatchTrail(acc, s, t), s)
  {
    var s1 := Pushed(s, TimersQueue, t.timers);
    var s2 := Pushed(s1, CheckQueue, t.immediate);
    var s3 := Pushed(s2, NextTickQueue, t.nextTick);
    var a1 := PushTrail(acc, s, TimersQueue, t.timers, |t.timers|);
    var a2 := PushTrail(a1, s1, CheckQueue, t.immediate, |t.immediate|);
    var a3 := PushTrail(a2, s2, NextTickQueue, t.nextTick, |t.nextTick|);
    var a4 := PushTrail(a3, s3, MicroTaskQueue, t.promises, |t.promises|);
    assert Grows(acc, acc, s);
    PushStepFrames(acc, acc, s, s, TimersQueue, t.timers);
    PushStepFrames(acc, a1, s, s1, CheckQueue, t.immediate);
    PushStepFrames(acc, a2, s, s2, NextTickQueue, t.nextTick);
    PushStepFrames(acc, a3, s, s3, MicroTaskQueue, t.promises);
    GrowsSnoc(acc, a4, s, Batched(s, t));
  }

  /** One enqueue loop more, from a state r shown during the run from s. */
  lemma PushStepFrames(acc: seq<VisState>, a: seq<VisState>, s: VisState, r: VisState, id: QueueId, group: seq<string>)
    requires Grows(acc, a, s) && DuringRun(s, r) && r.callStack == s.callStack
    ensures Grows(acc, PushTrail(a, r, id, group, |group|), s)
    ensures var r2 := Pushed(r, id, group);
      DuringRun(s, r2) && r2.callStack == s.callStack
  {
    PushTrailFrames(a, r, id, group, |group|);
    GrowsTrans(acc, a, PushTrail(a, r, id, group, |group|), s, r);
    PushedKeeps(r, id, group);
  }

  /** fs extends acc with states shown during a run from s on t, each
      showing at most one synchronous label of t on the call stack. */
  predicate CalmlyGrows(acc: seq<VisState>, fs: seq<VisState>, s: VisState, t: ParsedTasks) {
    forall f | f in fs :: f in acc || Calm(s, t, f)
  }

  lemma {:induction false} SyncTrailFrames(acc: seq<VisState>, s: VisState, t: ParsedTasks, i: nat)
    requires i <= |t.sync|
    ensures CalmlyGrows(acc, SyncTrail(acc, s, t, i), s, t)
    decreases i
  {
    if i == 1 {
      var r := Ran(s, t.sync[0]);
      var l := LabelTrail(acc, s, t.sync[0]);
      assert CalmlyGrows(acc, l, s, t);
      assert Grows(l, BatchTrail(l, r, t), r) by {
        BatchTrailFrames(l, r, t);
      }
      assert Calm(s, t, r);
    } else if i > 1 {
      var a := SyncTrail(acc, s, t, i - 1);
      var r := SyncUpTo(s, t, i - 1);
      assert CalmlyGrows(acc, a, s, t) by {
        SyncTrailFrames(acc, s, t, i - 1);
      }
      assert Calm(s, t, r.(callStack := [t.sync[i - 1]])) && Calm(s, t, Ran(r, t.sync[i - 1]));
    }
  }

  lemma {:induction false} ShiftTrailFrames(acc: seq<VisState>, s: VisState, id: QueueId, local: seq<string>, n: nat)
    requires n <= |local|
    ensures Grows(acc, ShiftTrail(acc, s, id, local, n), s)
    decreases n
  {
    if n > 0 {
      var d := Draining(s, id, local, n - 1);
      var x := d.WithQueue(id, local[n..]);
      var y := Draining(s, id, local, n);
      assert DuringRun(s, x) && x.callStack == s.callStack by {
        DrainingIs(s, id, local, n - 1);
        QueueSet(d, id, local[n..]);
      }
      assert DuringRun(s, y) && y.callStack == s.callStack by {
        DrainingIs(s, id, local, n);
      }
      assert Grows(acc, ShiftTrail(acc, s, id, local, n - 1), s) by {
        ShiftTrailFrames(acc, s, id, local, n - 1);
      }
    }
  }

  lemma DrainTrailFrames(acc: seq<VisState>, s: VisState, id: QueueId, header: string, phase: int, local: seq<string>)
    ensures Grows(acc, DrainTrail(acc, s, id, header, phase, local), s)
  {
    if local != [] {
      var e := Entered(s, phase, header);
      var r := AfterDrain(s, id, header, phase, local);
      var t := ShiftTrail(acc + [e], e, id, local, |local|);
      assert DuringRun(s, r) && r.callStack == s.callStack by {
        AfterDrainKeeps(s, id, header, phase, local);
      }
      assert Grows(acc, acc + [e], s);
      assert Grows(acc, t, s) by {
        ShiftTrailFrames(acc + [e], e, id, local, |local|);
        GrowsTrans(acc, acc + [e], t, s, e);
      }
    }
  }

  /** A skippable phase leaves all but its queue, the log and the highlight alone. */
  lemma AfterDrainKeeps(s: VisState, id: QueueId, header: string, phase: int, local: seq<string>)
    ensures var r := AfterDrain(s, id, header, phase, local);
      DuringRun(s, r) && r.callStack == s.callStack
  {
    QueueSet(s, id, Emptied(local, s.Displayed(id)));
  }

  lemma PhaseTrailFrames(acc: seq<VisState>, s: VisState, nt: seq<string>, mt: seq<string>,
                         tm: seq<string>, im: seq<string>)
    ensures Grows(acc, PhaseTrail(acc, s, nt, mt, tm, im), s)
  {
    var s1 := AfterDrain(s, NextTickQueue, RunBanners.nextTick, -2, nt);
    var s2 := AfterDrain(s1, MicroTaskQueue, RunBanners.microtask, -1, mt);
    var s3 := AfterDrain(s2, TimersQueue, RunBanners.timers, 0, tm);
    var s4 := Passed(s3, 1, RunBanners.pending);
    var s5 := Passed(s4, 2, RunBanners.poll);
    var s6 := AfterDrain(s5, CheckQueue, RunBanners.check, 3, im);
    var a1 := DrainTrail(acc, s, NextTickQueue, RunBanners.nextTick, -2, nt);
    var a2 := DrainTrail(a1, s1, MicroTaskQueue, RunBanners.microtask, -1, mt);
    var a3 := DrainTrail(a2, s2, TimersQueue, RunBanners.timers, 0, tm);
    var a4 := PassTrail(a3, s3, 1, RunBanners.pending);
    var a5 := PassTrail(a4, s4, 2, RunBanners.poll);
    var a6 := DrainTrail(a5, s5, CheckQueue, RunBanners.check, 3, im);
    assert Grows(acc, acc, s);
    DrainStepFrames(acc, acc, s, s, NextTickQueue, RunBanners.nextTick, -2, nt);
    DrainStepFrames(acc, a1, s, s1, MicroTaskQueue, RunBanners.microtask, -1, mt);
    DrainStepFrames(acc, a2, s, s2, TimersQueue, RunBanners.timers, 0, tm);
    PassStepFrames(acc, a3, s, s3, 1, RunBanners.pending);
    PassStepFrames(acc, a4, s, s4, 2, RunBanners.poll);
    DrainStepFrames(acc, a5, s, s5, CheckQueue, RunBanners.check, 3, im);
    GrowsSnoc(acc, a6, s, Entered(s6, 4, RunBanners.close));
  }

  /** One skippable phase more, from a state r shown during the run from s. */
  lemma DrainStepFrames(acc: seq<VisState>, a: seq<VisState>, s: VisState, r: VisState, id: QueueId,
                        header: string, phase: int, local: seq<string>)
    requires Grows(acc, a, s) && DuringRun(s, r) && r.callStack == s.callStack
    ensures Grows(acc, DrainTrail(a, r, id, header, phase, local), s)
    ensures var r2 := AfterDrain(r, id, header, phase, local);
      DuringRun(s, r2) && r2.callStack == s.callStack
  {
    DrainTrailFrames(a, r, id, header, phase, local);
    GrowsTrans(acc, a, DrainTrail(a, r, id, header, phase, local), s, r);
    AfterDrainKeeps(r, id, header, phase, local);
  }

  /** One phase with nothing to run more, from a state r shown during the run from s. */
  lemma PassStepFrames(acc: seq<VisState>, a: seq<VisState>, s: VisState, r: VisState, phase: int, header: string)
    requires Grows(acc, a, s) && DuringRun(s, r) && r.callStack == s.callStack
    ensures Grows(acc, PassTrail(a, r, phase, header), s)
    ensures var r2 := Passed(r, phase, header);
      DuringRun(s, r2) && r2.callStack == s.callStack
  {
    GrowsSnoc(acc, a, s, Entered(r, phase, header));
    GrowsSnoc(acc, a + [Entered(r, phase, header)], s, Passed(r, phase, header));
  }

  /** Every state a run on t shows keeps the flags, the code, the example and
      the Pending I/O, Poll and Close queues, and shows on the call stack the
      old call stack, nothing, or one synchronous label of t. */
  lemma RunFramesCalm(s: VisState, t: ParsedTasks)
    ensures forall f | f in TrailOn([], s, t) :: Calm(s, t, f)
  {
    var s1 := AfterSync(s, t);
    var a := SyncTrail([], s, t, |t.sync|);
    var nt, mt, tm, im := Drained(t, t.nextTick), Drained(t, t.promises), Drained(t, t.timers), Drained(t, t.immediate);
    assert Calm(s, t, s1);
    assert CalmlyGrows([], a + [s1], s, t) by {
      SyncTrailFrames([], s, t, |t.sync|);
    }
    assert Grows(a + [s1], PhaseTrail(a + [s1], s1, nt, mt, tm, im), s1) by {
      PhaseTrailFrames(a + [s1], s1, nt, mt, tm, im);
    }
  }

  /** Every state a run started from the Run button shows: running, not
      paused, the call stack empty or holding one synchronous label of the
      program, the Pending I/O, Poll and Close queues empty, the code and the
      example unchanged. */
  lemma HandleRunFrames(s: VisState)
    requires !s.isPaused
    ensures forall f | f in RunFrames(AfterReset(s).(isRunning := true)) ::
      && f.isRunning && !f.isPaused
      && (f.callStack == [] || (|f.callStack| == 1 && f.callStack[0] in ParseText(s.code).sync))
      && f.pendingQueue == [] && f.pollQueue == [] && f.closeQueue == []
      && f.code == s.code && f.selectedExample == s.selectedExample
  {
    RunFramesCalm(AfterReset(s).(isRunning := true), ParseText(s.code));
  }

  /** The highlight code of each state in a sequence. */
  function Codes(fs: seq<VisState>): (r: seq<int>)
    ensures |r| == |fs| && forall i | 0 <= i < |fs| :: r[i] == fs[i].currentPhase
  {
    seq(|fs|, i requires 0 <= i < |fs| => fs[i].currentPhase)
  }

  /** n copies of c. */
  function Rep(c: int, n: nat): (r: seq<int>)
    ensures |r| == n && forall i | 0 <= i < n :: r[i] == c
  {
    seq(n, _ => c)
  }

  /** The highlight codes of a skippable phase with n labels: the phase's
      code while its header and its 2n shift states are shown, then -1; none
      when n is 0. */
  function DrainCodes(phase: int, n: nat): seq<int> {
    if n == 0 then [] else Rep(phase, 1 + 2 * n) + [-1]
  }

  /** The number of states the synchronous loop of t shows after i labels:
      two per label, and after the first one a state per enqueued label and
      one after the batch. */
  function SyncPauses(t: ParsedTasks, i: nat): nat {
    if i == 0 then 0 else 2 * i + |t.timers| + |t.immediate| + |t.nextTick| + |t.promises| + 1
  }

  lemma CodesAppend(a: seq<VisState>, b: seq<VisState>)
    ensures Codes(a + b) == Codes(a) + Codes(b)
  {
  }

  lemma RepAdd(c: int, m: nat, n: nat)
    ensures Rep(c, m) + Rep(c, n) == Rep(c, m + n)
  {
  }

  lemma {:induction false} PushTrailCodes(acc: seq<VisState>, s: VisState, id: QueueId, group: seq<string>, n: nat)
    requires n <= |group|
    ensures Codes(PushTrail(acc, s, id, group, n)) == Codes(acc) + Rep(s.currentPhase, n)
    decreases n
  {
    if n > 0 {
      PushTrailCodes(acc, s, id, group, n - 1);
      CodesAppend(PushTrail(acc, s, id, group, n - 1), [Filling(s, id, group, n)]);
      RepAdd(s.currentPhase, n - 1, 1);
    }
  }

  /** One group of the batch extends the codes by one per label. */
  lemma PushedCodes(base: seq<int>, a: seq<VisState>, s: VisState, id: QueueId, group: seq<string>, m: nat)
    requires Codes(a) == base + Rep(s.currentPhase, m)
    ensures Codes(PushTrail(a, s, id, group, |group|)) == base + Rep(s.currentPhase, m + |group|)
    ensures Pushed(s, id, group).currentPhase == s.currentPhase
  {
    PushTrailCodes(a, s, id, group, |group|);
    RepAdd(s.currentPhase, m, |group|);
    PushedKeeps(s, id, group);
  }

  lemma BatchTrailCodes(acc: seq<VisState>, s: VisState, t: ParsedTasks)
    ensures Codes(BatchTrail(acc, s, t))
            == Codes(acc) + Rep(s.currentPhase, |t.timers| + |t.immediate| + |t.nextTick| + |t.promises| + 1)
  {
    var c := s.currentPhase;
    var s1 := Pushed(s, TimersQueue, t.timers);
    var s2 := Pushed(s1, CheckQueue, t.immediate);
    var s3 := Pushed(s2, NextTickQueue, t.nextTick);
    var a1 := PushTrail(acc, s, TimersQueue, t.timers, |t.timers|);
    var a2 := PushTrail(a1, s1, CheckQueue, t.immediate, |t.immediate|);
    var a3 := PushTrail(a2, s2, NextTickQueue, t.nextTick, |t.nextTick|);
    var a4 := PushTrail(a3, s3, MicroTaskQueue, t.promises, |t.promises|);
    assert Codes(acc) + Rep(c, 0) == Codes(acc);
    PushedCodes(Codes(acc), acc, s, TimersQueue, t.timers, 0);
    PushedCodes(Codes(acc), a1, s1, CheckQueue, t.immediate, |t.timers|);
    PushedCodes(Codes(acc), a2, s2, NextTickQueue, t.nextTick, |t.timers| + |t.immediate|);
    PushedCodes(Codes(acc), a3, s3, MicroTaskQueue, t.promises, |t.timers| + |t.immediate| + |t.nextTick|);
    CodesAppend(a4, [Batched(s, t)]);
    RepAdd(c, |t.timers| + |t.immediate| + |t.nextTick| + |t.promises|, 1);
  }

  /** Two more states. */
  lemma CodesSnoc2(acc: seq<VisState>, x: VisState, y: VisState)
    ensures Codes(acc + [x] + [y]) == Codes(acc) + [x.currentPhase, y.currentPhase]
  {
  }

  lemma {:induction false} SyncTrailCodes(acc: seq<VisState>, s: VisState, t: ParsedTasks, i: nat)
    requires i <= |t.sync|
    ensures Codes(SyncTrail(acc, s, t, i)) == Codes(acc) + Rep(s.currentPhase, SyncPauses(t, i))
    decreases i
  {
    var c := s.currentPhase;
    var n := |t.timers| + |t.immediate| + |t.nextTick| + |t.promises| + 1;
    if i == 1 {
      var l := LabelTrail(acc, s, t.sync[0]);
      assert Codes(l) == Codes(acc) + Rep(c, 2) by {
        CodesSnoc2(acc, s.(callStack := [t.sync[0]]), Ran(s, t.sync[0]));
        assert Rep(c, 2) == [c, c];
      }
      assert Codes(SyncTrail(acc, s, t, i)) == Codes(l) + Rep(c, n) by {
        BatchTrailCodes(l, Ran(s, t.sync[0]), t);
      }
      assert Codes(acc) + Rep(c, 2) + Rep(c, n) == Codes(acc) + Rep(c, 2 + n) by {
        RepAdd(c, 2, n);
      }
    } else if i > 1 {
      var a := SyncTrail(acc, s, t, i - 1);
      var r := SyncUpTo(s, t, i - 1);
      assert Codes(a) == Codes(acc) + Rep(c, SyncPauses(t, i - 1)) by {
        SyncTrailCodes(acc, s, t, i - 1);
      }
      assert Codes(LabelTrail(a, r, t.sync[i - 1])) == Codes(a) + Rep(c, 2) by {
        CodesSnoc2(a, r.(callStack := [t.sync[i - 1]]), Ran(r, t.sync[i - 1]));
        assert Rep(c, 2) == [c, c];
      }
      assert Codes(acc) + Rep(c, SyncPauses(t, i - 1)) + Rep(c, 2) == Codes(acc) + Rep(c, SyncPauses(t, i)) by {
        RepAdd(c, SyncPauses(t, i - 1), 2);
      }
    }
  }

  lemma {:induction false} ShiftTrailCodes(acc: seq<VisState>, s: VisState, id: QueueId, local: seq<string>, n: nat)
    requires n <= |local|
    ensures Codes(ShiftTrail(acc, s, id, local, n)) == Codes(acc) + Rep(s.currentPhase, 2 * n)
    decreases n
  {
    if n > 0 {
      var c := s.currentPhase;
      var a := ShiftTrail(acc, s, id, local, n - 1);
      var d := Draining(s, id, local, n - 1);
      var x := d.WithQueue(id, local[n..]);
      var y := Draining(s, id, local, n);
      assert x.currentPhase == c && y.currentPhase == c by {
        DrainingIs(s, id, local, n - 1);
        DrainingIs(s, id, local, n);
        QueueSet(d, id, local[n..]);
      }
      assert Codes(a + [x] + [y]) == Codes(a) + Rep(c, 2) by {
        CodesSnoc2(a, x, y);
        assert Rep(c, 2) == [c, c];
      }
      assert Codes(a) == Codes(acc) + Rep(c, 2 * (n - 1)) by {
        ShiftTrailCodes(acc, s, id, local, n - 1);
      }
      assert Codes(acc) + Rep(c, 2 * (n - 1)) + Rep(c, 2) == Codes(acc) + Rep(c, 2 * n) by {
        RepAdd(c, 2 * (n - 1), 2);
      }
    }
  }

  lemma DrainTrailCodes(acc: seq<VisState>, s: VisState, id: QueueId, header: string, phase: int, local: seq<string>)
    ensures Codes(DrainTrail(acc, s, id, header, phase, local)) == Codes(acc) + DrainCodes(phase, |local|)
  {
    if local != [] {
      var e := Entered(s, phase, header);
      var a := ShiftTrail(acc + [e], e, id, local, |local|);
      CodesAppend(acc, [e]);
      ShiftTrailCodes(acc + [e], e, id, local, |local|);
      CodesAppend(a, [AfterDrain(s, id, header, phase, local)]);
      RepAdd(phase, 1, 2 * |local|);
    }
  }

  lemma PhaseTrailCodes(base: seq<int>, acc: seq<VisState>, s: VisState, nt: seq<string>, mt: seq<string>,
                        tm: seq<string>, im: seq<string>)
    requires Codes(acc) == base
    ensures Codes(PhaseTrail(acc, s, nt, mt, tm, im))
            == base + DrainCodes(-2, |nt|) + DrainCodes(-1, |mt|) + DrainCodes(0, |tm|) + [1, -1] + [2, -1]
               + DrainCodes(3, |im|) + [4]
  {
    var s1 := AfterDrain(s, NextTickQueue, RunBanners.nextTick, -2, nt);
    var s2 := AfterDrain(s1, MicroTaskQueue, RunBanners.microtask, -1, mt);
    var s3 := AfterDrain(s2, TimersQueue, RunBanners.timers, 0, tm);
    var s4 := Passed(s3, 1, RunBanners.pending);
    var s5 := Passed(s4, 2, RunBanners.poll);
    var s6 := AfterDrain(s5, CheckQueue, RunBanners.check, 3, im);
    var a1 := DrainTrail(acc, s, NextTickQueue, RunBanners.nextTick, -2, nt);
    var a2 := DrainTrail(a1, s1, MicroTaskQueue, RunBanners.microtask, -1, mt);
    var a3 := DrainTrail(a2, s2, TimersQueue, RunBanners.timers, 0, tm);
    var a4 := PassTrail(a3, s3, 1, RunBanners.pending);
    var a5 := PassTrail(a4, s4, 2, RunBanners.poll);
    var a6 := DrainTrail(a5, s5, CheckQueue, RunBanners.check, 3, im);
    var c := Codes(acc);
    var d1, d2, d3, d4 := DrainCodes(-2, |nt|), DrainCodes(-1, |mt|), DrainCodes(0, |tm|), DrainCodes(3, |im|);
    assert Codes(a3) == c + d1 + d2 + d3 by {
      DrainTrailCodes(acc, s, NextTickQueue, RunBanners.nextTick, -2, nt);
      DrainTrailCodes(a1, s1, MicroTaskQueue, RunBanners.microtask, -1, mt);
      DrainTrailCodes(a2, s2, TimersQueue, RunBanners.timers, 0, tm);
    }
    assert Codes(a5) == c + d1 + d2 + d3 + [1, -1] + [2, -1] by {
      CodesSnoc2(a3, Entered(s3, 1, RunBanners.pending), s4);
      CodesSnoc2(a4, Entered(s4, 2, RunBanners.poll), s5);
    }
    assert Codes(PhaseTrail(acc, s, nt, mt, tm, im)) == c + d1 + d2 + d3 + [1, -1] + [2, -1] + d4 + [4] by {
      DrainTrailCodes(a5, s5, CheckQueue, RunBanners.check, 3, im);
      CodesAppend(a6, [Entered(s6, 4, RunBanners.close)]);
    }
  }

  /** The highlight codes a run from s on the lists t shows, state by state: the old code
      through the synchronous loop and the pause after it, then each phase's
      code; a skippable phase shows up only when its local queue was filled. */
  lemma RunCodes(s: VisState, t: ParsedTasks)
    ensures var nt, mt, tm, im := Drained(t, t.nextTick), Drained(t, t.promises), Drained(t, t.timers), Drained(t, t.immediate);
      Codes(TrailOn([], s, t)) == Rep(s.currentPhase, SyncPauses(t, |t.sync|) + 1)
        + DrainCodes(-2, |nt|) + DrainCodes(-1, |mt|) + DrainCodes(0, |tm|) + [1, -1] + [2, -1]
        + DrainCodes(3, |im|) + [4]
  {
    SyncCodes(s, t);
    PhaseTrailCodes(Rep(s.currentPhase, SyncPauses(t, |t.sync|) + 1),
                    SyncTrail([], s, t, |t.sync|) + [AfterSync(s, t)], AfterSync(s, t), Drained(t, t.nextTick),
                    Drained(t, t.promises), Drained(t, t.timers), Drained(t, t.immediate));
  }

  /** Through the synchronous loop and the pause after it, the old highlight stays. */
  lemma SyncCodes(s: VisState, t: ParsedTasks)
    ensures Codes(SyncTrail([], s, t, |t.sync|) + [AfterSync(s, t)]) == Rep(s.currentPhase, SyncPauses(t, |t.sync|) + 1)
  {
    var c, n := s.currentPhase, SyncPauses(t, |t.sync|);
    var a := SyncTrail([], s, t, |t.sync|);
    SyncTrailCodes([], s, t, |t.sync|);
    CodesAppend(a, [AfterSync(s, t)]);
    RepAdd(c, n, 1);
    assert Codes([]) + Rep(c, n) == Rep(c, n);
  }

  /** Every state in fs but not in acc shows the drain of `local` begun after the outputs m. */
  predicate Shows(acc: seq<VisState>, fs: seq<VisState>, m: seq<string>, id: QueueId, local: seq<string>) {
    forall f | f in fs :: f in acc || DrainView(m, local, Messages(f.logs, Output), f.Displayed(id))
  }

  lemma ShowsSnoc(acc: seq<VisState>, fs: seq<VisState>, m: seq<string>, id: QueueId, local: seq<string>, f: VisState)
    requires Shows(acc, fs, m, id, local) && DrainView(m, local, Messages(f.logs, Output), f.Displayed(id))
    ensures Shows(acc, fs + [f], m, id, local)
  {
  }

  lemma {:induction false} ShiftTrailShows(acc: seq<VisState>, s: VisState, id: QueueId, local: seq<string>, n: nat)
    requires n <= |local| && Labelled(local)
    ensures Shows(acc, ShiftTrail(acc, s, id, local, n), Messages(s.logs, Output), id, local)
    decreases n
  {
    var m := Messages(s.logs, Output);
    if n > 0 {
      var a := ShiftTrail(acc, s, id, local, n - 1);
      var x := Draining(s, id, local, n - 1).WithQueue(id, local[n..]);
      var y := Draining(s, id, local, n);
      assert Shows(acc, a, m, id, local) by {
        ShiftTrailShows(acc, s, id, local, n - 1);
      }
      assert DrainView(m, local, Messages(x.logs, Output), x.Displayed(id))
          && DrainView(m, local, Messages(y.logs, Output), y.Displayed(id)) by {
        DrainShows(s, id, local, n);
      }
      ShowsSnoc(acc, a, m, id, local, x);
      ShowsSnoc(acc, a + [x], m, id, local, y);
    } else {
      assert Shows(acc, acc, m, id, local);
    }
  }

  /** Through a skippable phase, every state after the header shows the
      outputs logged so far followed by the display as the outputs before
      the phase followed by the whole local queue (with the label in hand
      between a `shift` and its log entry). */
  lemma DrainTrailShows(acc: seq<VisState>, s: VisState, id: QueueId, header: string, phase: int, local: seq<string>)
    requires Labelled(local)
    ensures forall f | f in DrainTrail(acc, s, id, header, phase, local) ::
      || f in acc || f == Entered(s, phase, header)
      || DrainView(Messages(s.logs, Output), local, Messages(f.logs, Output), f.Displayed(id))
  {
    if local != [] {
      var e := Entered(s, phase, header);
      var r := AfterDrain(s, id, header, phase, local);
      var m := Messages(s.logs, Output);
      EnteredShows(s, id, header, phase, local);
      ShiftTrailShows(acc + [e], e, id, local, |local|);
      ShowsSnoc(acc + [e], ShiftTrail(acc + [e], e, id, local, |local|), m, id, local, r);
    }
  }

  /** The header adds no output, and the drain ends with every label output and an empty display. */
  lemma EnteredShows(s: VisState, id: QueueId, header: string, phase: int, local: seq<string>)
    requires Labelled(local) && local != []
    ensures Messages(Entered(s, phase, header).logs, Output) == Messages(s.logs, Output)
    ensures var r := AfterDrain(s, id, header, phase, local);
      DrainView(Messages(s.logs, Output), local, Messages(r.logs, Output), r.Displayed(id))
  {
    var m := Messages(s.logs, Output);
    var e := Entered(s, phase, header);
    var r := AfterDrain(s, id, header, phase, local);
    assert Messages(e.logs, Output) == m by {
      MessagesAppend(s.logs, [LogEntry(header, Phase)], Output);
      MessagesOne(LogEntry(header, Phase), Output);
    }
    EnteredDrained(s, id, header, phase, local);
    assert Messages(r.logs, Output) == m + local by {
      DrainedOutputs(e.logs, local, |local|);
      assert local[..|local|] == local;
    }
  }

  /** A whole drain after the header: the queue shown empty, every label logged. */
  lemma EnteredDrained(s: VisState, id: QueueId, header: string, phase: int, local: seq<string>)
    requires local != []
    ensures var r := AfterDrain(s, id, header, phase, local);
      r.Displayed(id) == [] && r.logs == Entered(s, phase, header).logs + DrainLog(local[..|local|])
  {
    var w := s.WithQueue(id, []);
    assert Emptied(local, s.Displayed(id)) == [];
    QueueSet(s, id, []);
    var r := AfterDrain(s, id, header, phase, local);
    assert r == w.(logs := s.logs + DrainPhase(header, local), currentPhase := -1);
    assert r.Displayed(id) == w.Displayed(id) by {
      match id
      case TimersQueue =>
      case CheckQueue =>
      case NextTickQueue =>
      case MicroTaskQueue =>
    }
    assert local[..|local|] == local;
    LogAssoc(s.logs, [LogEntry(header, Phase)], DrainLog(local));
  }

  /** The component as an object whose fields are its state hooks. */
  class Component {
    var isRunning: bool
    var isPaused: bool
    var currentPhase: int
    var logs: seq<LogEntry>
    var callStack: seq<string>
    var timersQueue: seq<string>
    var pendingQueue: seq<string>
    var pollQueue: seq<string>
    var checkQueue: seq<string>
    var closeQueue: seq<string>
    var nextTickQueue: seq<string>
    var microTaskQueue: seq<string>
    var selectedExample: Examples.ExampleKey
    var code: string
    /** The states shown so far at the pauses of runs, oldest first. */
    ghost var frames: seq<VisState>

    function State(): VisState
      reads this
    {
      VisState(isRunning, isPaused, currentPhase, logs, callStack, timersQueue, pendingQueue,
               pollQueue, checkQueue, closeQueue, nextTickQueue, microTaskQueue, selectedExample, code)
    }

    /** The hooks' initial values; `frames` starts empty. */
    constructor ()
      ensures State() == InitialState
      ensures |frames| == 0
    {
      isRunning, isPaused, currentPhase := false, false, -1;
      logs, callStack := [], [];
      timersQueue, pendingQueue, pollQueue, checkQueue := [], [], [], [];
      closeQueue, nextTickQueue, microTaskQueue := [], [], [];
      selectedExample := Examples.DefaultExample;
      code := Examples.ExampleOf(Examples.DefaultExample).code;
      frames := [];
    }

    /** `addLog`: append one entry (its timestamp is not modelled). */
    method AddLog(message: string, kind: LogType)
      modifies this`logs
      ensures State() == old(State()).(logs := old(logs) + [LogEntry(message, kind)])
    {
      logs := logs + [LogEntry(message, kind)];
    }

    method SetQueue(id: QueueId, q: seq<string>)
      modifies this`timersQueue, this`checkQueue, this`nextTickQueue, this`microTaskQueue
      ensures State() == old(State()).WithQueue(id, q)
    {
      match id
      case TimersQueue => timersQueue := q;
      case CheckQueue => checkQueue := q;
      case NextTickQueue => nextTickQueue := q;
      case MicroTaskQueue => microTaskQueue := q;
    }

    /** `parseCode`: classify the lines of the current code, top to bottom. */
    method ParseCode() returns (tasks: ParsedTasks)
      ensures tasks == ParseText(code)
    {
      var lines := Split(code);
      tasks := NoTasks;
      for i := 0 to |lines|
        invariant tasks == Classify(lines[..i])
      {
        ClassifySnoc(lines, i);
        tasks := ParseLine(tasks, lines[i]);
      }
      assert lines[..|lines|] == lines;
    }

    /** The `forEach` callback of `parseCode`: test the trimmed line against
        the markers in order and push the label of the first one found. */
    static method ParseLine(tasks: ParsedTasks, line: string) returns (r: ParsedTasks)
      ensures r == Push(tasks, ClassifyLine(line))
    {
      r := tasks;
      var trimmed := Trim(line);
      if StartsWith(trimmed, SyncMarker) {
        var m := MatchLabel(trimmed);
        if m.Some? {
          r := r.(sync := r.sync + [m.value]);
        }
      } else if Includes(trimmed, TimeoutMarker) {
        var m := MatchLabel(line);
        if m.Some? {
          r := r.(timers := r.timers + [m.value]);
        }
      } else if Includes(trimmed, ImmediateMarker) {
        var m := MatchLabel(line);
        if m.Some? {
          r := r.(immediate := r.immediate + [m.value]);
        }
      } else if Includes(trimmed, NextTickMarker) {
        var m := MatchLabel(line);
        if m.Some? {
          r := r.(nextTick := r.nextTick + [m.value]);
        }
      } else if Includes(trimmed, PromiseMarker) {
        var m := MatchLabel(line);
        if m.Some? {
          r := r.(promises := r.promises + [m.value]);
        }
      }
    }

    /** One enqueue loop: push each label onto the local queue, show the
        local queue after every push, log the push and pause. After k pushes
        the display is the first k labels of the group. */
    method Enqueue(group: seq<string>, id: QueueId) returns (local: seq<string>)
      modifies this
      ensures local == group
      ensures State() == Pushed(old(State()), id, group)
      ensures frames == PushTrail(old(frames), old(State()), id, group, |group|)
    {
      ghost var s0, f0 := State(), frames;
      FillingStart(s0, id, group);
      local := [];
      for k := 0 to |group|
        invariant local == group[..k]
        invariant State() == Filling(s0, id, group, k)
        invariant frames == PushTrail(f0, s0, id, group, k)
      {
        local := PushLabel(id, group, k, local, s0);
      }
      FillingDone(s0, id, group);
    }

    /** One push of an enqueue loop: show the local queue, now holding the
        first k + 1 labels of the group, log the push and pause. */
    method PushLabel(id: QueueId, group: seq<string>, k: nat, local: seq<string>, ghost s0: VisState)
      returns (pushed: seq<string>)
      requires k < |group| && local == group[..k]
      requires State() == Filling(s0, id, group, k)
      modifies this
      ensures pushed == group[..k + 1]
      ensures State() == Filling(s0, id, group, k + 1)
      ensures frames == old(frames) + [Filling(s0, id, group, k + 1)]
    {
      FillingStep(s0, id, group, k);
      assert local + [group[k]] == group[..k + 1];
      pushed := local + [group[k]];
      SetQueue(id, pushed);
      ghost var r := State();
      assert r == Filling(s0, id, group, k).WithQueue(id, group[..k + 1]);
      AddLog(QueueMessage(group[k], id), Queue);
      assert State() == r.(logs := r.logs + [LogEntry(QueueMessage(group[k], id), Queue)]);
      frames := frames + [State()];
    }

    /** The loop over the synchronous labels: each is run, and the first one
        is followed by the enqueue batch; then the pause after the loop.
        Returns the four filled local queues. */
    method RunSync(tasks: ParsedTasks) returns (timers: seq<string>, immediates: seq<string>,
                                                nextTicks: seq<string>, microTasks: seq<string>)
      modifies this
      ensures timers == Drained(tasks, tasks.timers) && immediates == Drained(tasks, tasks.immediate)
      ensures nextTicks == Drained(tasks, tasks.nextTick) && microTasks == Drained(tasks, tasks.promises)
      ensures State() == AfterSync(old(State()), tasks)
      ensures frames == SyncTrail(old(frames), old(State()), tasks, |tasks.sync|) + [AfterSync(old(State()), tasks)]
    {
      ghost var s0, f0 := State(), frames;
      timers, immediates, nextTicks, microTasks := [], [], [], [];
      var i := 0;
      while i < |tasks.sync|
        invariant 0 <= i <= |tasks.sync|
        invariant frames == SyncTrail(f0, s0, tasks, i)
        invariant i == 0 ==> State() == s0 && timers == [] && immediates == [] && nextTicks == [] && microTasks == []
        invariant i > 0 ==>
          && timers == tasks.timers && immediates == tasks.immediate
          && nextTicks == tasks.nextTick && microTasks == tasks.promises
          && State() == SyncUpTo(s0, tasks, i)
      {
        RunSyncLabel(tasks.sync[i]);
        if i == 0 {
          timers, immediates, nextTicks, microTasks := EnqueueAll(tasks);
          SyncStart(s0, tasks);
        } else {
          SyncNext(s0, tasks, i);
        }
        i := i + 1;
      }
      if tasks.sync != [] {
        SyncDone(s0, tasks);
      }
      frames := frames + [State()];
    }

    /** One synchronous label: on the call stack, pause, output, off the
        call stack, pause. */
    method RunSyncLabel(msg: string)
      modifies this
      ensures State() == Ran(old(State()), msg)
      ensures frames == LabelTrail(old(frames), old(State()), msg)
    {
      callStack := [msg];
      frames := frames + [State()];
      AddLog(msg, Output);
      callStack := [];
      frames := frames + [State()];
    }

    /** The enqueue batch, in the order timers, immediates, nextTick,
        promises, then a pause. */
    method EnqueueAll(tasks: ParsedTasks) returns (timers: seq<string>, immediates: seq<string>,
                                                  nextTicks: seq<string>, microTasks: seq<string>)
      modifies this
      ensures timers == tasks.timers && immediates == tasks.immediate
      ensures nextTicks == tasks.nextTick && microTasks == tasks.promises
      ensures State() == Batched(old(State()), tasks)
      ensures frames == BatchTrail(old(frames), old(State()), tasks)
    {
      timers := Enqueue(tasks.timers, TimersQueue);
      immediates := Enqueue(tasks.immediate, CheckQueue);
      nextTicks := Enqueue(tasks.nextTick, NextTickQueue);
      microTasks := Enqueue(tasks.promises, MicroTaskQueue);
      frames := frames + [State()];
    }

    /** A skippable phase: when the local queue is non-empty, highlight the
        phase, log its header and pause, then `shift` every label off the
        local queue; finally clear the highlight and pause. */
    method Drain(id: QueueId, header: string, phase: int, local: seq<string>)
      modifies this
      ensures State() == AfterDrain(old(State()), id, header, phase, local)
      ensures frames == DrainTrail(old(frames), old(State()), id, header, phase, local)
    {
      ghost var s0 := State();
      if |local| > 0 {
        currentPhase := phase;
        AddLog(header, Phase);
        assert State() == Entered(s0, phase, header);
        frames := frames + [State()];
        ShiftAll(id, local);
        ghost var s2 := State();
        DrainingDone(s0, id, header, phase, local);
        currentPhase := -1;
        assert State() == s2.(currentPhase := -1);
        frames := frames + [State()];
      } else {
        DrainingNone(s0, id, header, phase);
      }
    }

    /** The drain loop: `shift` labels off the local queue until it is empty. */
    method ShiftAll(id: QueueId, local: seq<string>)
      modifies this
      ensures State() == Draining(old(State()), id, local, |local|)
      ensures frames == ShiftTrail(old(frames), old(State()), id, local, |local|)
    {
      ghost var s1 := State();
      DrainingStart(s1, id, local);
      var rest := local;
      ghost var done := 0;
      while |rest| > 0
        invariant 0 <= done <= |local| && rest == local[done..]
        invariant State() == Draining(s1, id, local, done)
        invariant frames == ShiftTrail(old(frames), s1, id, local, done)
        decreases |rest|
      {
        rest := Shift(id, local, done, rest, s1);
        done := done + 1;
      }
    }

    /** One `shift` of a drain loop: show what is left and pause, then log
        the label taken off unless it is empty, and pause. */
    method Shift(id: QueueId, local: seq<string>, ghost done: nat, rest: seq<string>, ghost s1: VisState)
      returns (left: seq<string>)
      requires done < |local| && rest == local[done..]
      requires State() == Draining(s1, id, local, done)
      modifies this
      ensures left == local[done + 1..]
      ensures State() == Draining(s1, id, local, done + 1)
      ensures frames == old(frames) + [Draining(s1, id, local, done).WithQueue(id, local[done + 1..])]
                        + [Draining(s1, id, local, done + 1)]
    {
      DrainingStep(s1, id, local, done);
      var msg := rest[0];
      left := rest[1..];
      SetQueue(id, left);
      frames := frames + [State()];
      if msg != "" {
        AddLog(msg, Output);
      }
      frames := frames + [State()];
    }

    /** A phase with nothing to run: highlight it, log its header, pause,
        clear the highlight, pause. */
    method PassPhase(phase: int, header: string)
      modifies this
      ensures State() == Passed(old(State()), phase, header)
      ensures frames == PassTrail(old(frames), old(State()), phase, header)
    {
      currentPhase := phase;
      AddLog(header, Phase);
      frames := frames + [State()];
      currentPhase := -1;
      frames := frames + [State()];
    }

    /** The Close phase: highlight it, log its header, pause, clear the
        highlight, and log the completion entry. */
    method ClosePhase()
      modifies this
      ensures State() == Closed(old(State()))
      ensures frames == CloseTrail(old(frames), old(State()))
    {
      currentPhase := 4;
      AddLog(RunBanners.close, Phase);
      frames := frames + [State()];
      currentPhase := -1;
      AddLog(RunBanners.complete, Complete);
    }

    /** The phases after the synchronous code, in libuv order, then the
        completion entry. */
    method RunPhases(nt: seq<string>, mt: seq<string>, tm: seq<string>, im: seq<string>)
      modifies this
      ensures State() == AfterPhases(old(State()), nt, mt, tm, im)
      ensures frames == PhaseTrail(old(frames), old(State()), nt, mt, tm, im)
    {
      PhaseChain(State(), nt, mt, tm, im);
      Drain(NextTickQueue, RunBanners.nextTick, -2, nt);
      Drain(MicroTaskQueue, RunBanners.microtask, -1, mt);
      Drain(TimersQueue, RunBanners.timers, 0, tm);
      PassPhase(1, RunBanners.pending);
      PassPhase(2, RunBanners.poll);
      Drain(CheckQueue, RunBanners.check, 3, im);
      ClosePhase();
    }

    /** `runExecution`, its pauses recorded in `frames`, run to completion. */
    method RunExecution()
      modifies this
      ensures State() == AfterRun(old(State()))
      ensures frames == RunTrail(old(frames), old(State()))
    {
      var tasks := ParseCode();
      RunTasks(tasks);
    }

    /** The body of `runExecution` after `parseCode`: the synchronous loop,
        the phases, and the running flag cleared. */
    method RunTasks(tasks: ParsedTasks)
      modifies this
      ensures State() == RunOn(old(State()), tasks)
      ensures frames == TrailOn(old(frames), old(State()), tasks)
    {
      var timers, immediates, nextTicks, microTasks := RunSync(tasks);
      RunPhases(nextTicks, microTasks, timers, immediates);
      isRunning := false;
    }

    /** The flag setters of `handleReset`. */
    method ClearFlags()
      modifies this`isRunning, this`isPaused, this`currentPhase
      ensures State() == old(State()).(isRunning := false, isPaused := false, currentPhase := -1)
    {
      isRunning := false;
      isPaused := false;
      currentPhase := -1;
    }

    /** The log and call stack setters of `handleReset`. */
    method ClearLog()
      modifies this`logs, this`callStack
      ensures State() == old(State()).(logs := [], callStack := [])
    {
      logs := [];
      callStack := [];
    }

    /** The seven queue setters of `handleReset`. */
    method ClearQueues()
      modifies this`timersQueue, this`checkQueue, this`nextTickQueue, this`microTaskQueue
      modifies this`pendingQueue, this`pollQueue, this`closeQueue
      ensures State() == old(State()).(timersQueue := [], pendingQueue := [], pollQueue := [], checkQueue := [],
                                       closeQueue := [], nextTickQueue := [], microTaskQueue := [])
    {
      SetQueue(TimersQueue, []);
      SetQueue(CheckQueue, []);
      SetQueue(NextTickQueue, []);
      SetQueue(MicroTaskQueue, []);
      pendingQueue := [];
      pollQueue := [];
      closeQueue := [];
    }

    /** `handleReset`. */
    method HandleReset()
      modifies this
      ensures State() == AfterReset(old(State()))
      ensures frames == old(frames)
    {
      ClearFlags();
      ClearLog();
      ClearQueues();
    }

    /** `handleRun`: resume when paused; otherwise reset and run, recording
        the run's pauses. */
    method HandleRun()
      modifies this
      ensures State() == AfterHandleRun(old(State()))
      ensures frames == if old(isPaused) then old(frames)
                        else RunTrail(old(frames), AfterReset(old(State())).(isRunning := true))
    {
      if isPaused {
        isPaused := false;
        isRunning := true;
        return;
      }
      ghost var s0 := State();
      HandleReset();
      isRunning := true;
      assert State() == AfterReset(s0).(isRunning := true);
      RunExecution();
    }

    /** `handleExampleChange(k)`. */
    method HandleExampleChange(k: Examples.ExampleKey)
      modifies this
      ensures State() == AfterExampleChange(old(State()), k)
      ensures frames == old(frames)
    {
      HandleReset();
      selectedExample := k;
      code := Examples.ExampleOf(k).code;
    }

    /** The code editor's `onChange`: `setCode(text)`. */
    method SetCode(text: string)
      modifies this`code
      ensures State() == AfterEditCode(old(State()), text)
    {
      code := text;
    }
  }
}
