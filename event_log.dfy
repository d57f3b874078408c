/**
 * The log `runExecution` writes, as a function of the five parsed lists, and
 * the ordering properties of that log.
 */
module EventLog {
  import opened Classifier

  datatype LogType = Info | Queue | Output | Phase | Complete

  /** A log entry without its `Date.now()` timestamp. */
  datatype LogEntry = LogEntry(message: string, kind: LogType)

  /** The four displayed queues that the run fills and drains. */
  datatype QueueId = TimersQueue | CheckQueue | NextTickQueue | MicroTaskQueue

  /** The name an enqueue entry gives the queue. */
  function Target(id: QueueId): string {
    match id
    case TimersQueue => "Timers"
    case CheckQueue => "Check"
    case NextTickQueue => "nextTick"
    case MicroTaskQueue => "Microtask"
  }

  /** The fixed texts a run logs around its phases. The run's own texts are
      RunBanners; the lemmas below hold whatever the texts are. */
  datatype Banners = Banners(
    nextTick: string, microtask: string, timers: string, pending: string,
    poll: string, check: string, close: string, complete: string)

  const RunBanners := Banners(
    "--- Executing nextTick Queue ---",
    "--- Executing Microtask Queue ---",
    "--- Entering Timers Phase ---",
    "--- Pending I/O Phase (Empty) ---",
    "--- Poll Phase (Empty) ---",
    "--- Entering Check Phase ---",
    "--- Close Phase (Empty) ---",
    "--- Event Loop Complete ---")

  /** The text of the entry logged when `name` is pushed onto queue `id`. */
  function QueueMessage(name: string, id: QueueId): string {
    "Queue: " + name + " → " + Target(id)
  }

  function QueueTexts(q: seq<string>, id: QueueId): (r: seq<string>)
    ensures |r| == |q|
  {
    seq(|q|, i requires 0 <= i < |q| => QueueMessage(q[i], id))
  }

  /** One entry of the given kind per message, in order. */
  function Entries(ms: seq<string>, kind: LogType): (r: seq<LogEntry>)
    ensures |r| == |ms|
  {
    seq(|ms|, i requires 0 <= i < |ms| => LogEntry(ms[i], kind))
  }

  /** The messages a drain logs: `if (msg)` skips the empty string. */
  function NonEmpty(q: seq<string>): seq<string> {
    if q == [] then []
    else NonEmpty(q[..|q| - 1]) + (if q[|q| - 1] != "" then [q[|q| - 1]] else [])
  }

  /** The enqueue entries for one group. */
  function QueueLog(q: seq<string>, id: QueueId): seq<LogEntry> {
    Entries(QueueTexts(q, id), Queue)
  }

  /** The output entries of draining q to exhaustion. */
  function DrainLog(q: seq<string>): seq<LogEntry> {
    Entries(NonEmpty(q), Output)
  }

  /** A skippable phase: a header and a drain when its queue is non-empty, nothing otherwise. */
  function DrainPhase(header: string, q: seq<string>): seq<LogEntry> {
    if q == [] then [] else [LogEntry(header, Phase)] + DrainLog(q)
  }

  /** The single batch that follows the first synchronous output. */
  function EnqueueLog(t: ParsedTasks): seq<LogEntry> {
    QueueLog(t.timers, TimersQueue) + QueueLog(t.immediate, CheckQueue)
    + QueueLog(t.nextTick, NextTickQueue) + QueueLog(t.promises, MicroTaskQueue)
  }

  /** Everything after the synchronous code, given the four local queues. */
  function PhaseLog(b: Banners, nextTicks: seq<string>, microTasks: seq<string>,
                    timers: seq<string>, immediates: seq<string>): seq<LogEntry>
  {
    DrainPhase(b.nextTick, nextTicks)
    + DrainPhase(b.microtask, microTasks)
    + DrainPhase(b.timers, timers)
    + [LogEntry(b.pending, Phase)] + [LogEntry(b.poll, Phase)]
    + DrainPhase(b.check, immediates)
    + [LogEntry(b.close, Phase)] + [LogEntry(b.complete, Complete)]
  }

  /** What the loop over the synchronous labels logs: the first output, the
      enqueue batch, then the remaining outputs. */
  function SyncLog(t: ParsedTasks): seq<LogEntry> {
    if t.sync == [] then []
    else Entries([t.sync[0]], Output) + EnqueueLog(t) + Entries(t.sync[1..], Output)
  }

  /** The local queue of a group once the synchronous loop is over: the local
      queues are filled only while handling the first synchronous label, so
      with no synchronous label they stay empty. */
  function Drained(t: ParsedTasks, q: seq<string>): seq<string> {
    if t.sync == [] then [] else q
  }

  /** The complete log of one run with banner texts b. */
  function RunLog(b: Banners, t: ParsedTasks): seq<LogEntry> {
    SyncLog(t)
    + PhaseLog(b, Drained(t, t.nextTick), Drained(t, t.promises), Drained(t, t.timers), Drained(t, t.immediate))
  }

  /** The log `runExecution` appends for the parsed lists t. */
  function ExpectedLog(t: ParsedTasks): seq<LogEntry> {
    RunLog(RunBanners, t)
  }

  /** The messages of the entries of one kind, in log order. */
  function Messages(log: seq<LogEntry>, kind: LogType): seq<string> {
    if log == [] then []
    else (if log[0].kind == kind then [log[0].message] else []) + Messages(log[1..], kind)
  }

  /** The phase headers of a run, in order: one for each non-empty drained
      queue, and always Pending I/O, Poll and Close. */
  function PhaseHeaders(b: Banners, t: ParsedTasks): seq<string> {
    HeaderList(b, Drained(t, t.nextTick), Drained(t, t.promises), Drained(t, t.timers), Drained(t, t.immediate))
  }

  /** A header for each non-empty queue among the skippable phases, and the three fixed ones. */
  function HeaderList(b: Banners, nt: seq<string>, mt: seq<string>, tm: seq<string>, im: seq<string>): seq<string> {
    (if nt != [] then [b.nextTick] else []) + (if mt != [] then [b.microtask] else [])
    + (if tm != [] then [b.timers] else []) + [b.pending] + [b.poll]
    + (if im != [] then [b.check] else []) + [b.close]
  }

  predicate NoneOfKind(log: seq<LogEntry>, k: LogType) {
    forall i :: 0 <= i < |log| ==> log[i].kind != k
  }

  predicate AllOfKind(log: seq<LogEntry>, k: LogType) {
    forall i :: 0 <= i < |log| ==> log[i].kind == k
  }

  lemma {:induction false} MessagesAppend(a: seq<LogEntry>, b: seq<LogEntry>, kind: LogType)
    ensures Messages(a + b, kind) == Messages(a, kind) + Messages(b, kind)
  {
    if a == [] {
      assert a + b == b;
    } else {
      MessagesAppend(a[1..], b, kind);
      assert (a + b)[0] == a[0];
      assert (a + b)[1..] == a[1..] + b;
    }
  }

  lemma MessagesOne(e: LogEntry, kind: LogType)
    ensures Messages([e], kind) == if e.kind == kind then [e.message] else []
  {
    assert [e][1..] == [];
  }

  /** Entries of one kind hold exactly their messages for that kind and nothing for any other. */
  lemma {:induction false} EntriesMessages(ms: seq<string>, kind: LogType, k: LogType)
    ensures Messages(Entries(ms, kind), k) == if kind == k then ms else []
  {
    if ms != [] {
      EntriesMessages(ms[1..], kind, k);
      assert Entries(ms, kind)[1..] == Entries(ms[1..], kind);
      assert [ms[0]] + ms[1..] == ms;
    }
  }

  /** A log with no messages of a kind has no entry of that kind. */
  lemma {:induction false} NoMessagesNoEntry(log: seq<LogEntry>, k: LogType)
    requires Messages(log, k) == []
    ensures NoneOfKind(log, k)
  {
    if log != [] {
      NoMessagesNoEntry(log[1..], k);
      assert forall i :: 1 <= i < |log| ==> log[i] == log[1..][i - 1];
    }
  }

  /** A queue of non-empty labels is drained without skipping any. */
  lemma {:induction false} NonEmptyAll(q: seq<string>)
    requires forall i :: 0 <= i < |q| ==> q[i] != ""
    ensures NonEmpty(q) == q
  {
    if q != [] {
      NonEmptyAll(q[..|q| - 1]);
    }
  }

  /** The drain of a well-labelled queue outputs the queue. */
  lemma DrainPhaseOutputs(header: string, q: seq<string>)
    requires Labelled(q)
    ensures Messages(DrainPhase(header, q), Output) == q
  {
    if q != [] {
      NonEmptyAll(q);
      MessagesAppend([LogEntry(header, Phase)], DrainLog(q), Output);
      MessagesOne(LogEntry(header, Phase), Output);
      EntriesMessages(q, Output, Output);
    }
  }

  lemma DrainPhaseHeader(header: string, q: seq<string>)
    ensures Messages(DrainPhase(header, q), Phase) == if q == [] then [] else [header]
  {
    if q != [] {
      MessagesAppend([LogEntry(header, Phase)], DrainLog(q), Phase);
      MessagesOne(LogEntry(header, Phase), Phase);
      EntriesMessages(NonEmpty(q), Output, Phase);
    }
  }

  lemma DrainPhaseOther(header: string, q: seq<string>, k: LogType)
    requires k != Phase && k != Output
    ensures Messages(DrainPhase(header, q), k) == []
  {
    if q != [] {
      MessagesAppend([LogEntry(header, Phase)], DrainLog(q), k);
      MessagesOne(LogEntry(header, Phase), k);
      EntriesMessages(NonEmpty(q), Output, k);
    }
  }

  /** The enqueue batch holds only enqueue entries, one per label, timers first. */
  lemma EnqueueMessages(t: ParsedTasks, k: LogType)
    ensures Messages(EnqueueLog(t), k) == if k == Queue then
      QueueTexts(t.timers, TimersQueue) + QueueTexts(t.immediate, CheckQueue)
      + QueueTexts(t.nextTick, NextTickQueue) + QueueTexts(t.promises, MicroTaskQueue)
      else []
  {
    var a, b, c, d := QueueLog(t.timers, TimersQueue), QueueLog(t.immediate, CheckQueue),
                      QueueLog(t.nextTick, NextTickQueue), QueueLog(t.promises, MicroTaskQueue);
    MessagesAppend(a + b + c, d, k);
    MessagesAppend(a + b, c, k);
    MessagesAppend(a, b, k);
    EntriesMessages(QueueTexts(t.timers, TimersQueue), Queue, k);
    EntriesMessages(QueueTexts(t.immediate, CheckQueue), Queue, k);
    EntriesMessages(QueueTexts(t.nextTick, NextTickQueue), Queue, k);
    EntriesMessages(QueueTexts(t.promises, MicroTaskQueue), Queue, k);
  }

  /** Messages of a concatenation of eight pieces. */
  lemma MessagesAppend8(a: seq<LogEntry>, b: seq<LogEntry>, c: seq<LogEntry>, d: seq<LogEntry>,
                        e: seq<LogEntry>, f: seq<LogEntry>, g: seq<LogEntry>, h: seq<LogEntry>, k: LogType)
    ensures Messages(a + b + c + d + e + f + g + h, k) ==
      Messages(a, k) + Messages(b, k) + Messages(c, k) + Messages(d, k)
      + Messages(e, k) + Messages(f, k) + Messages(g, k) + Messages(h, k)
  {
    MessagesAppend(a + b + c + d + e + f + g, h, k);
    MessagesAppend(a + b + c + d + e + f, g, k);
    MessagesAppend(a + b + c + d + e, f, k);
    MessagesAppend(a + b + c + d, e, k);
    MessagesAppend(a + b + c, d, k);
    MessagesAppend(a + b, c, k);
    MessagesAppend(a, b, k);
  }

  /** The phase part of the log, piece by piece. */
  lemma PhaseLogSplit(b: Banners, nt: seq<string>, mt: seq<string>, tm: seq<string>, im: seq<string>, k: LogType)
    ensures Messages(PhaseLog(b, nt, mt, tm, im), k) ==
      Messages(DrainPhase(b.nextTick, nt), k) + Messages(DrainPhase(b.microtask, mt), k)
      + Messages(DrainPhase(b.timers, tm), k)
      + Messages([LogEntry(b.pending, Phase)], k) + Messages([LogEntry(b.poll, Phase)], k)
      + Messages(DrainPhase(b.check, im), k)
      + Messages([LogEntry(b.close, Phase)], k) + Messages([LogEntry(b.complete, Complete)], k)
  {
    MessagesAppend8(DrainPhase(b.nextTick, nt), DrainPhase(b.microtask, mt), DrainPhase(b.timers, tm),
                    [LogEntry(b.pending, Phase)], [LogEntry(b.poll, Phase)], DrainPhase(b.check, im),
                    [LogEntry(b.close, Phase)], [LogEntry(b.complete, Complete)], k);
  }

  /** The outputs of the phase part: the four drained queues in drain order. */
  lemma PhaseLogOutputs(b: Banners, nt: seq<string>, mt: seq<string>, tm: seq<string>, im: seq<string>)
    requires Labelled(nt) && Labelled(mt) && Labelled(tm) && Labelled(im)
    ensures Messages(PhaseLog(b, nt, mt, tm, im), Output) == nt + mt + tm + im
  {
    PhaseLogSplit(b, nt, mt, tm, im, Output);
    DrainPhaseOutputs(b.nextTick, nt);
    DrainPhaseOutputs(b.microtask, mt);
    DrainPhaseOutputs(b.timers, tm);
    DrainPhaseOutputs(b.check, im);
    MessagesOne(LogEntry(b.pending, Phase), Output);
    MessagesOne(LogEntry(b.poll, Phase), Output);
    MessagesOne(LogEntry(b.close, Phase), Output);
    MessagesOne(LogEntry(b.complete, Complete), Output);
  }

  /** The phase headers of the phase part. */
  lemma PhaseLogPhases(b: Banners, nt: seq<string>, mt: seq<string>, tm: seq<string>, im: seq<string>)
    ensures Messages(PhaseLog(b, nt, mt, tm, im), Phase) == HeaderList(b, nt, mt, tm, im)
  {
    PhaseLogSplit(b, nt, mt, tm, im, Phase);
    DrainPhaseHeader(b.nextTick, nt);
    DrainPhaseHeader(b.microtask, mt);
    DrainPhaseHeader(b.timers, tm);
    DrainPhaseHeader(b.check, im);
    MessagesOne(LogEntry(b.pending, Phase), Phase);
    MessagesOne(LogEntry(b.poll, Phase), Phase);
    MessagesOne(LogEntry(b.close, Phase), Phase);
    MessagesOne(LogEntry(b.complete, Complete), Phase);
  }

  /** The phase part holds one completion entry and no enqueue or info entries. */
  lemma PhaseLogRest(b: Banners, nt: seq<string>, mt: seq<string>, tm: seq<string>, im: seq<string>, k: LogType)
    requires k == Queue || k == Info || k == Complete
    ensures Messages(PhaseLog(b, nt, mt, tm, im), k) == if k == Complete then [b.complete] else []
  {
    PhaseLogSplit(b, nt, mt, tm, im, k);
    DrainPhaseOther(b.nextTick, nt, k);
    DrainPhaseOther(b.microtask, mt, k);
    DrainPhaseOther(b.timers, tm, k);
    DrainPhaseOther(b.check, im, k);
    MessagesOne(LogEntry(b.pending, Phase), k);
    MessagesOne(LogEntry(b.poll, Phase), k);
    MessagesOne(LogEntry(b.close, Phase), k);
    MessagesOne(LogEntry(b.complete, Complete), k);
  }

  /** A run's log: the synchronous part, then the phase part. */
  lemma RunSplit(b: Banners, t: ParsedTasks, k: LogType)
    ensures Messages(RunLog(b, t), k) == Messages(SyncLog(t), k)
      + Messages(PhaseLog(b, Drained(t, t.nextTick), Drained(t, t.promises),
                         Drained(t, t.timers), Drained(t, t.immediate)), k)
  {
    MessagesAppend(SyncLog(t), PhaseLog(b, Drained(t, t.nextTick), Drained(t, t.promises),
                                        Drained(t, t.timers), Drained(t, t.immediate)), k);
  }

  /** The synchronous part: every synchronous label as an output, and the
      enqueue batch; nothing else, and nothing at all without a synchronous label. */
  lemma SyncMessages(t: ParsedTasks, k: LogType)
    ensures Messages(SyncLog(t), k) ==
      if t.sync == [] then []
      else if k == Output then t.sync
      else if k == Queue then
        QueueTexts(t.timers, TimersQueue) + QueueTexts(t.immediate, CheckQueue)
        + QueueTexts(t.nextTick, NextTickQueue) + QueueTexts(t.promises, MicroTaskQueue)
      else []
  {
    if t.sync != [] {
      var p, q, r := Entries([t.sync[0]], Output), EnqueueLog(t), Entries(t.sync[1..], Output);
      assert Messages(SyncLog(t), k) == Messages(p, k) + Messages(q, k) + Messages(r, k) by {
        MessagesAppend(p + q, r, k);
        MessagesAppend(p, q, k);
      }
      EntriesMessages([t.sync[0]], Output, k);
      EntriesMessages(t.sync[1..], Output, k);
      EnqueueMessages(t, k);
      if k == Output {
        assert [t.sync[0]] + [] + t.sync[1..] == t.sync;
      }
    }
  }

  /** Appending to the log in two steps or in one. */
  lemma LogAssoc(a: seq<LogEntry>, b: seq<LogEntry>, c: seq<LogEntry>)
    ensures a + b + c == a + (b + c)
  {
  }

  /** Entries of a concatenation. */
  lemma EntriesAppend(x: seq<string>, y: seq<string>, kind: LogType)
    ensures Entries(x + y, kind) == Entries(x, kind) + Entries(y, kind)
  {
  }

  /** One more enqueue entry. */
  lemma QueueLogSnoc(q: seq<string>, k: nat, id: QueueId)
    requires k < |q|
    ensures QueueLog(q[..k + 1], id) == QueueLog(q[..k], id) + [LogEntry(QueueMessage(q[k], id), Queue)]
  {
  }

  /** One more drained label: logged unless it is the empty string. */
  lemma DrainLogSnoc(q: seq<string>, k: nat)
    requires k < |q|
    ensures DrainLog(q[..k + 1]) == DrainLog(q[..k]) + (if q[k] != "" then [LogEntry(q[k], Output)] else [])
  {
    assert q[..k + 1][..k] == q[..k];
    EntriesAppend(NonEmpty(q[..k]), if q[k] != "" then [q[k]] else [], Output);
  }

  /** Regrouping a five-fold concatenation. */
  lemma Regroup<T>(s: seq<T>, v: seq<T>, w: seq<T>, x: seq<T>, y: seq<T>)
    ensures s + (v + w + x + y) == s + v + w + x + y
  {
  }

  /** The output order of a run: all synchronous labels, then every nextTick
      label, then every promise label, then the timers, then the immediates,
      each group in source order. With no synchronous label nothing is output. */
  lemma OutputOrder(b: Banners, t: ParsedTasks)
    requires WellLabelled(t)
    ensures Messages(RunLog(b, t), Output) ==
      if t.sync == [] then [] else t.sync + t.nextTick + t.promises + t.timers + t.immediate
  {
    RunSplit(b, t, Output);
    SyncMessages(t, Output);
    PhaseLogOutputs(b, Drained(t, t.nextTick), Drained(t, t.promises), Drained(t, t.timers), Drained(t, t.immediate));
    if t.sync != [] {
      Regroup(t.sync, t.nextTick, t.promises, t.timers, t.immediate);
    }
  }

  /** The enqueue entries of a run: one per label, timers first, then
      immediates, nextTick labels and promise labels; none without a
      synchronous label. */
  lemma QueueEntries(b: Banners, t: ParsedTasks)
    ensures Messages(RunLog(b, t), Queue) ==
      if t.sync == [] then []
      else QueueTexts(t.timers, TimersQueue) + QueueTexts(t.immediate, CheckQueue)
           + QueueTexts(t.nextTick, NextTickQueue) + QueueTexts(t.promises, MicroTaskQueue)
  {
    RunSplit(b, t, Queue);
    SyncMessages(t, Queue);
    PhaseLogRest(b, Drained(t, t.nextTick), Drained(t, t.promises), Drained(t, t.timers), Drained(t, t.immediate), Queue);
  }

  /** Phase entries: Pending I/O, Poll and Close always, nextTick, Microtask,
      Timers and Check exactly when their queue was filled, in that fixed
      order, each once; there are no exit entries. */
  lemma PhaseEntries(b: Banners, t: ParsedTasks)
    ensures Messages(RunLog(b, t), Phase) == PhaseHeaders(b, t)
  {
    RunSplit(b, t, Phase);
    SyncMessages(t, Phase);
    PhaseLogPhases(b, Drained(t, t.nextTick), Drained(t, t.promises), Drained(t, t.timers), Drained(t, t.immediate));
  }

  /** The log ends with its only completion entry and holds no info entries. */
  lemma Completion(b: Banners, t: ParsedTasks)
    ensures Messages(RunLog(b, t), Complete) == [b.complete]
    ensures Messages(RunLog(b, t), Info) == []
    ensures var log := RunLog(b, t);
      |log| > 0 && log[|log| - 1] == LogEntry(b.complete, Complete)
  {
    var nt, mt, tm, im := Drained(t, t.nextTick), Drained(t, t.promises), Drained(t, t.timers), Drained(t, t.immediate);
    assert Messages(RunLog(b, t), Complete) == [b.complete] by {
      RunSplit(b, t, Complete);
      SyncMessages(t, Complete);
      PhaseLogRest(b, nt, mt, tm, im, Complete);
    }
    assert Messages(RunLog(b, t), Info) == [] by {
      RunSplit(b, t, Info);
      SyncMessages(t, Info);
      PhaseLogRest(b, nt, mt, tm, im, Info);
    }
  }

  /** With no synchronous label the log is exactly Pending I/O, Poll, Close, complete. */
  lemma NoSyncLog(t: ParsedTasks)
    requires t.sync == []
    ensures ExpectedLog(t) == [LogEntry(RunBanners.pending, Phase), LogEntry(RunBanners.poll, Phase),
                               LogEntry(RunBanners.close, Phase), LogEntry(RunBanners.complete, Complete)]
  {
  }

  /** Entries of kind k in a + b + c + d are exactly the positions of b,
      when b holds only such entries and the other pieces none. */
  lemma KindBlock(a: seq<LogEntry>, b: seq<LogEntry>, c: seq<LogEntry>, d: seq<LogEntry>, k: LogType)
    requires NoneOfKind(a, k) && AllOfKind(b, k) && NoneOfKind(c, k) && NoneOfKind(d, k)
    ensures forall i :: 0 <= i < |a + b + c + d| ==>
      ((a + b + c + d)[i].kind == k <==> |a| <= i < |a| + |b|)
  {
    var log := a + b + c + d;
    forall i | 0 <= i < |log| ensures log[i].kind == k <==> |a| <= i < |a| + |b| {
      if i < |a| {
        assert log[i] == a[i];
      } else if i < |a| + |b| {
        assert log[i] == b[i - |a|];
      } else if i < |a| + |b| + |c| {
        assert log[i] == c[i - |a| - |b|];
      } else {
        assert log[i] == d[i - |a| - |b| - |c|];
      }
    }
  }

  lemma EntriesKind(ms: seq<string>, kind: LogType)
    ensures AllOfKind(Entries(ms, kind), kind)
    ensures forall k :: k != kind ==> NoneOfKind(Entries(ms, kind), k)
  {
  }

  lemma EnqueueKind(t: ParsedTasks)
    ensures AllOfKind(EnqueueLog(t), Queue)
  {
    var a, b, c, d := QueueLog(t.timers, TimersQueue), QueueLog(t.immediate, CheckQueue),
                      QueueLog(t.nextTick, NextTickQueue), QueueLog(t.promises, MicroTaskQueue);
    var log := a + b + c + d;
    forall i | 0 <= i < |log| ensures log[i].kind == Queue {
      if i < |a| {
        assert log[i] == a[i];
      } else if i < |a| + |b| {
        assert log[i] == b[i - |a|];
      } else if i < |a| + |b| + |c| {
        assert log[i] == c[i - |a| - |b|];
      } else {
        assert log[i] == d[i - |a| - |b| - |c|];
      }
    }
  }

  /** The enqueue batch is one contiguous block right after the first
      synchronous output and before the second: entries 1..n are the enqueue
      entries (n labels in all), and no other entry is one. */
  lemma EnqueueBatch(b: Banners, t: ParsedTasks)
    requires t.sync != []
    ensures var log := RunLog(b, t);
      var n := |t.timers| + |t.immediate| + |t.nextTick| + |t.promises|;
      && |log| > n
      && log[0] == LogEntry(t.sync[0], Output)
      && (forall i :: 0 <= i < |log| ==> (log[i].kind == Queue <==> 1 <= i <= n))
      && (|t.sync| > 1 ==> log[n + 1] == LogEntry(t.sync[1], Output))
  {
    var p, q := Entries([t.sync[0]], Output), EnqueueLog(t);
    var r, s := Entries(t.sync[1..], Output), PhaseLog(b, t.nextTick, t.promises, t.timers, t.immediate);
    assert RunLog(b, t) == p + q + r + s;
    EntriesKind([t.sync[0]], Output);
    EnqueueKind(t);
    EntriesKind(t.sync[1..], Output);
    PhaseLogRest(b, t.nextTick, t.promises, t.timers, t.immediate, Queue);
    NoMessagesNoEntry(s, Queue);
    KindBlock(p, q, r, s, Queue);
    assert (p + q + r + s)[0] == p[0];
    if |t.sync| > 1 {
      assert (p + q + r + s)[|p| + |q|] == r[0];
    }
  }
}
