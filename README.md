# Node.js event loop visualizer: a Dafny model of its scheduling core

The visualizer is a React component. It reads a small JavaScript program from
a text area and sorts its lines into five groups by a line-pattern matcher
(`parseCode`):

- synchronous `console.log` calls;
- `setTimeout` callbacks;
- `setImmediate` callbacks;
- `process.nextTick` callbacks;
- `Promise.resolve()` callbacks.

Then `runExecution` replays the groups in Node.js event-loop order: the
synchronous code, the nextTick queue, the microtask queue, then the libuv
phases Timers, Pending I/O, Poll, Check and Close. While it does this it
writes an event log and updates the displayed queues, the call stack and
the highlighted phase.

The model has six modules, one per file:

| file | module | what it holds |
|---|---|---|
| `text.dfy` | `Text` | The JavaScript string operations the matcher uses: `trim` (the full ECMAScript whitespace set), `split('\n')`, `startsWith` and `includes`. Each has a reference characterisation. |
| `label.dfy` | `Label` | The label regex `console\.log\(['"](.+?)['"]\)` with JavaScript semantics: the leftmost match wins, the lazy `.+?` is shortest-first, and `.` excludes line terminators. Proved equal to a declarative "leftmost-shortest match" definition. |
| `classifier.dfy` | `Classifier` | The `parseCode` marker chain for one line (`ClassifyLine`) and the whole-program result `ParseText`, with their properties. |
| `event_log.dfy` | `EventLog` | Log entries. `ExpectedLog` is the exact log a run writes for given parsed lists. Lemmas cover the output order, the enqueue entries, the phase headers and the completion entry. |
| `examples.dfy` | `Examples` | The six built-in example programs and the five phase cards (`phases`), as constant data. |
| `visualizer.dfy` | `Visualizer` | The component as a class `Component` whose fields are its state hooks. Each handler is a method proved against a pure transition on `VisState`, and lemmas about those transitions give the properties of whole runs and whole user sessions. |

The hook setters become field assignments on `Component`. `runExecution`'s
local arrays (`timers`, `immediates`, `nextTicks`, `microTasks`) become
local sequences, filled by `push` loops and drained by `shift` loops. Each
loop carries an invariant tying the object state to a pure function of the
loop index (`Filling`, `Draining`, `SyncUpTo`).

Each `await sleep(...)` is a point where React renders the component. The
ghost field `frames` of `Component` records the state shown at each of these
pauses, and each method states what it appends there (`LabelTrail`,
`PushTrail`, `ShiftTrail`, `DrainTrail`, `PassTrail`, `CloseTrail`,
`TrailOn`). Lemmas about these trails state what a user sees during a run:
the highlighted phase at every pause (`RunCodes`), the call stack and the
untouched hooks at every pause (`RunFramesCalm`), and the queue view during
a drain (`DrainTrailShows`): at every pause after the phase header, the
outputs logged so far followed by the displayed queue are the outputs before
the phase followed by the whole local queue, except at the pause between a
`shift` and its log entry, where the label just taken off is in neither and
sits between the two.

Behaviour of the code that the model follows, and that a reader who knows
Node.js might not expect:

- **No phase-exit entries.** A phase logs one header entry and no exit
  entry; "leaving" a phase only sets `currentPhase` back to `-1`. An empty
  program therefore logs exactly Pending I/O, Poll, Close and the completion
  entry, four entries in all (`EventLog.NoSyncLog`).
- **Queues fill only on the first synchronous label.** The local queues are
  filled while handling the first synchronous label (`i === 0`). A program
  without a synchronous label outputs nothing and enqueues nothing, even if
  it has `setTimeout` lines.
- **An empty label is never logged.** The drains test `if (msg)`, so an
  empty label would not be logged; labels are proved never to be empty.
- **The microtask drain highlights nothing.** It sets `currentPhase` to `-1`
  (the "no phase" value); the nextTick drain uses `-2`.
- **`isPaused` is never set to true**, so the resume branch of `handleRun` is
  unreachable (`Visualizer.AlwaysQuiescent`).
- **`handleReset` does not stop a run in progress**, and `handleRun` does not
  refuse to start while a run is active. The Reset button is always
  enabled. The Run button, the example buttons, the editor and the speed
  slider are disabled while `isRunning` holds, but a reset during a run sets
  `isRunning` to false, after which a second run can start beside the first.
- **Labels are taken only from the marker's own line.** In the built-in
  examples the callback's `console.log` sits on its own indented line. The
  trimmed line then starts with `console.log`, so those labels are
  classified as synchronous, and the marker line itself (with no label)
  contributes nothing. `Classifier.MarkerPrecedence` states this rule.

## Model

| member | source | states |
|---|---|---|
| Text.Trim | components/NodeJsEventLoopVisualizer.tsx:227 | `line.trim()` is a slice of the line with only whitespace before and after it, and neither end of the result is whitespace |
| Text.IncludesIff | components/NodeJsEventLoopVisualizer.tsx:234 | `includes(sub)` holds exactly when `sub` occurs at some position of the string |
| Text.Split | components/NodeJsEventLoopVisualizer.tsx:224 | `split('\n')` returns at least one piece, and no piece holds a newline |
| Text.JoinSplit | components/NodeJsEventLoopVisualizer.tsx:224 | joining the pieces of a split with newlines gives the program text back: no character is lost |
| Text.SplitJoin | components/NodeJsEventLoopVisualizer.tsx:224 | splitting newline-free lines joined by newlines gives back exactly those lines |
| Label.ScanLabelSpec | components/NodeJsEventLoopVisualizer.tsx:230 | the lazy `.+?` scan stops at the nearest closing quote-and-paren reachable without crossing a line terminator, and fails exactly when there is none |
| Label.MatchAtSpec | components/NodeJsEventLoopVisualizer.tsx:230 | a match attempt at one start position finds the shortest label there, and fails exactly when no label fits at that position |
| Label.FirstMatchFromSpec | components/NodeJsEventLoopVisualizer.tsx:230 | trying start positions left to right finds the leftmost match with its shortest label, and fails only if no position matches |
| Label.MatchLabelSpec | components/NodeJsEventLoopVisualizer.tsx:229-253 | `match(...)` is null exactly when the pattern matches nowhere; otherwise `match[1]` is the label of the leftmost-shortest match |
| Label.MatchLabelShape | components/NodeJsEventLoopVisualizer.tsx:230 | a captured label is non-empty and holds no line terminator |
| Classifier.MarkerPrecedence | components/NodeJsEventLoopVisualizer.tsx:229-254 | per group, an if-and-only-if: a line goes to `sync` exactly when its trimmed text starts with `console.log` and the regex matches the trimmed text; otherwise the first marker found in the trimmed text decides, with the label matched on the untrimmed line; a failed match drops the line |
| Classifier.ClassifyAppend | components/NodeJsEventLoopVisualizer.tsx:226-255 | classifying two blocks of lines in sequence gives, in every group, the labels of the first block followed by those of the second: source order is kept |
| Classifier.ClassifySize | components/NodeJsEventLoopVisualizer.tsx:226-255 | each line contributes at most one label to at most one group, so the groups together are no longer than the line count |
| Classifier.ClassifyOne | components/NodeJsEventLoopVisualizer.tsx:226-255 | a single line yields its own contribution only; the label count is 1 or 0 |
| Classifier.ClassifySnoc | components/NodeJsEventLoopVisualizer.tsx:226-255 | classifying one more line pushes that line's contribution onto the lists built so far |
| Classifier.ClassifyLabels | components/NodeJsEventLoopVisualizer.tsx:229-254 | every label of every group is non-empty and holds no line terminator |
| EventLog.NonEmptyAll | components/NodeJsEventLoopVisualizer.tsx:321-323 | the `if (msg)` test skips no label of a queue whose labels are all non-empty |
| EventLog.DrainPhaseOutputs | components/NodeJsEventLoopVisualizer.tsx:312-329 | a drain of a well-labelled queue outputs the queue's labels in FIFO order |
| EventLog.DrainPhaseHeader | components/NodeJsEventLoopVisualizer.tsx:312-329 | a drain logs its phase header exactly when its queue is non-empty, and only once |
| EventLog.EnqueueMessages | components/NodeJsEventLoopVisualizer.tsx:277-304 | the enqueue batch holds only enqueue entries, one `Queue: <label> → <target>` per label: timers, then immediates, nextTick and promise labels |
| EventLog.PhaseLogOutputs | components/NodeJsEventLoopVisualizer.tsx:312-398 | the phases output the nextTick, microtask, timer and immediate queues, in this order |
| EventLog.PhaseLogPhases | components/NodeJsEventLoopVisualizer.tsx:312-401 | phase headers: one per non-empty skippable queue, plus Pending I/O, Poll and Close always, in libuv order |
| EventLog.OutputOrder | components/NodeJsEventLoopVisualizer.tsx:262-407 | the outputs of a run are all synchronous labels, then all nextTick, promise, timer and immediate labels, each group in source order; nothing is output without a synchronous label |
| EventLog.QueueEntries | components/NodeJsEventLoopVisualizer.tsx:277-304 | a run logs one enqueue entry per deferred label (timers, immediates, nextTick, promises order), and none without a synchronous label |
| EventLog.PhaseEntries | components/NodeJsEventLoopVisualizer.tsx:312-401 | the phase entries of a run: nextTick, Microtask, Timers and Check exactly when that queue was filled, Pending I/O, Poll and Close always, each once, in fixed order, and no exit entries |
| EventLog.Completion | components/NodeJsEventLoopVisualizer.tsx:405 | a run's log holds exactly one completion entry, which is its last entry, and no info entries |
| EventLog.EnqueueBatch | components/NodeJsEventLoopVisualizer.tsx:269-307 | the enqueue entries form one contiguous block right after the first synchronous output and before the second |
| EventLog.NoSyncLog | components/NodeJsEventLoopVisualizer.tsx:269-405 | with no synchronous label the log is exactly Pending I/O, Poll, Close and the completion entry |
| Examples.KeysDistinct | components/NodeJsEventLoopVisualizer.tsx:38-174 | every example key is listed once in button order, and distinct keys have distinct `selectedExample` strings |
| Visualizer.RunOutcome | components/NodeJsEventLoopVisualizer.tsx:262-407 | a run on parsed lists t appends exactly ExpectedLog(t) to the log; the call stack is left empty after any synchronous label and kept otherwise; no phase is highlighted; the run flag is off; the paused flag, the code, the example and the Pending I/O, Poll and Close queues are unchanged |
| Visualizer.RunQueues | components/NodeJsEventLoopVisualizer.tsx:277-398 | after a run, a displayed queue whose group was enqueued and drained (there was a synchronous label and the group is non-empty) is empty, and any other keeps its old display |
| Visualizer.ResetClears | components/NodeJsEventLoopVisualizer.tsx:421-434 | reset empties the log, call stack and all seven queues, clears the flags and the highlight, keeps the code and example; resetting twice is resetting once |
| Visualizer.HandleRunOutcome | components/NodeJsEventLoopVisualizer.tsx:409-419 | the Run button (not paused) leaves exactly this run's ExpectedLog, every queue and the call stack empty, nothing running |
| Visualizer.HandleRunLog | components/NodeJsEventLoopVisualizer.tsx:409-419 | the log after the Run button has the outputs in event-loop order, one enqueue entry per deferred label, the run's phase headers, and one completion entry, last |
| Visualizer.StepQuiescent | components/NodeJsEventLoopVisualizer.tsx:409-440 | Run, Reset, an example choice or an edit, each run to completion, keeps the between-actions invariant: idle, and the log empty or exactly ExpectedLog of one parsed program |
| Visualizer.QuiescentLog | components/NodeJsEventLoopVisualizer.tsx:405 | between actions a non-empty log holds exactly one completion entry, and it is the last entry |
| Visualizer.QuiescentExec | components/NodeJsEventLoopVisualizer.tsx:409-440 | the between-actions invariant holds after any sequence of user actions each of which finishes before the next starts |
| Visualizer.AlwaysQuiescent | components/NodeJsEventLoopVisualizer.tsx:23-36 | from the initial hooks, for any sequence of user actions each of which finishes before the next starts, `isPaused` stays false, the Pending I/O, Poll and Close queues stay empty, and the log is empty or exactly the log of one run |
| Visualizer.RunFramesCalm | components/NodeJsEventLoopVisualizer.tsx:262-407 | every state shown at a pause of a run on t keeps the run and paused flags, the code, the example and the Pending I/O, Poll and Close queues of the state before it, and shows on the call stack the old call stack, nothing, or exactly one synchronous label of t |
| Visualizer.HandleRunFrames | components/NodeJsEventLoopVisualizer.tsx:409-419 | at every pause of a run started by the Run button the component is running and not paused, the call stack is empty or holds exactly one synchronous label of the program, the Pending I/O, Poll and Close queues are empty, and the code and example are unchanged |
| Visualizer.RunCodes | components/NodeJsEventLoopVisualizer.tsx:269-403 | the highlight at the pauses of a run, in order: the old highlight through the synchronous loop and the pause after it; `-2` for the nextTick header and each of its 2n `shift` pauses, then `-1`; the same with `-1` for microtasks and `0` for Timers; `1, -1` for Pending I/O; `2, -1` for Poll; the Check drain with `3`; `4` for Close; a skippable phase appears only when its local queue was filled |
| Visualizer.SyncCodes | components/NodeJsEventLoopVisualizer.tsx:269-310 | the synchronous loop and the pause after it never change the highlight: every one of their pauses shows the old code |
| Visualizer.SyncTrailCodes | components/NodeJsEventLoopVisualizer.tsx:269-307 | after i synchronous labels the loop has paused SyncPauses(t, i) times, always showing the old highlight |
| Visualizer.BatchTrailCodes | components/NodeJsEventLoopVisualizer.tsx:277-306 | the enqueue batch pauses once per enqueued label and once after the batch, without changing the highlight |
| Visualizer.PushTrailCodes | components/NodeJsEventLoopVisualizer.tsx:278-283 | n pushes of an enqueue loop make n pauses, each with the old highlight |
| Visualizer.PhaseTrailCodes | components/NodeJsEventLoopVisualizer.tsx:312-403 | the pauses of the phases show, in order, the nextTick, microtask and Timers drains, `1, -1`, `2, -1`, the Check drain and `4` |
| Visualizer.DrainTrailCodes | components/NodeJsEventLoopVisualizer.tsx:312-329 | a skippable phase with n labels shows its phase code at its header pause and at each of its 2n `shift` pauses, then `-1`; with no label it shows nothing |
| Visualizer.ShiftTrailCodes | components/NodeJsEventLoopVisualizer.tsx:317-325 | n `shift`s make 2n pauses that keep the highlight |
| Visualizer.DrainTrailShows | components/NodeJsEventLoopVisualizer.tsx:312-398 | at every pause of a skippable phase after its header, the outputs logged so far followed by the displayed queue are the outputs before the phase followed by the whole local queue; between a `shift` and its log entry the label just taken sits between the two |
| Visualizer.ShiftTrailShows | components/NodeJsEventLoopVisualizer.tsx:317-325 | the same view at each of the 2n pauses of n `shift`s |
| Visualizer.DrainShows | components/NodeJsEventLoopVisualizer.tsx:317-325 | the two pauses of the k-th `shift`: the label in hand between the outputs and what is left, then logged |
| Visualizer.EnteredShows | components/NodeJsEventLoopVisualizer.tsx:312-329 | a phase header adds no output, and a whole drain ends with every label of the local queue output and the display empty |
| Visualizer.SyncTrailFrames | components/NodeJsEventLoopVisualizer.tsx:269-307 | every pause of the synchronous loop keeps the flags, code, example and never-filled queues, and shows the old call stack, nothing, or one synchronous label |
| Visualizer.BatchTrailFrames | components/NodeJsEventLoopVisualizer.tsx:277-306 | every pause of the enqueue batch keeps the flags, code, example, never-filled queues and call stack |
| Visualizer.PhaseTrailFrames | components/NodeJsEventLoopVisualizer.tsx:312-403 | every pause of the phases keeps the flags, code, example, never-filled queues and call stack |
| Visualizer.DrainTrailFrames | components/NodeJsEventLoopVisualizer.tsx:312-329 | every pause of a skippable phase keeps the flags, code, example, never-filled queues and call stack |
| Visualizer.Component.ShiftAll | components/NodeJsEventLoopVisualizer.tsx:317-325 | the drain loop shifts every label off the local queue, leaving the display empty when there was one and every label output, and records two pauses per `shift` |
| Visualizer.Component.ClosePhase | components/NodeJsEventLoopVisualizer.tsx:400-405 | the Close phase highlights `4`, logs its header, pauses, clears the highlight and logs the completion entry |
| Visualizer.Component.RunTasks | components/NodeJsEventLoopVisualizer.tsx:269-406 | given the parsed lists t, the rest of `runExecution` reaches RunOn(t) and records TrailOn(t) |
| Visualizer.Component.constructor | components/NodeJsEventLoopVisualizer.tsx:23-36 | the hooks start idle with empty queues and log, phase `-1`, and the basic example selected and loaded; no pause is recorded yet |
| Visualizer.Component.AddLog | components/NodeJsEventLoopVisualizer.tsx:211-213 | appends one entry to the log and changes nothing else |
| Visualizer.Component.SetQueue | components/NodeJsEventLoopVisualizer.tsx:280 | replaces one displayed queue and changes nothing else |
| Visualizer.Component.ParseCode | components/NodeJsEventLoopVisualizer.tsx:215-258 | the loop over the lines returns ParseText of the current code |
| Visualizer.Component.ParseLine | components/NodeJsEventLoopVisualizer.tsx:226-255 | the per-line callback pushes exactly ClassifyLine's contribution |
| Visualizer.Component.Enqueue | components/NodeJsEventLoopVisualizer.tsx:278-283 | one push loop returns the group as the local queue, shows the whole group (or leaves the display alone when the group is empty), logs one enqueue entry per label, and pauses after each push |
| Visualizer.Component.PushLabel | components/NodeJsEventLoopVisualizer.tsx:279-282 | one push shows the first k + 1 labels, logs the push and pauses with that state |
| Visualizer.Component.EnqueueAll | components/NodeJsEventLoopVisualizer.tsx:277-306 | the enqueue batch fills the four local queues with the four groups, appends EnqueueLog and records BatchTrail: one pause per push and one after the batch |
| Visualizer.Component.RunSyncLabel | components/NodeJsEventLoopVisualizer.tsx:270-275 | one synchronous label: the first pause shows `[msg]` on the call stack with the log unchanged; then msg is output and the second pause shows the call stack empty |
| Visualizer.Component.RunSync | components/NodeJsEventLoopVisualizer.tsx:269-310 | the synchronous loop returns the groups as local queues (empty when there is no synchronous label), reaches AfterSync and records SyncTrail and the pause after the loop |
| Visualizer.Component.Shift | components/NodeJsEventLoopVisualizer.tsx:317-325 | one `shift` takes the next label, pauses showing what is left, and logs the label taken unless it is empty |
| Visualizer.Component.Drain | components/NodeJsEventLoopVisualizer.tsx:312-329 | a skippable phase with a non-empty local queue highlights its phase code, logs its header and outputs every label, then clears the highlight and ends with the display empty; its pauses are the header, two per `shift` and the cleared highlight; with an empty local queue nothing changes and there is no pause |
| Visualizer.Component.PassPhase | components/NodeJsEventLoopVisualizer.tsx:369-379 | an empty phase highlights its code and logs its header, pauses, clears the highlight and pauses again |
| Visualizer.Component.RunPhases | components/NodeJsEventLoopVisualizer.tsx:310-405 | the phases and the completion entry append PhaseLog of the four local queues, reach AfterPhases, and record PhaseTrail, whose highlight codes PhaseTrailCodes gives |
| Visualizer.Component.RunExecution | components/NodeJsEventLoopVisualizer.tsx:262-407 | a whole run on the current code reaches AfterRun of the old state, whose properties RunOutcome and RunQueues state, and records RunTrail, whose pauses RunCodes and RunFramesCalm describe |
| Visualizer.Component.ClearFlags | components/NodeJsEventLoopVisualizer.tsx:422-433 | clears the running and paused flags and the highlight |
| Visualizer.Component.ClearLog | components/NodeJsEventLoopVisualizer.tsx:424-425 | empties the log and the call stack |
| Visualizer.Component.ClearQueues | components/NodeJsEventLoopVisualizer.tsx:426-432 | empties the seven displayed queues |
| Visualizer.Component.HandleReset | components/NodeJsEventLoopVisualizer.tsx:421-434 | reaches AfterReset, whose properties ResetClears states |
| Visualizer.Component.HandleRun | components/NodeJsEventLoopVisualizer.tsx:409-419 | resumes when paused, recording no pause; otherwise resets, sets the run flag and runs: reaches AfterHandleRun and records the run's pauses |
| Visualizer.Component.HandleExampleChange | components/NodeJsEventLoopVisualizer.tsx:436-440 | resets, selects the example and loads its program |
| Visualizer.Component.SetCode | components/NodeJsEventLoopVisualizer.tsx:482 | the editor replaces the code and nothing else |

## Left out

- Visualizer.AlwaysQuiescent, Visualizer.QuiescentExec: hold for sequences of user actions each of which finishes before the next starts. In the source the Reset button is never disabled and a reset clears `isRunning`, which enables Run again, while the first run goes on; these lemmas say nothing about such overlapping runs.
- Strings are sequences of Dafny `char`, which are Unicode scalar values, not JavaScript's UTF-16 code units. A character outside the Basic Multilingual Plane is one `char` here and two units in the source, and a lone surrogate cannot be represented. No modelled operation depends on the difference: every marker, delimiter and whitespace character the matcher tests for lies in the Basic Multilingual Plane.
- The pacing: `sleep`, the `speed` hook and its slider. The delays are not modelled; each `await sleep(...)` is only a pause recorded in `frames`.
- The `Date.now()` timestamps of log entries. They are clock readings and do not affect the order.
- Interleaving of the asynchronous run with user actions. `HandleRun` runs to completion, so a reset, an edit or an example change while a run is in progress is not modelled. In the source this is possible through the Reset button, and the unfinished run then keeps appending to the cleared log.
- The JSX rendering: the panels, phase-card highlighting and `disabled` attributes. User actions are modelled as possible at any time.
- `addLog`'s default `'info'` type. Every call passes a type explicitly, so `AddLog` takes the kind as a parameter. `Info` exists as a kind, and `Completion` proves none is logged.
- Examples.ExampleLines: its contract states only that each program has a line. A lemma that each program's text splits back into these lines, and the parse of each built-in program, are not stated, because evaluating the long string literals is beyond the verifier's budget.
- `selectedExample` holds an `ExampleKey` value, not a string. `KeyName` gives the string, and `KeysDistinct` proves the two correspond one to one. A lookup with a key outside the six is not modelled; the buttons only offer the six.
- The `queue` field of a phase card is a tag (`PhaseQueue`) naming the hook it displays, not a copy of that hook's contents.
- The files under `app/` (layout, metadata, Open Graph and icon routes) are presentation and are not part of this model.
- React batching of state updates is modelled as immediate writes. `addLog` uses a functional update, and no other setter reads state, so within one handler the result is the same.
