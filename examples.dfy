/**
 * The component's constant data: the six built-in example programs, keyed as
 * the example buttons key them, and the five libuv phase cards.
 */
module Examples {
  import opened Text

  /** The keys of the `examples` object, in declaration order. */
  datatype ExampleKey = Basic | TimersVsImmediate | NextTickRecursion | MicroTaskQueue | NestedTimers | IoExample

  datatype Example = Example(name: string, description: string, code: string)

  /** The keys in the order the example buttons list them. */
  const ExampleKeys: seq<ExampleKey> :=
    [Basic, TimersVsImmediate, NextTickRecursion, MicroTaskQueue, NestedTimers, IoExample]

  /** The example selected when the component starts. */
  const DefaultExample: ExampleKey := Basic

  /** The key as the string `selectedExample` holds. */
  function KeyName(k: ExampleKey): string {
    match k
    case Basic => "basic"
    case TimersVsImmediate => "timersVsImmediate"
    case NextTickRecursion => "nextTickRecursion"
    case MicroTaskQueue => "microTaskQueue"
    case NestedTimers => "nestedTimers"
    case IoExample => "ioExample"
  }

  /** `examples[k]`. Each program is given line by line; its text is the
      lines joined with newlines. */
  function ExampleOf(k: ExampleKey): Example {
    match k
    case Basic => Example("Basic Example", "Understanding execution order", Join(ExampleLines(k)))
    case TimersVsImmediate =>
      Example("setTimeout vs setImmediate", "When does each execute?", Join(ExampleLines(k)))
    case NextTickRecursion =>
      Example("process.nextTick() Behavior", "nextTick executes before everything", Join(ExampleLines(k)))
    case MicroTaskQueue =>
      Example("Microtask Queue Priority", "nextTick vs Promise microtasks", Join(ExampleLines(k)))
    case NestedTimers => Example("Nested Timers", "Understanding timer phases", Join(ExampleLines(k)))
    case IoExample => Example("Complex Example", "All features combined", Join(ExampleLines(k)))
  }

  /** The lines of each example program. */
  function ExampleLines(k: ExampleKey): (r: seq<string>)
    ensures |r| >= 1
  {
    match k
    case Basic => [
      "console.log('Start');",
      "",
      "setTimeout(() => {",
      "  console.log('setTimeout');",
      "}, 0);",
      "",
      "setImmediate(() => {",
      "  console.log('setImmediate');",
      "});",
      "",
      "process.nextTick(() => {",
      "  console.log('nextTick');",
      "});",
      "",
      "Promise.resolve().then(() => {",
      "  console.log('Promise');",
      "});",
      "",
      "console.log('End');"]
    case TimersVsImmediate => [
      "setTimeout(() => {",
      "  console.log('setTimeout 1');",
      "}, 0);",
      "",
      "setTimeout(() => {",
      "  console.log('setTimeout 2');",
      "}, 0);",
      "",
      "setImmediate(() => {",
      "  console.log('setImmediate 1');",
      "});",
      "",
      "setImmediate(() => {",
      "  console.log('setImmediate 2');",
      "});",
      "",
      "console.log('Main code');"]
    case NextTickRecursion => [
      "console.log('Start');",
      "",
      "process.nextTick(() => {",
      "  console.log('nextTick 1');",
      "});",
      "",
      "process.nextTick(() => {",
      "  console.log('nextTick 2');",
      "});",
      "",
      "Promise.resolve().then(() => {",
      "  console.log('Promise 1');",
      "});",
      "",
      "setTimeout(() => {",
      "  console.log('setTimeout');",
      "}, 0);",
      "",
      "console.log('End');"]
    case MicroTaskQueue => [
      "process.nextTick(() => {",
      "  console.log('nextTick 1');",
      "});",
      "",
      "Promise.resolve().then(() => {",
      "  console.log('Promise 1');",
      "});",
      "",
      "Promise.resolve().then(() => {",
      "  console.log('Promise 2');",
      "});",
      "",
      "process.nextTick(() => {",
      "  console.log('nextTick 2');",
      "});",
      "",
      "console.log('Sync code');"]
    case NestedTimers => [
      "setTimeout(() => {",
      "  console.log('Timeout 1');",
      "}, 0);",
      "",
      "setTimeout(() => {",
      "  console.log('Timeout 2');",
      "}, 0);",
      "",
      "setImmediate(() => {",
      "  console.log('Immediate 1');",
      "});",
      "",
      "setImmediate(() => {",
      "  console.log('Immediate 2');",
      "});",
      "",
      "console.log('Main');"]
    case IoExample => [
      "console.log('Start');",
      "",
      "setTimeout(() => {",
      "  console.log('Timer 1');",
      "  process.nextTick(() => {",
      "    console.log('nextTick inside timer');",
      "  });",
      "}, 0);",
      "",
      "setImmediate(() => {",
      "  console.log('Immediate 1');",
      "});",
      "",
      "process.nextTick(() => {",
      "  console.log('nextTick 1');",
      "});",
      "",
      "Promise.resolve().then(() => {",
      "  console.log('Promise 1');",
      "});",
      "",
      "console.log('End');"]
  }

  /** Every key has its own button and its own `selectedExample` string. */
  lemma KeysDistinct()
    ensures forall k :: k in ExampleKeys
    ensures forall i, j :: 0 <= i < j < |ExampleKeys| ==> ExampleKeys[i] != ExampleKeys[j]
    ensures forall k, k' :: KeyName(k) == KeyName(k') ==> k == k'
  {
    forall k ensures k in ExampleKeys {
      match k
      case Basic => assert ExampleKeys[0] == k;
      case TimersVsImmediate => assert ExampleKeys[1] == k;
      case NextTickRecursion => assert ExampleKeys[2] == k;
      case MicroTaskQueue => assert ExampleKeys[3] == k;
      case NestedTimers => assert ExampleKeys[4] == k;
      case IoExample => assert ExampleKeys[5] == k;
    }
  }

  /** The queue a phase card displays. */
  datatype PhaseQueue = TimersCard | PendingCard | PollCard | CheckCard | CloseCard

  datatype PhaseCard = PhaseCard(name: string, color: string, queue: PhaseQueue, description: string)

  /** The `phases` array: card i is highlighted when `currentPhase == i`. */
  const Phases: seq<PhaseCard> := [
    PhaseCard("Timers", "bg-purple-500", TimersCard, "setTimeout, setInterval callbacks"),
    PhaseCard("Pending I/O", "bg-blue-500", PendingCard, "I/O callbacks deferred to next iteration"),
    PhaseCard("Poll", "bg-green-500", PollCard, "Retrieve new I/O events, execute callbacks"),
    PhaseCard("Check", "bg-yellow-500", CheckCard, "setImmediate callbacks"),
    PhaseCard("Close", "bg-red-500", CloseCard, "Close event callbacks (socket.on(\"close\"))")]
}
