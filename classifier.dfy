/**
 * The line classifier behind `parseCode`: every trimmed line is tested against
 * a fixed chain of markers and contributes at most one label to one of five
 * task groups.
 */
module Classifier {
  import opened Text
  import opened Label

  /** The five ordered label lists `parseCode` returns. */
  datatype ParsedTasks = ParsedTasks(
    sync: seq<string>,
    timers: seq<string>,
    immediate: seq<string>,
    nextTick: seq<string>,
    promises: seq<string>)

  datatype Group = Sync | Timers | Immediate | NextTick | Promises

  /** One line's contribution: a label for one group. */
  datatype Task = Task(group: Group, message: string)

  const NoTasks := ParsedTasks([], [], [], [], [])

  /** The prefix that sends a trimmed line to `sync`. */
  const SyncMarker := "console.log"
  const TimeoutMarker := "setTimeout"
  const ImmediateMarker := "setImmediate"
  const NextTickMarker := "process.nextTick"
  const PromiseMarker := "Promise.resolve()"

  function Tag(g: Group, m: Option<string>): Option<Task> {
    match m
    case Some(l) => Some(Task(g, l))
    case None => None
  }

  /** The `if / else if` chain of `parseCode` for one line (see MarkerPrecedence). */
  function ClassifyLine(line: string): Option<Task>
  {
    var trimmed := Trim(line);
    if StartsWith(trimmed, SyncMarker) then Tag(Sync, MatchLabel(trimmed))
    else if Includes(trimmed, TimeoutMarker) then Tag(Timers, MatchLabel(line))
    else if Includes(trimmed, ImmediateMarker) then Tag(Immediate, MatchLabel(line))
    else if Includes(trimmed, NextTickMarker) then Tag(NextTick, MatchLabel(line))
    else if Includes(trimmed, PromiseMarker) then Tag(Promises, MatchLabel(line))
    else None
  }

  /** Marker precedence. A line whose trimmed text starts with `console.log`
      can only go to `sync` (its label taken from the trimmed text); otherwise
      the first of `setTimeout`, `setImmediate`, `process.nextTick`,
      `Promise.resolve()` found in the trimmed text picks the group, and the
      label is taken from the untrimmed line. A failed label match drops the
      line, never passing it on to a later marker; a line with no marker
      contributes nothing. */
  lemma MarkerPrecedence(line: string, r: Option<Task>)
    requires r == ClassifyLine(line)
    ensures var t := Trim(line);
      && (r.Some? && r.value.group == Sync <==>
            StartsWith(t, SyncMarker) && MatchLabel(t).Some?)
      && (r.Some? && r.value.group == Timers <==>
            !StartsWith(t, SyncMarker) && Includes(t, TimeoutMarker) && MatchLabel(line).Some?)
      && (r.Some? && r.value.group == Immediate <==>
            && !StartsWith(t, SyncMarker) && !Includes(t, TimeoutMarker)
            && Includes(t, ImmediateMarker) && MatchLabel(line).Some?)
      && (r.Some? && r.value.group == NextTick <==>
            && !StartsWith(t, SyncMarker) && !Includes(t, TimeoutMarker)
            && !Includes(t, ImmediateMarker) && Includes(t, NextTickMarker)
            && MatchLabel(line).Some?)
      && (r.Some? && r.value.group == Promises <==>
            && !StartsWith(t, SyncMarker) && !Includes(t, TimeoutMarker)
            && !Includes(t, ImmediateMarker) && !Includes(t, NextTickMarker)
            && Includes(t, PromiseMarker) && MatchLabel(line).Some?)
    ensures r.Some? ==> Some(r.value.message) == MatchLabel(if r.value.group == Sync then Trim(line) else line)
  {
  }

  /** Pushing onto the later part of a concatenation. */
  lemma PushConcat(a: ParsedTasks, b: ParsedTasks, c: Option<Task>)
    ensures Push(Concat(a, b), c) == Concat(a, Push(b, c))
  {
  }

  /** `tasks[group].push(label)`. */
  function Push(tasks: ParsedTasks, c: Option<Task>): ParsedTasks {
    match c
    case None => tasks
    case Some(Task(g, l)) =>
      match g
      case Sync => tasks.(sync := tasks.sync + [l])
      case Timers => tasks.(timers := tasks.timers + [l])
      case Immediate => tasks.(immediate := tasks.immediate + [l])
      case NextTick => tasks.(nextTick := tasks.nextTick + [l])
      case Promises => tasks.(promises := tasks.promises + [l])
  }

  /** The contribution of each line, in line order. */
  function Contributions(lines: seq<string>): (r: seq<Option<Task>>)
    ensures |r| == |lines|
  {
    seq(|lines|, i requires 0 <= i < |lines| => ClassifyLine(lines[i]))
  }

  /** The five lists built by pushing contributions in order. */
  function Collect(cs: seq<Option<Task>>): ParsedTasks {
    if cs == [] then NoTasks else Push(Collect(cs[..|cs| - 1]), cs[|cs| - 1])
  }

  /** What `parseCode` returns for the given lines, processed top to bottom. */
  function Classify(lines: seq<string>): ParsedTasks {
    Collect(Contributions(lines))
  }

  /** `parseCode` applied to a program text: split on newlines, then classify. */
  function ParseText(code: string): ParsedTasks {
    Classify(Split(code))
  }

  function Size(t: ParsedTasks): nat {
    |t.sync| + |t.timers| + |t.immediate| + |t.nextTick| + |t.promises|
  }

  function Concat(a: ParsedTasks, b: ParsedTasks): ParsedTasks {
    ParsedTasks(a.sync + b.sync, a.timers + b.timers, a.immediate + b.immediate,
                a.nextTick + b.nextTick, a.promises + b.promises)
  }

  /** Every label in every group is non-empty and holds no line terminator. */
  predicate WellLabelled(t: ParsedTasks) {
    && Labelled(t.sync) && Labelled(t.timers) && Labelled(t.immediate)
    && Labelled(t.nextTick) && Labelled(t.promises)
  }

  predicate Labelled(q: seq<string>) {
    forall i :: 0 <= i < |q| ==> q[i] != [] && OneLine(q[i])
  }

  /** Each line contributes at most one label to at most one group, so the
      groups together, and each of them, are no longer than the line count. */
  lemma ClassifySize(lines: seq<string>)
    ensures Size(Classify(lines)) <= |lines|
    ensures var t := Classify(lines);
      && |t.sync| <= |lines| && |t.timers| <= |lines| && |t.immediate| <= |lines|
      && |t.nextTick| <= |lines| && |t.promises| <= |lines|
  {
    CollectSize(Contributions(lines));
  }

  lemma {:induction false} CollectSize(cs: seq<Option<Task>>)
    ensures Size(Collect(cs)) <= |cs|
  {
    if cs != [] {
      CollectSize(cs[..|cs| - 1]);
    }
  }

  /** Classification works line by line: the labels of the lines of `a` come,
      in every group, before those of the lines of `b`. */
  lemma ClassifyAppend(a: seq<string>, b: seq<string>)
    ensures Classify(a + b) == Concat(Classify(a), Classify(b))
  {
    ContributionsAppend(a, b);
    CollectAppend(Contributions(a), Contributions(b));
  }

  lemma ContributionsAppend(a: seq<string>, b: seq<string>)
    ensures Contributions(a + b) == Contributions(a) + Contributions(b)
  {
    var l, r := Contributions(a + b), Contributions(a) + Contributions(b);
    forall i | 0 <= i < |l|
      ensures l[i] == r[i]
    {
      var line := (a + b)[i];
      assert l[i] == ClassifyLine(line);
      if i < |a| {
        assert line == a[i] && r[i] == Contributions(a)[i];
      } else {
        assert line == b[i - |a|] && r[i] == Contributions(b)[i - |a|];
      }
    }
  }

  lemma {:induction false} CollectAppend(a: seq<Option<Task>>, b: seq<Option<Task>>)
    ensures Collect(a + b) == Concat(Collect(a), Collect(b))
    decreases |b|
  {
    if b == [] {
      assert a + b == a;
    } else {
      var b' := b[..|b| - 1];
      CollectAppend(a, b');
      assert (a + b)[..|a + b| - 1] == a + b';
      PushConcat(Collect(a), Collect(b'), b[|b| - 1]);
    }
  }

  /** Processing one more line pushes its contribution. */
  lemma ClassifySnoc(lines: seq<string>, i: nat)
    requires i < |lines|
    ensures Classify(lines[..i + 1]) == Push(Classify(lines[..i]), ClassifyLine(lines[i]))
  {
    var cs := Contributions(lines[..i + 1]);
    assert cs[..i] == Contributions(lines[..i]);
  }

  /** A single line: its one contribution, in its group. */
  lemma ClassifyOne(line: string)
    ensures Classify([line]) == Push(NoTasks, ClassifyLine(line))
    ensures Size(Classify([line])) == if ClassifyLine(line).Some? then 1 else 0
  {
    var cs := Contributions([line]);
    assert cs[0] == ClassifyLine(line) && cs[..0] == [];
    assert Collect(cs) == Push(Collect(cs[..0]), cs[0]);
  }

  /** Every extracted label is non-empty and stays on one line. */
  lemma ClassifyLabels(lines: seq<string>)
    ensures WellLabelled(Classify(lines))
  {
    var cs := Contributions(lines);
    forall i | 0 <= i < |cs|
      ensures cs[i].Some? ==> cs[i].value.message != [] && OneLine(cs[i].value.message)
    {
      MatchLabelShape(lines[i]);
      MatchLabelShape(Trim(lines[i]));
      MarkerPrecedence(lines[i], cs[i]);
    }
    CollectLabels(cs);
  }

  predicate OneLine(l: string) {
    NoLineTerminator(l, 0, |l|)
  }

  lemma {:induction false} CollectLabels(cs: seq<Option<Task>>)
    requires forall i :: 0 <= i < |cs| ==> cs[i].Some? ==> cs[i].value.message != [] && OneLine(cs[i].value.message)
    ensures WellLabelled(Collect(cs))
  {
    if cs != [] {
      CollectLabels(cs[..|cs| - 1]);
    }
  }
}
