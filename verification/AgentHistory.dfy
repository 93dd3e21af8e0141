/** What a history of events makes known: which calls and tasks are observed, how they are linked, which have ended and what
    the log says, read off the events. */
module AgentHistory {
  import opened AgentEndings

  // ---------------------------------------------------------------- task rows

  /** The task rows an event brings; only a start and a roster link a task to a call. */
  function Rows(ev: Event): seq<Seen> {
    match ev
    case TaskStarted(seen) => [seen]
    case TaskProgress(seen) => [seen.(call := 0)]
    case TaskUpdated(seen, _) => [seen.(call := 0)]
    case Roster(rows, _) => rows
    case _ => []
  }

  predicate Names(rows: seq<Seen>, t: nat) {
    exists i :: 0 <= i < |rows| && Readable(rows[i]) && rows[i].task == t
  }

  predicate Links(row: Seen) {
    Readable(row) && row.call != 0 && !row.lostCall
  }

  /** The call a task is linked to after the rows: that of its last row with a readable link, or the one before. */
  function LinkIn(rows: seq<Seen>, t: nat, before: nat): nat {
    if rows == [] then before
    else
      var last := rows[|rows| - 1];
      if Links(last) && last.task == t then last.call else LinkIn(rows[..|rows| - 1], t, before)
  }

  function RowFacts(rows: seq<Seen>): seq<Fact> {
    if rows == [] then []
    else
      var last := rows[|rows| - 1];
      RowFacts(rows[..|rows| - 1])
      + (if Readable(last) then [TaskObserved(last.task)] else []) + (if Links(last) then [TaskLinked(last.task, last.call)] else [])
  }

  function LinkOf(s: State, t: nat): nat {
    if t in s.tasks then s.tasks[t].call else 0
  }

  predicate TaskEnded(s: State, t: nat) {
    t in s.tasks && s.tasks[t].ended
  }

  /** A row links an ended task to c. */
  predicate LinksEnded(s: State, rows: seq<Seen>, c: nat) {
    exists i :: 0 <= i < |rows| && Links(rows[i]) && rows[i].call == c && TaskEnded(s, rows[i].task)
  }

  /** What rows do: they name tasks, link them and end the calls of ended tasks. */
  ghost predicate Identified(s: State, rows: seq<Seen>, s': State, t: nat, c: nat) {
    && s'.calls == s.calls && s'.launchers == s.launchers && s'.log == s.log + RowFacts(rows)
    && (t in s'.tasks <==> t in s.tasks || Names(rows, t))
    && (TaskEnded(s', t) <==> TaskEnded(s, t))
    && LinkOf(s', t) == LinkIn(rows, t, LinkOf(s, t))
    && (c in s'.ended <==> c in s.ended || LinksEnded(s, rows, c))
  }

  lemma IdentifyOne(s: State, seen: Seen, t: nat, c: nat)
    ensures var s' := Identify(s, seen);
      && s'.calls == s.calls && s'.launchers == s.launchers
      && s'.log == s.log + (if Readable(seen) then [TaskObserved(seen.task)] else []) + (if Links(seen) then [TaskLinked(seen.task, seen.call)] else [])
      && (t in s'.tasks <==> t in s.tasks || (Readable(seen) && seen.task == t))
      && (TaskEnded(s', t) <==> TaskEnded(s, t))
      && LinkOf(s', t) == (if Links(seen) && seen.task == t then seen.call else LinkOf(s, t))
      && (c in s'.ended <==> c in s.ended || (Links(seen) && seen.call == c && TaskEnded(s, seen.task)))
  {
  }

  lemma {:induction false} IdentifyAllDoes(s: State, rows: seq<Seen>, t: nat, c: nat)
    ensures Identified(s, rows, IdentifyAll(s, rows), t, c)
  {
    if rows != [] {
      var front, last := rows[..|rows| - 1], rows[|rows| - 1];
      var s1 := IdentifyAll(s, front);
      IdentifyAllDoes(s, front, t, c);
      IdentifyAllDoes(s, front, last.task, c);
      IdentifyOne(s1, last, t, c);
      NamesNext(rows, t);
      LinksNext(s, rows, c);
    }
  }

  lemma NamesNext(rows: seq<Seen>, t: nat)
    requires rows != []
    ensures var front, last := rows[..|rows| - 1], rows[|rows| - 1];
      Names(rows, t) <==> Names(front, t) || (Readable(last) && last.task == t)
  {
    var front, last := rows[..|rows| - 1], rows[|rows| - 1];
    if Names(front, t) {
      var i :| 0 <= i < |front| && Readable(front[i]) && front[i].task == t;
      assert rows[i] == front[i];
    }
    if i :| 0 <= i < |rows| && Readable(rows[i]) && rows[i].task == t {
      assert i < |front| ==> front[i] == rows[i];
    }
  }

  lemma LinksNext(s: State, rows: seq<Seen>, c: nat)
    requires rows != []
    ensures var front, last := rows[..|rows| - 1], rows[|rows| - 1];
      LinksEnded(s, rows, c) <==> LinksEnded(s, front, c) || (Links(last) && last.call == c && TaskEnded(s, last.task))
  {
    var front, last := rows[..|rows| - 1], rows[|rows| - 1];
    if LinksEnded(s, front, c) {
      var i :| 0 <= i < |front| && Links(front[i]) && front[i].call == c && TaskEnded(s, front[i].task);
      assert rows[i] == front[i];
    }
    if i :| 0 <= i < |rows| && Links(rows[i]) && rows[i].call == c && TaskEnded(s, rows[i].task) {
      assert i < |front| ==> front[i] == rows[i];
    }
  }

  // ---------------------------------------------------------------- what a complete roster closes

  /** An earlier missing task of the same call was closed already. */
  predicate GoneBefore(s: State, rows: seq<Seen>, ids: seq<nat>, i: nat, c: nat) {
    exists j :: 0 <= j < i && j < |ids| && Missing(s, rows, ids[j]) && s.tasks[ids[j]].call == c
  }

  predicate GoneAt(s: State, rows: seq<Seen>, ids: seq<nat>, i: nat)
    requires i < |ids|
  {
    Missing(s, rows, ids[i]) && !GoneBefore(s, rows, ids, i, s.tasks[ids[i]].call)
  }

  function GoneReports(s: State, rows: seq<Seen>, ids: seq<nat>, i: nat): seq<Fact>
    requires i <= |ids|
  {
    if i == 0 then []
    else GoneReports(s, rows, ids, i - 1)
         + if GoneAt(s, rows, ids, i - 1) then [Closed(Gone, ids[i - 1], s.tasks[ids[i - 1]].call)] else []
  }

  /** After the first i tasks. */
  ghost predicate GoneTo(s: State, s': State, rows: seq<Seen>, ids: seq<nat>, i: nat)
    requires i <= |ids|
  {
    && s'.calls == s.calls && s'.launchers == s.launchers && s'.tasks.Keys == s.tasks.Keys
    && (forall t :: t in s.tasks ==> s'.tasks[t].call == s.tasks[t].call)
    && (forall c :: c in s'.ended <==> c in s.ended || GoneBefore(s, rows, ids, i, c))
    && (forall j {:trigger GoneAt(s, rows, ids, j)} :: 0 <= j < |ids| && ids[j] in s.tasks ==>
          (TaskEnded(s', ids[j]) <==> TaskEnded(s, ids[j]) || (j < i && GoneAt(s, rows, ids, j))))
    && s'.log == s.log + GoneReports(s, rows, ids, i)
  }

  predicate Increasing(ids: seq<nat>) {
    forall a, b :: 0 <= a < b < |ids| ==> ids[a] < ids[b]
  }

  lemma GoneStep(s: State, s1: State, rows: seq<Seen>, ids: seq<nat>, i: nat)
    requires Inv(s) && i < |ids| && Increasing(ids) && GoneTo(s, s1, rows, ids, i)
    ensures Missing(s1, rows, ids[i]) <==> GoneAt(s, rows, ids, i)
    ensures GoneTo(s, if Missing(s1, rows, ids[i]) then CloseTask(s1, ids[i], Gone) else s1, rows, ids, i + 1)
  {
    var t := ids[i];
    var s2 := if Missing(s1, rows, t) then CloseTask(s1, t, Gone) else s1;
    assert t in s.tasks ==> (TaskEnded(s1, t) <==> TaskEnded(s, t)) by {
      assert GoneAt(s, rows, ids, i) || !GoneAt(s, rows, ids, i);
    }
    forall c ensures c in s2.ended <==> c in s.ended || GoneBefore(s, rows, ids, i + 1, c) {
      if Missing(s, rows, t) && s.tasks[t].call == c {
        assert GoneBefore(s, rows, ids, i + 1, c);
      }
      assert GoneBefore(s, rows, ids, i, c) ==> GoneBefore(s, rows, ids, i + 1, c);
    }
    forall j | 0 <= j < |ids| && ids[j] in s.tasks
      ensures TaskEnded(s2, ids[j]) <==> TaskEnded(s, ids[j]) || (j < i + 1 && GoneAt(s, rows, ids, j))
    {
      assert TaskEnded(s1, ids[j]) <==> TaskEnded(s, ids[j]) || (j < i && GoneAt(s, rows, ids, j));
      assert j < i ==> ids[j] < ids[i];
      assert i < j ==> ids[i] < ids[j];
    }
  }

  lemma {:induction false} GoneRun(s: State, rows: seq<Seen>, ids: seq<nat>, i: nat)
    requires Inv(s) && i <= |ids| && Increasing(ids)
    ensures GoneTo(s, GoneOver(s, rows, ids[..i]), rows, ids, i)
  {
    if i > 0 {
      GoneRun(s, rows, ids, i - 1);
      GoneStep(s, GoneOver(s, rows, ids[..i - 1]), rows, ids, i - 1);
      assert ids[..i][..i - 1] == ids[..i - 1];
    }
  }

  /** Exactly what a complete roster infers: every open task linked to an observed call and absent from it, except those
      an earlier one of the same call speaks for, in id order; and nothing when the roster is cut. */
  lemma RosterReports(s: State, rows: seq<Seen>, dropped: nat, ids: seq<nat>)
    requires Inv(s) && Sorted(ids, s.tasks.Keys)
    ensures Observe(s, Roster(rows, dropped), ids).log
         == s.log + (if Complete(rows, dropped) then GoneReports(s, rows, ids, |ids|) else []) + RowFacts(rows)
  {
    var s1 := if Complete(rows, dropped) then GoneOver(s, rows, ids) else s;
    RosterIs(s, rows, dropped, ids);
    assert s1.log == s.log + if Complete(rows, dropped) then GoneReports(s, rows, ids, |ids|) else [] by {
      RosterGone(s, rows, ids);
    }
    assert IdentifyAll(s1, rows).log == s1.log + RowFacts(rows) by {
      IdentifyAllDoes(s1, rows, 0, 0);
    }
  }

  /** A roster that dropped rows, or has one that cannot be read, infers nothing. */
  lemma CutRosterInfersNothing(s: State, rows: seq<Seen>, dropped: nat, ids: seq<nat>)
    requires dropped != 0 || exists i :: 0 <= i < |rows| && (rows[i].task == 0 || rows[i].lostTask)
    ensures Observe(s, Roster(rows, dropped), ids).log == s.log + RowFacts(rows)
  {
    RosterIs(s, rows, dropped, ids);
    IdentifyAllDoes(s, rows, 0, 0);
  }

  lemma RosterIs(s: State, rows: seq<Seen>, dropped: nat, ids: seq<nat>)
    ensures Observe(s, Roster(rows, dropped), ids) == IdentifyAll(if Complete(rows, dropped) then GoneOver(s, rows, ids) else s, rows)
  {
  }

  lemma RosterGone(s: State, rows: seq<Seen>, ids: seq<nat>)
    requires Inv(s) && Sorted(ids, s.tasks.Keys)
    ensures GoneTo(s, GoneOver(s, rows, ids), rows, ids, |ids|)
  {
    GoneRun(s, rows, ids, |ids|);
    assert ids[..|ids|] == ids;
  }

  // ---------------------------------------------------------------- what each step makes known

  ghost predicate Enabled(s: State, step: Step) {
    match step
    case Sees(_, ids) => Sorted(ids, s.tasks.Keys)
    case Ends(tasks, calls) => Sorted(tasks, s.tasks.Keys) && Sorted(calls, s.calls.Keys)
  }

  predicate Shows(step: Step, c: nat) {
    step.Sees? && step.ev.ToolStart? && step.ev.agent && step.ev.call == c != 0
  }

  predicate Remembers(step: Step, c: nat) {
    Shows(step, c) && step.ev.remembered
  }

  predicate GivesResult(s: State, step: Step, c: nat) {
    step.Sees? && step.ev.ToolUpdate? && step.ev.final && step.ev.call == c && c in s.launchers
  }

  predicate NamesTask(step: Step, t: nat) {
    step.Sees? && Names(Rows(step.ev), t)
  }

  /** The task ends: its status is reported, a complete roster leaves it out, or the session ends while it is open. */
  predicate EndsTask(s: State, step: Step, t: nat) {
    match step
    case Sees(ev, ids) =>
      || (ev.TaskUpdated? && ev.hasStatus && Readable(ev.seen) && ev.seen.task == t)
      || (ev.Roster? && Complete(ev.rows, ev.dropped) && exists j :: 0 <= j < |ids| && ids[j] == t && GoneAt(s, ev.rows, ids, j))
    case Ends(tasks, _) => exists j :: 0 <= j < |tasks| && tasks[j] == t && Reports(s, tasks, j)
  }

  /** The call ends: it is denied, its task ends, an ended task is linked to it, or the session ends. */
  predicate EndsCall(s: State, step: Step, c: nat) {
    match step
    case Sees(ev, ids) =>
      || (ev.ToolDenied? && !ev.lost && ev.call == c != 0)
      || LinksEnded(s, Rows(ev), c)
      || (ev.TaskUpdated? && ev.hasStatus && Readable(ev.seen) && LinkOf(s, ev.seen.task) == c != 0)
      || (ev.Roster? && Complete(ev.rows, ev.dropped) && GoneBefore(s, ev.rows, ids, |ids|, c))
    case Ends(tasks, _) => c in s.calls || SpokenFor(s, tasks, |tasks|, c)
  }

  ghost predicate CallsTold(s: State, step: Step, s': State, c: nat) {
    && (c in s'.calls <==> c in s.calls || Shows(step, c))
    && (c in s'.calls && s'.calls[c] <==> (c in s.calls && s.calls[c]) || GivesResult(s, step, c))
    && (c in s'.launchers <==> c in s.launchers || Remembers(step, c))
  }

  ghost predicate TasksTold(s: State, step: Step, s': State, t: nat) {
    && (t in s'.tasks <==> t in s.tasks || NamesTask(step, t))
    && LinkOf(s', t) == (if step.Sees? then LinkIn(Rows(step.ev), t, LinkOf(s, t)) else LinkOf(s, t))
    && (TaskEnded(s', t) <==> TaskEnded(s, t) || EndsTask(s, step, t))
  }

  ghost predicate EndsTold(s: State, step: Step, s': State, c: nat) {
    c in s'.ended <==> c in s.ended || EndsCall(s, step, c)
  }

  lemma CallEventTells(s: State, ev: Event, ids: seq<nat>, t: nat, c: nat)
    requires s.launchers <= s.calls.Keys && (ev.ToolStart? || ev.ToolUpdate? || ev.ToolDenied?)
    ensures var step, s' := Sees(ev, ids), Observe(s, ev, ids);
      CallsTold(s, step, s', c) && TasksTold(s, step, s', t) && EndsTold(s, step, s', c)
  {
  }

  lemma IdentifyTells(s: State, ev: Event, ids: seq<nat>, t: nat, c: nat)
    requires ev.TaskStarted? || ev.TaskProgress? || (ev.TaskUpdated? && !(ev.hasStatus && Readable(ev.seen)))
    ensures var step, s' := Sees(ev, ids), Observe(s, ev, ids);
      CallsTold(s, step, s', c) && TasksTold(s, step, s', t) && EndsTold(s, step, s', c)
  {
    var seen := Rows(ev)[0];
    OneRow(s, seen);
    IdentifyAllDoes(s, [seen], t, c);
  }

  lemma OneRow(s: State, seen: Seen)
    ensures IdentifyAll(s, [seen]) == Identify(s, seen)
  {
    assert [seen][..0] == [];
  }

  lemma StatusTells(s: State, seen: Seen, ids: seq<nat>, t: nat, c: nat)
    requires Readable(seen)
    ensures var step, s' := Sees(TaskUpdated(seen, true), ids), Observe(s, TaskUpdated(seen, true), ids);
      CallsTold(s, step, s', c) && TasksTold(s, step, s', t) && EndsTold(s, step, s', c)
  {
    var row := seen.(call := 0);
    OneRow(s, row);
    IdentifyAllDoes(s, [row], t, c);
    IdentifyAllDoes(s, [row], seen.task, c);
    assert LinkIn([row], seen.task, LinkOf(s, seen.task)) == LinkOf(s, seen.task);
    assert Names([row], seen.task) by { assert [row][0] == row; }
  }

  lemma RosterTells(s: State, rows: seq<Seen>, dropped: nat, ids: seq<nat>, t: nat, c: nat)
    requires Inv(s) && Sorted(ids, s.tasks.Keys)
    ensures var step, s' := Sees(Roster(rows, dropped), ids), Observe(s, Roster(rows, dropped), ids);
      CallsTold(s, step, s', c) && TasksTold(s, step, s', t) && EndsTold(s, step, s', c)
  {
    var s1 := if Complete(rows, dropped) then GoneOver(s, rows, ids) else s;
    RosterIs(s, rows, dropped, ids);
    IdentifyAllDoes(s1, rows, t, c);
    if Complete(rows, dropped) {
      RosterGone(s, rows, ids);
      GoneTask(s, s1, rows, ids, t);
      forall i | 0 <= i < |rows| ensures TaskEnded(s1, rows[i].task) <==> TaskEnded(s, rows[i].task) {
        GoneTask(s, s1, rows, ids, rows[i].task);
        assert Present(rows, rows[i].task);
      }
    }
  }

  lemma NoRepeat(ids: seq<nat>, j: nat, k: nat)
    requires Increasing(ids) && j < |ids| && k < |ids| && ids[j] == ids[k]
    ensures j == k
  {
  }

  lemma GoneTask(s: State, s1: State, rows: seq<Seen>, ids: seq<nat>, t: nat)
    requires GoneTo(s, s1, rows, ids, |ids|) && Sorted(ids, s.tasks.Keys)
    ensures TaskEnded(s1, t) <==> TaskEnded(s, t) || exists j :: 0 <= j < |ids| && ids[j] == t && GoneAt(s, rows, ids, j)
    ensures LinkOf(s1, t) == LinkOf(s, t) && (t in s1.tasks <==> t in s.tasks)
  {
    if t in s.tasks {
      var j :| 0 <= j < |ids| && ids[j] == t;
      assert TaskEnded(s1, ids[j]) <==> TaskEnded(s, ids[j]) || (j < |ids| && GoneAt(s, rows, ids, j));
      forall k | 0 <= k < |ids| && ids[k] == t ensures k == j {
        NoRepeat(ids, j, k);
      }
    }
  }

  // ---------------------------------------------------------------- a session ending

  lemma EndedNext(s: State, ids: seq<nat>, i: nat, j: nat)
    requires Inv(s) && i < |ids| && j < |ids| && Increasing(ids)
    ensures TaskEnded(EndTasks(s, ids[..i + 1]), ids[j]) <==> TaskEnded(EndTasks(s, ids[..i]), ids[j]) || (i == j && Reports(s, ids, i))
  {
    TasksRun(s, ids, i);
    TaskStep(s, EndTasks(s, ids[..i]), ids, i);
    assert ids[..i + 1][..i] == ids[..i];
    assert ids[i] == ids[j] <==> i == j;
  }

  lemma {:induction false} EndedTasks(s: State, ids: seq<nat>, i: nat, j: nat)
    requires Inv(s) && i <= |ids| && j < |ids| && Increasing(ids)
    ensures TaskEnded(EndTasks(s, ids[..i]), ids[j]) <==> TaskEnded(s, ids[j]) || (j < i && Reports(s, ids, j))
  {
    if i > 0 {
      EndedTasks(s, ids, i - 1, j);
      EndedNext(s, ids, i - 1, j);
    } else {
      assert ids[..0] == [];
    }
  }

  lemma {:induction false} EndedCalls(s: State, ids: seq<nat>, c: nat)
    ensures var s' := EndCalls(s, ids);
      s'.tasks == s.tasks && s'.calls == s.calls && s'.launchers == s.launchers && (c in s'.ended <==> c in s.ended || (c in ids && c in s.calls))
  {
    if ids != [] {
      EndedCalls(s, ids[..|ids| - 1], c);
      assert ids == ids[..|ids| - 1] + [ids[|ids| - 1]];
    }
  }

  lemma EndTells(s: State, tasks: seq<nat>, calls: seq<nat>, t: nat, c: nat)
    requires Inv(s) && Enabled(s, Ends(tasks, calls))
    ensures var step, s' := Ends(tasks, calls), End(s, tasks, calls);
      CallsTold(s, step, s', c) && TasksTold(s, step, s', t) && EndsTold(s, step, s', c)
  {
    TasksRun(s, tasks, |tasks|);
    assert tasks[..|tasks|] == tasks;
    var s1 := EndTasks(s, tasks);
    EndedCalls(s1, calls, c);
    if t in s.tasks {
      var j :| 0 <= j < |tasks| && tasks[j] == t;
      EndedTasks(s, tasks, |tasks|, j);
      forall k | 0 <= k < |tasks| && tasks[k] == t ensures k == j {
        NoRepeat(tasks, j, k);
      }
    }
  }

  // ---------------------------------------------------------------- theorems over every history

  ghost predicate TakenAt(trace: seq<State>, steps: seq<Step>, k: nat)
    requires |trace| == |steps| + 1 && k < |steps|
  {
    Enabled(trace[k], steps[k]) && trace[k + 1] == Apply(trace[k], steps[k])
  }

  /** trace[k] is the state before step k; each step lists the ids there are. */
  ghost predicate IsRun(trace: seq<State>, steps: seq<Step>) {
    && |trace| == |steps| + 1 && trace[0] == INITIAL
    && forall k {:trigger TakenAt(trace, steps, k)} :: 0 <= k < |steps| ==> TakenAt(trace, steps, k)
  }

  lemma StepTells(s: State, step: Step, t: nat, c: nat)
    requires Inv(s) && s.launchers <= s.calls.Keys && Enabled(s, step)
    ensures var s' := Apply(s, step); CallsTold(s, step, s', c) && TasksTold(s, step, s', t) && EndsTold(s, step, s', c)
  {
    match step {
      case Ends(tasks, calls) => EndTells(s, tasks, calls, t, c);
      case Sees(ev, ids) =>
        match ev {
          case Roster(rows, dropped) => RosterTells(s, rows, dropped, ids, t, c);
          case TaskUpdated(seen, hasStatus) =>
            if hasStatus && Readable(seen) {
              StatusTells(s, seen, ids, t, c);
            } else {
              IdentifyTells(s, ev, ids, t, c);
            }
          case TaskStarted(_) => IdentifyTells(s, ev, ids, t, c);
          case TaskProgress(_) => IdentifyTells(s, ev, ids, t, c);
          case _ => CallEventTells(s, ev, ids, t, c);
        }
    }
  }

  lemma StepKeeps(s: State, step: Step)
    requires Inv(s) && s.launchers <= s.calls.Keys && Enabled(s, step)
    ensures Inv(Apply(s, step)) && Apply(s, step).launchers <= Apply(s, step).calls.Keys
  {
    match step {
      case Sees(ev, ids) => ObserveKeeps(s, ev, ids);
      case Ends(tasks, calls) => EndKeeps(s, tasks, calls);
    }
    forall c | c in Apply(s, step).launchers ensures c in Apply(s, step).calls {
      StepTells(s, step, 0, c);
    }
  }

  lemma {:induction false} RunOk(trace: seq<State>, steps: seq<Step>, n: nat)
    requires IsRun(trace, steps) && n <= |steps|
    ensures Inv(trace[n]) && trace[n].launchers <= trace[n].calls.Keys
  {
    if n > 0 {
      RunOk(trace, steps, n - 1);
      assert TakenAt(trace, steps, n - 1);
      StepKeeps(trace[n - 1], steps[n - 1]);
    }
  }

  lemma Told(trace: seq<State>, steps: seq<Step>, k: nat, t: nat, c: nat)
    requires IsRun(trace, steps) && k < |steps|
    ensures var s, s' := trace[k], trace[k + 1];
      CallsTold(s, steps[k], s', c) && TasksTold(s, steps[k], s', t) && EndsTold(s, steps[k], s', c)
  {
    RunOk(trace, steps, k);
    assert TakenAt(trace, steps, k);
    StepTells(trace[k], steps[k], t, c);
  }

  /** Over every history: a call is observed exactly when a start of it was seen, spawns agents exactly when a remembered
      one was, and has a result exactly when a final update of a spawning call reported one. */
  lemma {:induction false} CallsAreTold(trace: seq<State>, steps: seq<Step>, n: nat, c: nat)
    requires IsRun(trace, steps) && n <= |steps|
    ensures var s := trace[n];
      && (c in s.calls <==> exists k :: 0 <= k < n && Shows(steps[k], c))
      && (c in s.launchers <==> exists k :: 0 <= k < n && Remembers(steps[k], c))
      && (c in s.calls && s.calls[c] <==> exists k :: 0 <= k < n && GivesResult(trace[k], steps[k], c))
  {
    if n > 0 {
      CallsAreTold(trace, steps, n - 1, c);
      Told(trace, steps, n - 1, 0, c);
    }
  }

  /** The link of a task after the first n steps: that of the last readable row about it. */
  function LinkAfter(steps: seq<Step>, n: nat, t: nat): nat
    requires n <= |steps|
  {
    if n == 0 then 0
    else
      var before := LinkAfter(steps, n - 1, t);
      if steps[n - 1].Sees? then LinkIn(Rows(steps[n - 1].ev), t, before) else before
  }

  /** Over every history: a task is known exactly when a readable row named it, is linked to the call of the last such row
      that gave one, and has ended exactly when its status was reported, a complete roster left it out or the session
      ended while it was open. */
  lemma {:induction false} TasksAreTold(trace: seq<State>, steps: seq<Step>, n: nat, t: nat)
    requires IsRun(trace, steps) && n <= |steps|
    ensures var s := trace[n];
      && (t in s.tasks <==> exists k :: 0 <= k < n && NamesTask(steps[k], t))
      && LinkOf(s, t) == LinkAfter(steps, n, t)
      && (TaskEnded(s, t) <==> exists k :: 0 <= k < n && EndsTask(trace[k], steps[k], t))
  {
    if n > 0 {
      TasksAreTold(trace, steps, n - 1, t);
      Told(trace, steps, n - 1, t, 0);
    }
  }

  /** Over every history: a call has ended exactly when it was denied, a task of it ended, an ended task was linked to it or
      the session ended. */
  lemma {:induction false} EndsAreTold(trace: seq<State>, steps: seq<Step>, n: nat, c: nat)
    requires IsRun(trace, steps) && n <= |steps|
    ensures c in trace[n].ended <==> exists k :: 0 <= k < n && EndsCall(trace[k], steps[k], c)
  {
    if n > 0 {
      EndsAreTold(trace, steps, n - 1, c);
      Told(trace, steps, n - 1, 0, c);
    }
  }

  /** What an event that is not a roster adds to the log. */
  function Facts(s: State, ev: Event): seq<Fact>
    requires !ev.Roster?
  {
    match ev
    case ToolStart(call, agent, _) => if agent && call != 0 then [Observed(call)] else []
    case ToolUpdate(call, final) => if final && call in s.launchers then [Result(call)] else []
    case ToolDenied(call, lost) => if call in s.launchers && call != 0 && !lost then [Denied(call)] else []
    case TaskUpdated(seen, hasStatus) =>
      if !Readable(seen) then [] else if hasStatus then [TaskObserved(seen.task), TaskOutcome(seen.task)] else [TaskObserved(seen.task)]
    case _ => RowFacts(Rows(ev))
  }

  /** Each event is logged once, as what it told. */
  lemma EventLogs(s: State, ev: Event, ids: seq<nat>)
    requires !ev.Roster?
    ensures Observe(s, ev, ids).log == s.log + Facts(s, ev)
  {
    if ev.TaskStarted? || ev.TaskProgress? {
      OneRow(s, Rows(ev)[0]);
      IdentifyAllDoes(s, Rows(ev), 0, 0);
    }
  }
}
