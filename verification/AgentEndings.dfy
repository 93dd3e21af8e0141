/** Agent calls and background tasks of one producer lifetime: what is observed of them, and how a session ending and
    a complete roster close what is still open. Ids are numbers in the order of their names; 0 is the empty id. */
module AgentEndings {

  /** call is the linked launching call, 0 if none. */
  datatype Task = Task(call: nat, ended: bool)

  datatype Cause = Gone | SessionEnded

  datatype Fact =
    | Observed(call: nat)
    | Result(call: nat)
    | Denied(call: nat)
    | TaskObserved(task: nat)
    | TaskLinked(task: nat, call: nat)
    | TaskOutcome(task: nat)
    | Closed(cause: Cause, task: nat, call: nat)

  /** calls maps an observed call to whether its result was reported. launchers are the calls known to spawn agents.
      ended are the calls whose work is over. */
  datatype State = State(calls: map<nat, bool>, tasks: map<nat, Task>, ended: set<nat>, launchers: set<nat>, log: seq<Fact>)

  const INITIAL: State := State(map[], map[], {}, {}, [])

  /** A roster row; lost fields were cut from the report. */
  datatype Seen = Seen(task: nat, call: nat, lostTask: bool, lostCall: bool)

  datatype Event =
    | ToolStart(call: nat, agent: bool, remembered: bool)
    | ToolUpdate(call: nat, final: bool)
    | ToolDenied(call: nat, lost: bool)
    | TaskStarted(seen: Seen)
    | TaskUpdated(seen: Seen, hasStatus: bool)
    | TaskProgress(seen: Seen)
    | Roster(rows: seq<Seen>, dropped: nat)

  function Say(s: State, fact: Fact): State {
    s.(log := s.log + [fact])
  }

  predicate Readable(seen: Seen) {
    seen.task != 0 && !seen.lostTask
  }

  function Link(s: State, t: nat, call: nat): State
    requires t in s.tasks
  {
    var s1 := s.(tasks := s.tasks[t := s.tasks[t].(call := call)]);
    var s2 := if s.tasks[t].ended then s1.(ended := s.ended + {call}) else s1;
    Say(s2, TaskLinked(t, call))
  }

  /** observeTaskIdentity. */
  function Identify(s: State, seen: Seen): State {
    if !Readable(seen) then s
    else
      var s1 := if seen.task in s.tasks then s else s.(tasks := s.tasks[seen.task := Task(0, false)]);
      var s2 := Say(s1, TaskObserved(seen.task));
      if seen.call != 0 && !seen.lostCall then Link(s2, seen.task, seen.call) else s2
  }

  /** The task is over, and with it its call. */
  function Finish(s: State, t: nat): State
    requires t in s.tasks
  {
    s.(tasks := s.tasks[t := s.tasks[t].(ended := true)],
       ended := if s.tasks[t].call != 0 then s.ended + {s.tasks[t].call} else s.ended)
  }

  predicate Open(s: State, t: nat) {
    t in s.tasks && !s.tasks[t].ended && s.tasks[t].call !in s.ended
  }

  function CloseTask(s: State, t: nat, cause: Cause): State
    requires t in s.tasks
  {
    Say(Finish(s, t), Closed(cause, t, s.tasks[t].call))
  }

  predicate Complete(rows: seq<Seen>, dropped: nat) {
    dropped == 0 && forall i :: 0 <= i < |rows| ==> Readable(rows[i])
  }

  predicate Present(rows: seq<Seen>, t: nat) {
    exists i :: 0 <= i < |rows| && rows[i].task == t
  }

  predicate Missing(s: State, rows: seq<Seen>, t: nat) {
    Open(s, t) && s.tasks[t].call in s.calls && !Present(rows, t)
  }

  /** The inference over the listed tasks, in order. */
  function GoneOver(s: State, rows: seq<Seen>, ids: seq<nat>): State {
    if ids == [] then s
    else
      var s1 := GoneOver(s, rows, ids[..|ids| - 1]);
      var t := ids[|ids| - 1];
      if Missing(s1, rows, t) then CloseTask(s1, t, Gone) else s1
  }

  function IdentifyAll(s: State, rows: seq<Seen>): State {
    if rows == [] then s else Identify(IdentifyAll(s, rows[..|rows| - 1]), rows[|rows| - 1])
  }

  /** ids is the sorted list of known tasks. */
  function Observe(s: State, ev: Event, ids: seq<nat>): State {
    match ev
    case ToolStart(call, agent, remembered) =>
      if call == 0 || !agent then s
      else
        var s1 := Say(s.(calls := s.calls[call := call in s.calls && s.calls[call]]), Observed(call));
        if remembered then s1.(launchers := s1.launchers + {call}) else s1
    case ToolUpdate(call, final) =>
      if call !in s.launchers || !final then s else Say(s.(calls := s.calls[call := true]), Result(call))
    case ToolDenied(call, lost) =>
      if call == 0 || lost then s
      else
        var s1 := s.(ended := s.ended + {call});
        if call in s.launchers then Say(s1, Denied(call)) else s1
    case TaskStarted(seen) => Identify(s, seen)
    case TaskProgress(seen) => Identify(s, seen.(call := 0))
    case TaskUpdated(seen, hasStatus) =>
      var s1 := Identify(s, seen.(call := 0));
      if Readable(seen) && hasStatus && seen.task in s1.tasks then Say(Finish(s1, seen.task), TaskOutcome(seen.task)) else s1
    case Roster(rows, dropped) =>
      IdentifyAll(if Complete(rows, dropped) then GoneOver(s, rows, ids) else s, rows)
  }

  /** endAgentWork: tasks before the remaining calls, each group in order. */
  function EndTasks(s: State, ids: seq<nat>): State {
    if ids == [] then s
    else
      var s1 := EndTasks(s, ids[..|ids| - 1]);
      var t := ids[|ids| - 1];
      if Open(s1, t) then CloseTask(s1, t, SessionEnded) else s1
  }

  function EndCall(s: State, c: nat): State {
    if c in s.ended || c !in s.calls then s
    else
      var s1 := s.(ended := s.ended + {c});
      if s.calls[c] then s1 else Say(s1, Closed(SessionEnded, 0, c))
  }

  function EndCalls(s: State, ids: seq<nat>): State {
    if ids == [] then s else EndCall(EndCalls(s, ids[..|ids| - 1]), ids[|ids| - 1])
  }

  function End(s: State, tasks: seq<nat>, calls: seq<nat>): State {
    EndCalls(EndTasks(s, tasks), calls)
  }

  ghost predicate Sorted(ids: seq<nat>, which: set<nat>) {
    && (forall x :: x in which <==> x in ids)
    && (forall i, j :: 0 <= i < j < |ids| ==> ids[i] < ids[j])
  }

  // ---------------------------------------------------------------- invariant

  /** How often the log closes the task, or the call, by inference or by a session ending. */
  function TaskClosings(log: seq<Fact>, t: nat): nat {
    if log == [] then 0
    else TaskClosings(log[..|log| - 1], t) + (if log[|log| - 1].Closed? && log[|log| - 1].task == t then 1 else 0)
  }

  function CallClosings(log: seq<Fact>, c: nat): nat {
    if log == [] then 0
    else CallClosings(log[..|log| - 1], c) + (if log[|log| - 1].Closed? && log[|log| - 1].call == c then 1 else 0)
  }

  /** Each id is closed at most once, and what was closed stays ended. */
  ghost predicate Inv(s: State) {
    && 0 !in s.calls && 0 !in s.ended && 0 !in s.launchers && 0 !in s.tasks
    && (forall t :: t != 0 ==> TaskClosings(s.log, t) <= (if t in s.tasks && s.tasks[t].ended then 1 else 0))
    && (forall c :: c != 0 ==> CallClosings(s.log, c) <= (if c in s.ended then 1 else 0))
  }

  lemma SayCounts(s: State, fact: Fact, x: nat)
    ensures TaskClosings(Say(s, fact).log, x) == TaskClosings(s.log, x) + (if fact.Closed? && fact.task == x then 1 else 0)
    ensures CallClosings(Say(s, fact).log, x) == CallClosings(s.log, x) + (if fact.Closed? && fact.call == x then 1 else 0)
  {
    assert (s.log + [fact])[..|s.log|] == s.log;
  }

  /** Tasks and calls only end, and what has ended is not closed again. */
  ghost predicate Later(s: State, s': State) {
    && s.ended <= s'.ended && s.launchers <= s'.launchers && s.log <= s'.log
    && (forall c :: c in s.calls ==> c in s'.calls && (s.calls[c] ==> s'.calls[c]))
    && (forall t :: t in s.tasks ==> t in s'.tasks && (s.tasks[t].ended ==> s'.tasks[t].ended))
    && (forall t :: t in s.tasks && t != 0 && s.tasks[t].ended ==> TaskClosings(s'.log, t) == TaskClosings(s.log, t))
    && (forall c :: c in s.ended && c != 0 ==> CallClosings(s'.log, c) == CallClosings(s.log, c))
  }

  lemma LaterTrans(a: State, b: State, c: State)
    requires Later(a, b) && Later(b, c)
    ensures Later(a, c)
  {
  }

  lemma SayKeeps(s: State, fact: Fact)
    requires Inv(s) && !fact.Closed?
    ensures Inv(Say(s, fact)) && Later(s, Say(s, fact))
  {
    forall x ensures TaskClosings(Say(s, fact).log, x) == TaskClosings(s.log, x) && CallClosings(Say(s, fact).log, x) == CallClosings(s.log, x) {
      SayCounts(s, fact, x);
    }
  }

  /** Ending more and learning more keeps the invariant. */
  lemma GrowKeeps(s: State, s': State)
    requires Inv(s) && Later(s, s') && s'.log == s.log
    requires 0 !in s'.calls && 0 !in s'.ended && 0 !in s'.launchers && 0 !in s'.tasks
    ensures Inv(s')
  {
  }

  lemma CloseTaskKeeps(s: State, t: nat, cause: Cause)
    requires Inv(s) && Open(s, t)
    ensures Inv(CloseTask(s, t, cause)) && Later(s, CloseTask(s, t, cause))
  {
    var fact, s1 := Closed(cause, t, s.tasks[t].call), Finish(s, t);
    forall x: nat ensures TaskClosings(Say(s1, fact).log, x) == TaskClosings(s.log, x) + (if t == x then 1 else 0)
      ensures CallClosings(Say(s1, fact).log, x) == CallClosings(s.log, x) + (if s.tasks[t].call == x then 1 else 0)
    {
      SayCounts(s1, fact, x);
    }
  }

  lemma EndCallKeeps(s: State, c: nat)
    requires Inv(s)
    ensures Inv(EndCall(s, c)) && Later(s, EndCall(s, c))
  {
    if c in s.calls && c !in s.ended {
      var s1 := s.(ended := s.ended + {c});
      if !s.calls[c] {
        forall x: nat ensures TaskClosings(EndCall(s, c).log, x) == TaskClosings(s.log, x) + (if 0 == x then 1 else 0)
          ensures CallClosings(EndCall(s, c).log, x) == CallClosings(s.log, x) + (if c == x then 1 else 0)
        {
          SayCounts(s1, Closed(SessionEnded, 0, c), x);
        }
      }
    }
  }

  lemma LaterSelf(s: State)
    ensures Later(s, s)
  {
  }

  lemma LinkKeeps(s: State, t: nat, call: nat)
    requires Inv(s) && t in s.tasks && call != 0
    ensures Inv(Link(s, t, call)) && Later(s, Link(s, t, call))
  {
    var s1 := s.(tasks := s.tasks[t := s.tasks[t].(call := call)]);
    var s2 := if s.tasks[t].ended then s1.(ended := s.ended + {call}) else s1;
    GrowKeeps(s, s2);
    SayKeeps(s2, TaskLinked(t, call));
    LaterTrans(s, s2, Link(s, t, call));
  }

  lemma IdentifyKeeps(s: State, seen: Seen)
    requires Inv(s)
    ensures Inv(Identify(s, seen)) && Later(s, Identify(s, seen)) && (Readable(seen) ==> seen.task in Identify(s, seen).tasks)
  {
    LaterSelf(s);
    if Readable(seen) {
      var s1 := if seen.task in s.tasks then s else s.(tasks := s.tasks[seen.task := Task(0, false)]);
      GrowKeeps(s, s1);
      SayKeeps(s1, TaskObserved(seen.task));
      var s2 := Say(s1, TaskObserved(seen.task));
      LaterTrans(s, s1, s2);
      if seen.call != 0 && !seen.lostCall {
        LinkKeeps(s2, seen.task, seen.call);
        LaterTrans(s, s2, Link(s2, seen.task, seen.call));
      }
    }
  }

  lemma {:induction false} IdentifyAllKeeps(s: State, rows: seq<Seen>)
    requires Inv(s)
    ensures Inv(IdentifyAll(s, rows)) && Later(s, IdentifyAll(s, rows))
  {
    LaterSelf(s);
    if rows != [] {
      var s1 := IdentifyAll(s, rows[..|rows| - 1]);
      IdentifyAllKeeps(s, rows[..|rows| - 1]);
      IdentifyKeeps(s1, rows[|rows| - 1]);
      LaterTrans(s, s1, IdentifyAll(s, rows));
    }
  }

  lemma {:induction false} GoneKeeps(s: State, rows: seq<Seen>, ids: seq<nat>)
    requires Inv(s)
    ensures Inv(GoneOver(s, rows, ids)) && Later(s, GoneOver(s, rows, ids))
    ensures GoneOver(s, rows, ids).calls == s.calls && GoneOver(s, rows, ids).tasks.Keys == s.tasks.Keys
  {
    LaterSelf(s);
    if ids != [] {
      var s1, t := GoneOver(s, rows, ids[..|ids| - 1]), ids[|ids| - 1];
      GoneKeeps(s, rows, ids[..|ids| - 1]);
      if Missing(s1, rows, t) {
        CloseTaskKeeps(s1, t, Gone);
        LaterTrans(s, s1, GoneOver(s, rows, ids));
      }
    }
  }

  lemma FinishKeeps(s: State, t: nat)
    requires Inv(s) && t in s.tasks
    ensures Inv(Say(Finish(s, t), TaskOutcome(t))) && Later(s, Say(Finish(s, t), TaskOutcome(t)))
  {
    GrowKeeps(s, Finish(s, t));
    SayKeeps(Finish(s, t), TaskOutcome(t));
    LaterTrans(s, Finish(s, t), Say(Finish(s, t), TaskOutcome(t)));
  }

  lemma CallEventKeeps(s: State, ev: Event, ids: seq<nat>)
    requires Inv(s) && (ev.ToolStart? || ev.ToolUpdate? || ev.ToolDenied?)
    ensures Inv(Observe(s, ev, ids)) && Later(s, Observe(s, ev, ids))
  {
    LaterSelf(s);
    var s' := Observe(s, ev, ids);
    if s'.log != s.log {
      var s1 := s'.(log := s.log);
      GrowKeeps(s, s1);
      SayKeeps(s1, s'.log[|s.log|]);
      assert Say(s1, s'.log[|s.log|]) == s';
      LaterTrans(s, s1, s');
    } else {
      GrowKeeps(s, s');
    }
  }

  lemma ObserveKeeps(s: State, ev: Event, ids: seq<nat>)
    requires Inv(s)
    ensures Inv(Observe(s, ev, ids)) && Later(s, Observe(s, ev, ids))
  {
    match ev {
      case TaskStarted(seen) => IdentifyKeeps(s, seen);
      case TaskProgress(seen) => IdentifyKeeps(s, seen.(call := 0));
      case TaskUpdated(seen, hasStatus) =>
        IdentifyKeeps(s, seen.(call := 0));
        var s1 := Identify(s, seen.(call := 0));
        if Readable(seen) && hasStatus {
          FinishKeeps(s1, seen.task);
          LaterTrans(s, s1, Observe(s, ev, ids));
        }
      case Roster(rows, dropped) =>
        LaterSelf(s);
        GoneKeeps(s, rows, ids);
        var s1 := if Complete(rows, dropped) then GoneOver(s, rows, ids) else s;
        IdentifyAllKeeps(s1, rows);
        LaterTrans(s, s1, Observe(s, ev, ids));
      case _ => CallEventKeeps(s, ev, ids);
    }
  }

  lemma {:induction false} EndTasksKeeps(s: State, ids: seq<nat>)
    requires Inv(s)
    ensures Inv(EndTasks(s, ids)) && Later(s, EndTasks(s, ids)) && EndTasks(s, ids).calls == s.calls
  {
    LaterSelf(s);
    if ids != [] {
      var s1, t := EndTasks(s, ids[..|ids| - 1]), ids[|ids| - 1];
      EndTasksKeeps(s, ids[..|ids| - 1]);
      if Open(s1, t) {
        CloseTaskKeeps(s1, t, SessionEnded);
        LaterTrans(s, s1, EndTasks(s, ids));
      }
    }
  }

  lemma {:induction false} EndCallsKeeps(s: State, ids: seq<nat>)
    requires Inv(s)
    ensures Inv(EndCalls(s, ids)) && Later(s, EndCalls(s, ids)) && EndCalls(s, ids).calls == s.calls && EndCalls(s, ids).tasks == s.tasks
    ensures forall c :: c in ids && c in s.calls ==> c in EndCalls(s, ids).ended
  {
    LaterSelf(s);
    if ids != [] {
      var n := |ids| - 1;
      var s1 := EndCalls(s, ids[..n]);
      EndCallsKeeps(s, ids[..n]);
      EndCallKeeps(s1, ids[n]);
      LaterTrans(s, s1, EndCalls(s, ids));
      assert ids == ids[..n] + [ids[n]];
    }
  }

  lemma EndKeeps(s: State, tasks: seq<nat>, calls: seq<nat>)
    requires Inv(s)
    ensures Inv(End(s, tasks, calls)) && Later(s, End(s, tasks, calls))
  {
    EndTasksKeeps(s, tasks);
    EndCallsKeeps(EndTasks(s, tasks), calls);
    LaterTrans(s, EndTasks(s, tasks), End(s, tasks, calls));
  }

  // ---------------------------------------------------------------- every history

  datatype Step = Sees(ev: Event, ids: seq<nat>) | Ends(tasks: seq<nat>, calls: seq<nat>)

  ghost function Apply(s: State, step: Step): State {
    match step
    case Sees(ev, ids) => if Sorted(ids, s.tasks.Keys) then Observe(s, ev, ids) else s
    case Ends(tasks, calls) => if Sorted(tasks, s.tasks.Keys) && Sorted(calls, s.calls.Keys) then End(s, tasks, calls) else s
  }

  ghost function Run(s: State, steps: seq<Step>): State {
    if steps == [] then s else Apply(Run(s, steps[..|steps| - 1]), steps[|steps| - 1])
  }

  lemma {:induction false} RunKeeps(s: State, steps: seq<Step>)
    requires Inv(s)
    ensures Inv(Run(s, steps)) && Later(s, Run(s, steps))
  {
    LaterSelf(s);
    if steps != [] {
      var n := |steps| - 1;
      var s1 := Run(s, steps[..n]);
      RunKeeps(s, steps[..n]);
      LaterSelf(s1);
      match steps[n] {
        case Sees(ev, ids) => ObserveKeeps(s1, ev, ids);
        case Ends(tasks, calls) => EndKeeps(s1, tasks, calls);
      }
      LaterTrans(s, s1, Run(s, steps));
    }
  }

  /** Over a whole lifetime, with any number of rosters and endings, a task is closed by inference or by an ending at
      most once, and so is a call; whatever was closed counts as ended from then on. */
  lemma ClosedAtMostOnce(steps: seq<Step>, id: nat)
    requires id != 0
    ensures var s := Run(INITIAL, steps);
      && TaskClosings(s.log, id) <= 1 && (TaskClosings(s.log, id) == 1 ==> id in s.tasks && s.tasks[id].ended)
      && CallClosings(s.log, id) <= 1 && (CallClosings(s.log, id) == 1 ==> id in s.ended)
  {
    RunKeeps(INITIAL, steps);
  }

  /** A task whose outcome was reported, or that ended otherwise, is not closed again whatever follows; nor is a call. */
  lemma EndedStaysQuiet(s: State, steps: seq<Step>, id: nat)
    requires Inv(s)
    ensures id in s.tasks && s.tasks[id].ended ==> TaskClosings(Run(s, steps).log, id) == TaskClosings(s.log, id)
    ensures id in s.ended ==> CallClosings(Run(s, steps).log, id) == CallClosings(s.log, id)
  {
    RunKeeps(s, steps);
  }

  // ---------------------------------------------------------------- what a roster infers

  /** New entries of the log close nothing. */
  predicate ClosesNothing(log: seq<Fact>, log': seq<Fact>) {
    log <= log' && forall i :: |log| <= i < |log'| ==> !log'[i].Closed?
  }

  lemma {:induction false} IdentifyClosesNothing(s: State, rows: seq<Seen>)
    ensures ClosesNothing(s.log, IdentifyAll(s, rows).log)
  {
    if rows != [] {
      IdentifyClosesNothing(s, rows[..|rows| - 1]);
    }
  }

  /** Every inference of the roster is about a task that was missing when the roster came. */
  ghost predicate Inferred(s: State, rows: seq<Seen>, s': State) {
    && s.log <= s'.log && s.ended <= s'.ended && s'.calls == s.calls && s'.tasks.Keys == s.tasks.Keys
    && (forall t :: t in s.tasks ==> s'.tasks[t].call == s.tasks[t].call && (s.tasks[t].ended ==> s'.tasks[t].ended))
    && (forall i :: |s.log| <= i < |s'.log| ==>
          && s'.log[i].Closed? && s'.log[i].cause == Gone && Missing(s, rows, s'.log[i].task)
          && s'.log[i].call == s.tasks[s'.log[i].task].call)
  }

  lemma {:induction false} GoneInferred(s: State, rows: seq<Seen>, ids: seq<nat>)
    ensures Inferred(s, rows, GoneOver(s, rows, ids))
  {
    if ids != [] {
      GoneInferred(s, rows, ids[..|ids| - 1]);
      var s1, t := GoneOver(s, rows, ids[..|ids| - 1]), ids[|ids| - 1];
      if Missing(s1, rows, t) {
        assert Missing(s, rows, t);
      }
    }
  }

  /** A task is inferred gone only from a complete roster that leaves it out, while it is linked to an observed call and
      neither it nor that call has ended. */
  lemma GoneOnlyFromCompleteRoster(s: State, ev: Event, ids: seq<nat>, i: nat)
    requires |s.log| <= i < |Observe(s, ev, ids).log| && Observe(s, ev, ids).log[i].Closed?
    ensures ev.Roster? && Complete(ev.rows, ev.dropped)
    ensures var t := Observe(s, ev, ids).log[i].task;
      && Open(s, t) && s.tasks[t].call in s.calls && !Present(ev.rows, t)
      && Observe(s, ev, ids).log[i] == Closed(Gone, t, s.tasks[t].call)
  {
    if ev.Roster? {
      GoneInferred(s, ev.rows, ids);
      var s1 := if Complete(ev.rows, ev.dropped) then GoneOver(s, ev.rows, ids) else s;
      IdentifyClosesNothing(s1, ev.rows);
      assert Observe(s, ev, ids).log[i] == s1.log[i];
    } else {
      OthersCloseNothing(s, ev, ids);
    }
  }

  lemma IdentifyOneClosesNothing(s: State, seen: Seen)
    ensures ClosesNothing(s.log, Identify(s, seen).log)
  {
  }

  lemma OthersCloseNothing(s: State, ev: Event, ids: seq<nat>)
    requires !ev.Roster?
    ensures ClosesNothing(s.log, Observe(s, ev, ids).log)
  {
    match ev {
      case TaskStarted(seen) => IdentifyOneClosesNothing(s, seen);
      case TaskProgress(seen) => IdentifyOneClosesNothing(s, seen.(call := 0));
      case TaskUpdated(seen, _) => IdentifyOneClosesNothing(s, seen.(call := 0));
      case _ =>
    }
  }

  // ---------------------------------------------------------------- what an ending reports

  /** An earlier open task of the same call speaks for it. */
  predicate SpokenFor(s: State, ids: seq<nat>, i: nat, c: nat) {
    c != 0 && exists j :: 0 <= j < i && j < |ids| && Open(s, ids[j]) && s.tasks[ids[j]].call == c
  }

  /** After the first i tasks: the calls of the open ones among them have ended, and the rest is as it was. */
  ghost predicate TasksTo(s: State, s': State, ids: seq<nat>, i: nat)
    requires i <= |ids|
  {
    && s'.calls == s.calls && s'.launchers == s.launchers && s'.tasks.Keys == s.tasks.Keys
    && (forall t :: t in s.tasks ==> s'.tasks[t].call == s.tasks[t].call)
    && (forall c :: c in s'.ended <==> c in s.ended || SpokenFor(s, ids, i, c))
    && (forall j :: i <= j < |ids| && ids[j] in s.tasks ==> s'.tasks[ids[j]] == s.tasks[ids[j]])
    && (forall j :: 0 <= j < i && ids[j] in s.tasks ==> s'.tasks[ids[j]].ended || s.tasks[ids[j]].call in s'.ended)
  }

  /** The task at position i is reported: it is open and no earlier open task shares its call. */
  predicate Reports(s: State, ids: seq<nat>, i: nat)
    requires i < |ids|
  {
    Open(s, ids[i]) && !SpokenFor(s, ids, i, s.tasks[ids[i]].call)
  }

  lemma TaskStep(s: State, s1: State, ids: seq<nat>, i: nat)
    requires Inv(s) && i < |ids| && TasksTo(s, s1, ids, i) && forall a, b :: 0 <= a < b < |ids| ==> ids[a] < ids[b]
    ensures Open(s1, ids[i]) <==> Reports(s, ids, i)
    ensures TasksTo(s, if Open(s1, ids[i]) then CloseTask(s1, ids[i], SessionEnded) else s1, ids, i + 1)
  {
    var t := ids[i];
    var s2 := if Open(s1, t) then CloseTask(s1, t, SessionEnded) else s1;
    forall c ensures c in s2.ended <==> c in s.ended || SpokenFor(s, ids, i + 1, c) {
      if c != 0 && Open(s, t) && s.tasks[t].call == c {
        assert SpokenFor(s, ids, i + 1, c);
      }
      assert SpokenFor(s, ids, i, c) ==> SpokenFor(s, ids, i + 1, c);
    }
  }

  lemma {:induction false} TasksRun(s: State, ids: seq<nat>, i: nat)
    requires Inv(s) && i <= |ids| && forall a, b :: 0 <= a < b < |ids| ==> ids[a] < ids[b]
    ensures TasksTo(s, EndTasks(s, ids[..i]), ids, i)
  {
    if i > 0 {
      TasksRun(s, ids, i - 1);
      TaskStep(s, EndTasks(s, ids[..i - 1]), ids, i - 1);
      assert ids[..i][..i - 1] == ids[..i - 1];
    }
  }

  /** After an ending every observed call has ended and every task has, itself or through its call. */
  lemma EndingLeavesNothingOpen(s: State, tasks: seq<nat>, calls: seq<nat>)
    requires Inv(s) && Sorted(tasks, s.tasks.Keys) && Sorted(calls, s.calls.Keys)
    ensures var s' := End(s, tasks, calls);
      && s'.calls == s.calls && s'.tasks.Keys == s.tasks.Keys
      && (forall c :: c in s'.calls ==> c in s'.ended) && (forall t :: t in s'.tasks ==> !Open(s', t))
  {
    EndTasksKeeps(s, tasks);
    TasksRun(s, tasks, |tasks|);
    assert tasks[..|tasks|] == tasks;
    var s1 := EndTasks(s, tasks);
    EndCallsKeeps(s1, calls);
    forall t | t in s1.tasks ensures s1.tasks[t].ended || s1.tasks[t].call in s1.ended {
      assert t in tasks;
      var j :| 0 <= j < |tasks| && tasks[j] == t;
    }
  }

  /** A second ending right after the first reports nothing and changes nothing. */
  lemma SecondEndingIsSilent(s: State, tasks: seq<nat>, calls: seq<nat>)
    requires Inv(s) && Sorted(tasks, s.tasks.Keys) && Sorted(calls, s.calls.Keys)
    ensures End(End(s, tasks, calls), tasks, calls) == End(s, tasks, calls)
  {
    EndingLeavesNothingOpen(s, tasks, calls);
    var s' := End(s, tasks, calls);
    QuietTasks(s', tasks);
    QuietCalls(s', calls);
  }

  lemma {:induction false} QuietTasks(s: State, ids: seq<nat>)
    requires forall t :: t in s.tasks ==> !Open(s, t)
    ensures EndTasks(s, ids) == s
  {
    if ids != [] {
      QuietTasks(s, ids[..|ids| - 1]);
    }
  }

  lemma {:induction false} QuietCalls(s: State, ids: seq<nat>)
    requires forall c :: c in s.calls ==> c in s.ended
    ensures EndCalls(s, ids) == s
  {
    if ids != [] {
      QuietCalls(s, ids[..|ids| - 1]);
    }
  }

  /** The reports of the first i tasks, in order. */
  function TaskReports(s: State, ids: seq<nat>, i: nat): seq<Fact>
    requires i <= |ids|
  {
    if i == 0 then []
    else TaskReports(s, ids, i - 1)
         + (if Reports(s, ids, i - 1) then [Closed(SessionEnded, ids[i - 1], s.tasks[ids[i - 1]].call)] else [])
  }

  /** A call is reported when it has not ended, no open task speaks for it and it has no result of its own. */
  predicate ReportsCall(s: State, tasks: seq<nat>, c: nat) {
    c in s.calls && c !in s.ended && !SpokenFor(s, tasks, |tasks|, c) && !s.calls[c]
  }

  function CallReports(s: State, tasks: seq<nat>, calls: seq<nat>, i: nat): seq<Fact>
    requires i <= |calls|
  {
    if i == 0 then []
    else CallReports(s, tasks, calls, i - 1) + (if ReportsCall(s, tasks, calls[i - 1]) then [Closed(SessionEnded, 0, calls[i - 1])] else [])
  }

  lemma {:induction false} TaskLog(s: State, ids: seq<nat>, i: nat)
    requires Inv(s) && i <= |ids| && forall a, b :: 0 <= a < b < |ids| ==> ids[a] < ids[b]
    ensures EndTasks(s, ids[..i]).log == s.log + TaskReports(s, ids, i)
  {
    if i > 0 {
      TaskLog(s, ids, i - 1);
      TasksRun(s, ids, i - 1);
      TaskStep(s, EndTasks(s, ids[..i - 1]), ids, i - 1);
      assert ids[..i][..i - 1] == ids[..i - 1];
    }
  }

  lemma {:induction false} CallLog(s: State, s1: State, tasks: seq<nat>, calls: seq<nat>, i: nat)
    requires TasksTo(s, s1, tasks, |tasks|) && i <= |calls| && forall a, b :: 0 <= a < b < |calls| ==> calls[a] < calls[b]
    ensures var s2 := EndCalls(s1, calls[..i]);
      && s2.log == s1.log + CallReports(s, tasks, calls, i) && s2.calls == s.calls
      && (forall j :: i <= j < |calls| ==> (calls[j] in s2.ended <==> calls[j] in s1.ended))
  {
    if i > 0 {
      CallLog(s, s1, tasks, calls, i - 1);
      assert calls[..i][..i - 1] == calls[..i - 1];
      var c := calls[i - 1];
      assert c in s1.ended <==> c in s.ended || SpokenFor(s, tasks, |tasks|, c);
    } else {
      assert calls[..0] == [];
    }
  }

  /** Exactly what an ending reports: every open task that no earlier open task of its call speaks for, then every call
      without a result that neither has ended nor is spoken for; in id order, each once. */
  lemma EndingReports(s: State, tasks: seq<nat>, calls: seq<nat>)
    requires Inv(s) && Sorted(tasks, s.tasks.Keys) && Sorted(calls, s.calls.Keys)
    ensures End(s, tasks, calls).log == s.log + TaskReports(s, tasks, |tasks|) + CallReports(s, tasks, calls, |calls|)
  {
    TaskLog(s, tasks, |tasks|);
    TasksRun(s, tasks, |tasks|);
    assert tasks[..|tasks|] == tasks && calls[..|calls|] == calls;
    CallLog(s, EndTasks(s, tasks), tasks, calls, |calls|);
  }

  // ---------------------------------------------------------------- the source's agent state

  method SortIds(which: set<nat>) returns (ids: seq<nat>)
    ensures Sorted(ids, which)
  {
    ids := [];
    var todo := which;
    while todo != {}
      invariant todo <= which
      invariant forall x :: x in ids <==> x in which && x !in todo
      invariant forall i, j :: 0 <= i < j < |ids| ==> ids[i] < ids[j]
      invariant forall i, x :: 0 <= i < |ids| && x in todo ==> ids[i] < x
      decreases |todo|
    {
      var least := Least(todo);
      ids := ids + [least];
      todo := todo - {least};
    }
  }

  method Least(which: set<nat>) returns (least: nat)
    requires which != {}
    ensures least in which && forall x :: x in which ==> least <= x
  {
    least :| least in which;
    var rest := which - {least};
    while rest != {}
      invariant least in which && rest <= which && forall x :: x in which && x !in rest ==> least <= x
      decreases |rest|
    {
      var x :| x in rest;
      if x < least {
        least := x;
      }
      rest := rest - {x};
    }
  }

  class Agents {
    var calls: map<nat, bool>
    var tasks: map<nat, Task>
    var ended: set<nat>
    var launchers: set<nat>
    var log: seq<Fact>

    ghost function View(): State
      reads this
    {
      State(calls, tasks, ended, launchers, log)
    }

    ghost predicate Valid()
      reads this
    {
      Inv(View())
    }

    constructor ()
      ensures Valid() && View() == INITIAL
    {
      calls, tasks, ended, launchers, log := map[], map[], {}, {}, [];
    }

    method Close(t: nat, cause: Cause)
      requires t in tasks
      modifies this`tasks, this`ended, this`log
      ensures View() == CloseTask(old(View()), t, cause)
    {
      var task := tasks[t];
      log := log + [Closed(cause, t, task.call)];
      tasks := tasks[t := task.(ended := true)];
      if task.call != 0 {
        ended := ended + {task.call};
      }
    }

    /** The first loop of endAgentWork: open tasks, in order. */
    method EndOpenTasks(ids: seq<nat>)
      modifies this`tasks, this`ended, this`log
      ensures View() == EndTasks(old(View()), ids)
    {
      ghost var s := View();
      for i := 0 to |ids|
        invariant View() == EndTasks(s, ids[..i])
      {
        assert ids[..i + 1][..i] == ids[..i];
        if ids[i] in tasks && !tasks[ids[i]].ended && tasks[ids[i]].call !in ended {
          Close(ids[i], SessionEnded);
        }
      }
      assert ids[..|ids|] == ids;
    }

    /** The second loop: the calls that are left, in order. */
    method EndOpenCalls(ids: seq<nat>)
      modifies this`ended, this`log
      ensures View() == EndCalls(old(View()), ids)
    {
      ghost var s := View();
      for i := 0 to |ids|
        invariant View() == EndCalls(s, ids[..i])
      {
        assert ids[..i + 1][..i] == ids[..i];
        if ids[i] !in ended && ids[i] in calls {
          ended := ended + {ids[i]};
          if !calls[ids[i]] {
            log := log + [Closed(SessionEnded, 0, ids[i])];
          }
        }
      }
      assert ids[..|ids|] == ids;
    }

    /** endAgentWork. */
    method EndAgentWork() returns (ghost taskIds: seq<nat>, ghost callIds: seq<nat>)
      requires Valid()
      modifies this`tasks, this`ended, this`log
      ensures Sorted(taskIds, old(tasks).Keys) && Sorted(callIds, old(calls).Keys)
      ensures View() == End(old(View()), taskIds, callIds) && Valid()
      ensures forall c :: c in calls ==> c in ended
      ensures log == old(log) + TaskReports(old(View()), taskIds, |taskIds|) + CallReports(old(View()), taskIds, callIds, |callIds|)
    {
      ghost var s := View();
      var ids := SortIds(tasks.Keys);
      taskIds := ids;
      EndOpenTasks(ids);
      ids := SortIds(calls.Keys);
      callIds := ids;
      EndOpenCalls(ids);
      EndKeeps(s, taskIds, callIds);
      EndingLeavesNothingOpen(s, taskIds, callIds);
      EndingReports(s, taskIds, callIds);
    }

    /** observeGoneRoster. */
    method ObserveGoneRoster(rows: seq<Seen>, dropped: nat) returns (ghost ids: seq<nat>)
      requires Valid()
      modifies this`tasks, this`ended, this`log
      ensures Sorted(ids, old(tasks).Keys) && Valid()
      ensures View() == if Complete(rows, dropped) then GoneOver(old(View()), rows, ids) else old(View())
    {
      ghost var s := View();
      var order := SortIds(tasks.Keys);
      ids := order;
      if dropped != 0 {
        return;
      }
      var present: set<nat> := {};
      for i := 0 to |rows|
        invariant View() == s && forall j :: 0 <= j < i ==> Readable(rows[j])
        invariant forall t :: t in present <==> Present(rows[..i], t)
      {
        if rows[i].task == 0 || rows[i].lostTask {
          assert !Readable(rows[i]);
          return;
        }
        present := present + {rows[i].task};
        PresentNext(rows, i);
      }
      assert rows[..|rows|] == rows;
      GoneKeeps(s, rows, order);
      for i := 0 to |order|
        invariant View() == GoneOver(s, rows, order[..i])
      {
        assert order[..i + 1][..i] == order[..i];
        var t := order[i];
        if t in tasks && t !in present && tasks[t].call in calls && !tasks[t].ended && tasks[t].call !in ended {
          Close(t, Gone);
        }
      }
      assert order[..|order|] == order;
    }

    /** observeTaskIdentity. */
    method ObserveTaskIdentity(seen: Seen) returns (ok: bool)
      requires Valid()
      modifies this`tasks, this`ended, this`log
      ensures View() == Identify(old(View()), seen) && ok == Readable(seen) && Valid()
    {
      IdentifyKeeps(View(), seen);
      if seen.task == 0 || seen.lostTask {
        return false;
      }
      if seen.task !in tasks {
        tasks := tasks[seen.task := Task(0, false)];
      }
      log := log + [TaskObserved(seen.task)];
      if seen.call != 0 && !seen.lostCall {
        if tasks[seen.task].ended {
          ended := ended + {seen.call};
        }
        tasks := tasks[seen.task := tasks[seen.task].(call := seen.call)];
        log := log + [TaskLinked(seen.task, seen.call)];
      }
      ok := true;
    }

    /** The roster arm of observeAgentHistory: inference first, then this roster's own links. */
    method ObserveRoster(rows: seq<Seen>, dropped: nat) returns (ghost ids: seq<nat>)
      requires Valid()
      modifies this`tasks, this`ended, this`log
      ensures Sorted(ids, old(tasks).Keys) && View() == Observe(old(View()), Roster(rows, dropped), ids) && Valid()
    {
      ghost var s := View();
      ids := ObserveGoneRoster(rows, dropped);
      ghost var mid := View();
      for i := 0 to |rows|
        invariant View() == IdentifyAll(mid, rows[..i]) && Valid()
      {
        assert rows[..i + 1][..i] == rows[..i];
        var _ := ObserveTaskIdentity(rows[i]);
      }
      assert rows[..|rows|] == rows;
    }

    /** The tool arms of observeAgentHistory. */
    method ObserveCall(ev: Event)
      requires Valid() && (ev.ToolStart? || ev.ToolUpdate? || ev.ToolDenied?)
      modifies this
      ensures View() == Observe(old(View()), ev, []) && Valid()
    {
      CallEventKeeps(View(), ev, []);
      match ev {
        case ToolStart(call, agent, remembered) =>
          if call != 0 && agent {
            calls := calls[call := call in calls && calls[call]];
            log := log + [Observed(call)];
            if remembered {
              launchers := launchers + {call};
            }
          }
        case ToolUpdate(call, final) =>
          if call in launchers && final {
            calls := calls[call := true];
            log := log + [Result(call)];
          }
        case ToolDenied(call, lost) =>
          if call != 0 && !lost {
            ended := ended + {call};
            if call in launchers {
              log := log + [Denied(call)];
            }
          }
      }
    }

    /** The outcome arm: a reported status ends the task and its call. */
    method ObserveUpdate(seen: Seen, hasStatus: bool)
      requires Valid()
      modifies this
      ensures View() == Observe(old(View()), TaskUpdated(seen, hasStatus), []) && Valid()
    {
      ObserveKeeps(View(), TaskUpdated(seen, hasStatus), []);
      var ok := ObserveTaskIdentity(seen.(call := 0));
      if ok && hasStatus {
        var task := tasks[seen.task];
        tasks := tasks[seen.task := task.(ended := true)];
        if task.call != 0 {
          ended := ended + {task.call};
        }
        log := log + [TaskOutcome(seen.task)];
      }
    }
  }

  lemma PresentNext(rows: seq<Seen>, i: nat)
    requires i < |rows|
    ensures forall t :: Present(rows[..i + 1], t) <==> Present(rows[..i], t) || t == rows[i].task
  {
    forall t ensures Present(rows[..i + 1], t) <==> Present(rows[..i], t) || t == rows[i].task {
      assert rows[..i + 1] == rows[..i] + [rows[i]];
      if Present(rows[..i], t) {
        var j :| 0 <= j < |rows[..i]| && rows[..i][j].task == t;
        assert rows[..i + 1][j].task == t;
      }
      if t == rows[i].task {
        assert rows[..i + 1][i].task == t;
      }
    }
  }
}