/** Admission, draining and answering of one runner's Codex approval requests.
    Requests are numbered as they arrive. Each section of the approvals mutex, each registry call and each
    response section is one step. */
module CodexApprovals {
  import opened Common

  /** Where a request stands: still being handled, registered but not yet parked, parked for an answer,
      turned away in place, or past its response section. */
  datatype Stage = Handling | Registered | Parked | TurnedAway | Answered

  /** verdict: the one-shot registry entry is resolved. live: held in the runner's live table. */
  datatype Request = Request(stage: Stage, inHandle: bool, live: bool, verdict: bool, withdrawn: bool, answers: nat)

  /** One terminal drain. before is the set of requests admitted when it closed admission. */
  datatype Drain = Waiting(generation: nat, before: set<nat>) | Resolving(generation: nat, before: set<nat>, todo: set<nat>)

  datatype State = State(
    accepting: bool, handling: int, generation: nat, requests: map<nat, Request>, drains: seq<Drain>)

  const INITIAL: State := State(false, 0, 0, map[], [])

  datatype Step =
    | Open
    | Arrive(r: nat)                 // beginRequest; a refusal is answered synchronously
    | Decline(r: nat)                // handle cannot park the request
    | Register(r: nat)               // the registry accepts it
    | Park(r: nat)                   // it enters the live table and its await starts
    | EndRequest(r: nat)
    | Resolve(r: nat)                // an operator's answer or the request window
    | MarkWithdrawn(r: nat)          // Codex resolved it on its own
    | Respond(r: nat)                // await's response section
    | Forget(r: nat)                 // await removes the live entry
    | StartDrain
    | Snapshot(d: nat)               // the drain saw no handler in flight
    | DrainOne(d: nat, r: nat)
    | Reopen(generation: nat)

  // ---------------------------------------------------------------- steps

  function Put(s: State, r: nat, q: Request): State {
    s.(requests := s.requests[r := q])
  }

  /** One known request's own part of a step; steps that do not apply in its stage leave it alone. */
  function Moved(q: Request, step: Step): Request {
    match step
    case Decline(_) =>
      if q.stage.Handling? then q.(stage := TurnedAway, inHandle := false, answers := q.answers + 1) else q
    case Register(_) => if q.stage.Handling? then q.(stage := Registered) else q
    case Park(_) => if q.stage.Registered? then q.(stage := Parked, live := true) else q
    case EndRequest(_) => if q.stage.Parked? || q.stage.Answered? then q.(inHandle := false) else q
    case Resolve(_) => if q.stage.Registered? || q.stage.Parked? then q.(verdict := true) else q
    case MarkWithdrawn(_) => if q.stage.Parked? || q.stage.Answered? then q.(withdrawn := true) else q
    case Respond(_) =>
      if q.stage.Parked? && q.verdict
      then q.(stage := Answered, answers := q.answers + (if q.withdrawn then 0 else 1)) else q
    case Forget(_) => if q.stage.Answered? then q.(live := false) else q
    case _ => q
  }

  /** Moves a known request, leaving handle when its handler ends. */
  function Move(s: State, r: nat, step: Step): State {
    if r !in s.requests then s
    else
      var q := s.requests[r];
      var q' := Moved(q, step);
      Put(s, r, q').(handling := s.handling - (if q.inHandle && !q'.inHandle then 1 else 0))
  }

  function Apply(s: State, step: Step): State {
    match step
    case Open => s.(generation := s.generation + 1, accepting := true)
    case Arrive(r) =>
      if r in s.requests then s
      else if s.accepting then Put(s, r, Request(Handling, true, false, false, false, 0)).(handling := s.handling + 1)
      else Put(s, r, Request(TurnedAway, false, false, false, false, 1))
    case StartDrain =>
      s.(generation := s.generation + 1, accepting := false,
         drains := s.drains + [Waiting(s.generation + 1, Admitted(s))])
    case Snapshot(d) =>
      if d < |s.drains| && s.drains[d].Waiting? && s.handling == 0
      then s.(drains := s.drains[d := Resolving(s.drains[d].generation, s.drains[d].before, Live(s))]) else s
    case DrainOne(d, r) =>
      if d < |s.drains| && s.drains[d].Resolving? && r in s.drains[d].todo
      then Move(s, r, Resolve(r)).(drains := s.drains[d := s.drains[d].(todo := s.drains[d].todo - {r})]) else s
    case Reopen(g) => if g != 0 && s.generation == g then s.(accepting := true) else s
    case _ => Move(s, step.r, step)
  }

  /** The requests that joined some process lifecycle. */
  function Admitted(s: State): set<nat> {
    set r | r in s.requests && !(s.requests[r].stage.TurnedAway? && s.requests[r].answers == 1)
  }

  function Live(s: State): set<nat> {
    set r | r in s.requests && s.requests[r].live
  }

  function InHandle(s: State): set<nat> {
    set r | r in s.requests && s.requests[r].inHandle
  }

  function Run(s: State, steps: seq<Step>): State {
    if steps == [] then s else Apply(Run(s, steps[..|steps| - 1]), steps[|steps| - 1])
  }

  // ---------------------------------------------------------------- invariant

  /** Nothing more will be done for the request than to answer it once. */
  predicate RequestOk(q: Request) {
    match q.stage
    case Handling => q.inHandle && !q.live && !q.verdict && !q.withdrawn && q.answers == 0
    case Registered => q.inHandle && !q.live && !q.withdrawn && q.answers == 0
    case Parked => q.live && q.answers == 0
    case TurnedAway => !q.inHandle && !q.live && !q.verdict && !q.withdrawn && q.answers == 1
    case Answered => q.verdict && q.answers <= 1
  }

  /** Still waiting for somebody to resolve it. */
  predicate Unsettled(q: Request) {
    q.stage.Handling? || ((q.stage.Registered? || q.stage.Parked?) && !q.verdict)
  }

  predicate DrainOk(s: State, d: Drain) {
    && d.before <= s.requests.Keys
    && d.generation <= s.generation
    && (d.Resolving? ==> forall r :: r in d.before && Unsettled(s.requests[r]) ==> r in d.todo)
    && (d.Resolving? ==> forall r :: r in d.before ==> !s.requests[r].stage.Handling? && !s.requests[r].stage.Registered?)
  }

  ghost predicate Inv(s: State) {
    && (forall r :: r in s.requests ==> RequestOk(s.requests[r]))
    && s.handling == |InHandle(s)|
    && (forall i :: 0 <= i < |s.drains| ==> DrainOk(s, s.drains[i]))
  }

  /** A request only moves forward, and a withdrawn one is never answered again. */
  predicate Forward(q: Request, q': Request) {
    && (q'.stage.Handling? ==> q.stage.Handling?)
    && (q'.stage.Registered? ==> q.stage.Handling? || q.stage.Registered?)
    && (q.verdict ==> q'.verdict)
    && (q.withdrawn ==> q'.withdrawn && q'.answers == q.answers)
    && q.answers <= q'.answers
    && (Unsettled(q') ==> Unsettled(q))
  }

  ghost predicate Later(s: State, s': State) {
    && s.requests.Keys <= s'.requests.Keys
    && (forall r :: r in s.requests ==> Forward(s.requests[r], s'.requests[r]))
    && s.generation <= s'.generation
    && |s.drains| <= |s'.drains|
    && (forall i :: 0 <= i < |s.drains| ==>
          s'.drains[i].before == s.drains[i].before && s'.drains[i].generation == s.drains[i].generation)
  }

  /** The count of handlers follows a change of one request. */
  lemma PutHandling(s: State, r: nat, q: Request)
    ensures InHandle(Put(s, r, q)) == (if q.inHandle then InHandle(s) + {r} else InHandle(s) - {r})
  {
  }

  lemma PutDrain(s: State, r: nat, q: Request, d: Drain)
    requires DrainOk(s, d) && (r in s.requests ==> Forward(s.requests[r], q))
    ensures DrainOk(Put(s, r, q), d)
  {
    var s' := Put(s, r, q);
    if d.Resolving? {
      forall t | t in d.before
        ensures !s'.requests[t].stage.Handling? && !s'.requests[t].stage.Registered?
        ensures Unsettled(s'.requests[t]) ==> t in d.todo
      {
        assert t in s.requests;
      }
    }
  }

  lemma PutKeeps(s: State, r: nat, q: Request, handling: int)
    requires Inv(s) && RequestOk(q)
    requires r in s.requests ==> Forward(s.requests[r], q)
    requires handling == s.handling + (if q.inHandle then 1 else 0) - (if r in s.requests && s.requests[r].inHandle then 1 else 0)
    ensures var s' := Put(s, r, q).(handling := handling); Inv(s') && Later(s, s')
  {
    var s' := Put(s, r, q).(handling := handling);
    PutHandling(s, r, q);
    assert InHandle(s') == InHandle(Put(s, r, q));
    assert r in InHandle(s) <==> r in s.requests && s.requests[r].inHandle;
    forall i | 0 <= i < |s'.drains| ensures DrainOk(s', s'.drains[i]) {
      PutDrain(s, r, q, s.drains[i]);
      assert DrainOk(Put(s, r, q), s.drains[i]);
    }
    forall t | t in s.requests ensures Forward(s.requests[t], s'.requests[t]) {
    }
  }

  lemma StepKeeps(s: State, step: Step)
    requires Inv(s)
    ensures Inv(Apply(s, step)) && Later(s, Apply(s, step))
  {
    match step {
      case Arrive(r) =>
        if r !in s.requests {
          if s.accepting {
            PutKeeps(s, r, Request(Handling, true, false, false, false, 0), s.handling + 1);
          } else {
            PutKeeps(s, r, Request(TurnedAway, false, false, false, false, 1), s.handling);
          }
        }
      case StartDrain => StartDrainKeeps(s);
      case Snapshot(d) => SnapshotKeeps(s, d);
      case DrainOne(d, r) => DrainOneKeeps(s, d, r);
      case Open => FlagsKeep(s, s.generation + 1, true);
      case Reopen(g) => FlagsKeep(s, s.generation, s.accepting || (g != 0 && s.generation == g));
      case _ => MoveKeeps(s, step.r, step);
    }
  }

  lemma FlagsKeep(s: State, generation: nat, accepting: bool)
    requires Inv(s) && s.generation <= generation
    ensures var s' := s.(generation := generation, accepting := accepting); Inv(s') && Later(s, s')
  {
    var s' := s.(generation := generation, accepting := accepting);
    assert InHandle(s') == InHandle(s);
    forall i | 0 <= i < |s'.drains| ensures DrainOk(s', s'.drains[i]) {
      assert DrainOk(s, s.drains[i]);
    }
  }

  lemma MovedOk(q: Request, step: Step)
    requires RequestOk(q)
    ensures RequestOk(Moved(q, step)) && Forward(q, Moved(q, step))
    ensures Moved(q, step).inHandle ==> q.inHandle
  {
  }

  lemma MoveKeeps(s: State, r: nat, step: Step)
    requires Inv(s)
    ensures Inv(Move(s, r, step)) && Later(s, Move(s, r, step)) && Move(s, r, step).drains == s.drains
  {
    if r in s.requests {
      MovedOk(s.requests[r], step);
      PutKeeps(s, r, Moved(s.requests[r], step), Move(s, r, step).handling);
    }
  }

  lemma StartDrainKeeps(s: State)
    requires Inv(s)
    ensures Inv(Apply(s, StartDrain)) && Later(s, Apply(s, StartDrain))
  {
    var s' := Apply(s, StartDrain);
    assert InHandle(s') == InHandle(s);
    forall i | 0 <= i < |s'.drains| ensures DrainOk(s', s'.drains[i]) {
      if i < |s.drains| {
        assert DrainOk(s, s.drains[i]);
      }
    }
  }

  /** With no handler in flight, every admitted request that nobody resolved is in the live table. */
  lemma SnapshotKeeps(s: State, d: nat)
    requires Inv(s)
    ensures Inv(Apply(s, Snapshot(d))) && Later(s, Apply(s, Snapshot(d)))
  {
    var s' := Apply(s, Snapshot(d));
    assert InHandle(s') == InHandle(s);
    forall i | 0 <= i < |s'.drains| ensures DrainOk(s', s'.drains[i]) {
      assert DrainOk(s, s.drains[i]);
      if i == d && s' != s {
        assert InHandle(s) == {};
        forall r | r in s'.drains[d].before && Unsettled(s.requests[r]) ensures r in s'.drains[d].todo {
          assert RequestOk(s.requests[r]) && r !in InHandle(s);
        }
        forall r | r in s'.drains[d].before ensures !s.requests[r].stage.Handling? && !s.requests[r].stage.Registered? {
          assert RequestOk(s.requests[r]) && r !in InHandle(s);
        }
      }
    }
  }

  lemma DrainOneKeeps(s: State, d: nat, r: nat)
    requires Inv(s)
    ensures Inv(Apply(s, DrainOne(d, r))) && Later(s, Apply(s, DrainOne(d, r)))
  {
    if d < |s.drains| && s.drains[d].Resolving? && r in s.drains[d].todo {
      MoveKeeps(s, r, Resolve(r));
      var mid := Move(s, r, Resolve(r));
      var s' := Apply(s, DrainOne(d, r));
      assert mid.drains == s.drains;
      assert InHandle(s') == InHandle(mid);
      forall i | 0 <= i < |s'.drains| ensures DrainOk(s', s'.drains[i]) {
        assert DrainOk(mid, mid.drains[i]);
      }
    }
  }

  lemma LaterTransitive(a: State, b: State, c: State)
    requires Later(a, b) && Later(b, c)
    ensures Later(a, c)
  {
    forall r | r in a.requests ensures Forward(a.requests[r], c.requests[r]) {
      assert Forward(a.requests[r], b.requests[r]) && Forward(b.requests[r], c.requests[r]);
    }
  }

  lemma {:induction false} RunKeeps(s: State, steps: seq<Step>)
    requires Inv(s)
    ensures Inv(Run(s, steps)) && Later(s, Run(s, steps))
  {
    if steps != [] {
      var n := |steps| - 1;
      RunKeeps(s, steps[..n]);
      StepKeeps(Run(s, steps[..n]), steps[n]);
      LaterTransitive(s, Run(s, steps[..n]), Run(s, steps));
    }
  }

  // ---------------------------------------------------------------- theorems over every run

  /** The handler count is exact, and each request has been answered at most once. */
  lemma AnsweredAtMostOnce(steps: seq<Step>)
    ensures var s := Run(INITIAL, steps);
      && s.handling == |InHandle(s)|
      && (forall r :: r in s.requests ==> s.requests[r].answers <= 1)
  {
    RunKeeps(INITIAL, steps);
    var s := Run(INITIAL, steps);
    forall r | r in s.requests ensures s.requests[r].answers <= 1 {
      assert RequestOk(s.requests[r]);
    }
  }

  /** Once its withdrawal is recorded, no answer to a request is written, whatever happens later. */
  lemma NeverAnsweredAfterWithdrawal(s: State, steps: seq<Step>, r: nat)
    requires Inv(s) && r in s.requests && s.requests[r].withdrawn
    ensures r in Run(s, steps).requests && Run(s, steps).requests[r].answers == s.requests[r].answers
  {
    RunKeeps(s, steps);
    assert Forward(s.requests[r], Run(s, steps).requests[r]);
  }

  /** When a drain has worked through its snapshot, every request admitted before it closed admission is settled:
      turned away, resolved or already answered. */
  lemma DrainSettlesEverythingAdmitted(s: State, steps: seq<Step>, r: nat)
    requires Inv(s) && r in Admitted(s)
    ensures var s' := Run(Apply(s, StartDrain), steps);
      && |s.drains| < |s'.drains| && r in s'.requests
      && (s'.drains[|s.drains|].Resolving? && s'.drains[|s.drains|].todo == {} ==> !Unsettled(s'.requests[r]))
  {
    var s1 := Apply(s, StartDrain);
    StepKeeps(s, StartDrain);
    RunKeeps(s1, steps);
    var s' := Run(s1, steps);
    assert DrainOk(s', s'.drains[|s.drains|]);
    assert s'.drains[|s.drains|].before == Admitted(s);
  }

  /** Settled stays settled. */
  lemma SettledStays(s: State, steps: seq<Step>, r: nat)
    requires Inv(s) && r in s.requests && !Unsettled(s.requests[r])
    ensures r in Run(s, steps).requests && !Unsettled(Run(s, steps).requests[r])
  {
    RunKeeps(s, steps);
    assert Forward(s.requests[r], Run(s, steps).requests[r]);
  }

  ghost predicate IsRun(trace: seq<State>, steps: seq<Step>) {
    && |trace| == |steps| + 1
    && (forall i :: 0 <= i < |steps| ==> trace[i + 1] == Apply(trace[i], steps[i]))
  }

  /** The step begins a new lifecycle or a new drain, superseding every earlier drain. */
  predicate Supersedes(step: Step) {
    step.Open? || step.StartDrain?
  }

  lemma {:induction false} GenerationCounts(trace: seq<State>, steps: seq<Step>, i: nat, j: nat)
    requires IsRun(trace, steps) && i <= j <= |steps|
    ensures trace[i].generation <= trace[j].generation
    ensures trace[i].generation == trace[j].generation <==> forall k :: i <= k < j ==> !Supersedes(steps[k])
  {
    if i < j {
      GenerationCounts(trace, steps, i, j - 1);
      assert trace[j] == Apply(trace[j - 1], steps[j - 1]);
      assert trace[j].generation == trace[j - 1].generation + (if Supersedes(steps[j - 1]) then 1 else 0);
    }
  }

  /** The step opens admission: a new lifecycle, or a reopening that carries the current generation. */
  predicate Admits(s: State, step: Step) {
    step.Open? || (step.Reopen? && step.generation != 0 && step.generation == s.generation)
  }

  /** Step j opened admission and no drain closed it again before k. */
  ghost predicate OpenSince(trace: seq<State>, steps: seq<Step>, j: nat, k: nat)
    requires j < k <= |steps| < |trace|
  {
    Admits(trace[j], steps[j]) && forall m :: j < m < k ==> !steps[m].StartDrain?
  }

  /** After a drain closed admission at step i, requests are admitted at k exactly when an open, or a reopening that
      carried the current generation, came after it and no drain after that. */
  lemma {:induction false} AdmissionIff(trace: seq<State>, steps: seq<Step>, i: nat, k: nat)
    requires IsRun(trace, steps) && i < k <= |steps| && steps[i].StartDrain?
    ensures trace[k].accepting <==> exists j :: i < j < k && OpenSince(trace, steps, j, k)
  {
    var n := k - 1;
    assert trace[k] == Apply(trace[n], steps[n]);
    if n > i {
      AdmissionIff(trace, steps, i, n);
      if Admits(trace[n], steps[n]) {
        assert OpenSince(trace, steps, n, k);
      } else if !steps[n].StartDrain? {
        assert trace[k].accepting == trace[n].accepting;
        forall j | i < j < n ensures OpenSince(trace, steps, j, k) <==> OpenSince(trace, steps, j, n) {
        }
      }
    }
  }

  /** Step j reopens for the drain begun at step d, and nothing superseded that drain in between. */
  ghost predicate ReopensFor(trace: seq<State>, steps: seq<Step>, d: nat, j: nat)
    requires |trace| == |steps| + 1
  {
    && d < j < |steps| && steps[d].StartDrain? && steps[j] == Reopen(trace[d + 1].generation)
    && forall m :: d < m < j ==> !Supersedes(steps[m])
  }

  /** A drain's own reopening takes effect exactly when no open and no other drain has begun since. */
  lemma ReopenIffNotSuperseded(trace: seq<State>, steps: seq<Step>, i: nat, j: nat)
    requires IsRun(trace, steps) && i < j < |steps| && steps[i].StartDrain?
    requires !trace[j].accepting && steps[j] == Reopen(trace[i + 1].generation)
    ensures trace[j + 1].accepting <==> ReopensFor(trace, steps, i, j)
  {
    GenerationCounts(trace, steps, i + 1, j);
    assert trace[i + 1] == Apply(trace[i], steps[i]);
  }

  /** The latest drain of a stretch that holds one. */
  lemma {:induction false} LatestDrain(steps: seq<Step>, i: nat, j: nat) returns (d: nat)
    requires i < j <= |steps| && steps[i].StartDrain?
    ensures i <= d < j && steps[d].StartDrain? && forall m :: d < m < j ==> !steps[m].StartDrain?
  {
    d := j - 1;
    if !steps[d].StartDrain? {
      d := LatestDrain(steps, i, d);
    }
  }

  /** Without an open since drain i, whatever opens admission at j is the reopening of the latest drain before j. */
  lemma AdmitsForLatest(trace: seq<State>, steps: seq<Step>, i: nat, j: nat) returns (d: nat)
    requires IsRun(trace, steps) && i < j < |steps| && steps[i].StartDrain? && Admits(trace[j], steps[j])
    requires forall m :: i < m <= j ==> !steps[m].Open?
    ensures i <= d < j && ReopensFor(trace, steps, d, j)
  {
    d := LatestDrain(steps, i, j);
    GenerationCounts(trace, steps, d + 1, j);
  }

  /** A reopening that nothing superseded opens admission at once. */
  lemma ReopensAdmits(trace: seq<State>, steps: seq<Step>, d: nat, j: nat)
    requires IsRun(trace, steps) && ReopensFor(trace, steps, d, j)
    ensures Admits(trace[j], steps[j]) && trace[j + 1].accepting
  {
    GenerationCounts(trace, steps, d + 1, j);
    assert trace[d + 1] == Apply(trace[d], steps[d]);
    assert trace[j + 1] == Apply(trace[j], steps[j]);
  }

  /** Admission at k is drain i's own doing. */
  ghost predicate BehindOwnReopening(trace: seq<State>, steps: seq<Step>, i: nat, k: nat)
    requires |trace| == |steps| + 1 && k <= |steps|
  {
    exists j :: i < j < k && ReopensFor(trace, steps, i, j) && forall m :: j < m < k ==> !steps[m].StartDrain?
  }

  /** Until the next open, every admission after drain i is behind that drain's own reopening if and only if no drain
      begun after it is reopened before something supersedes it. */
  lemma OnlyOwnReopeningAdmitsIff(trace: seq<State>, steps: seq<Step>, i: nat, n: nat)
    requires IsRun(trace, steps) && i < n <= |steps| && steps[i].StartDrain? && forall m :: i < m < n ==> !steps[m].Open?
    ensures (forall k :: i < k <= n && trace[k].accepting ==> BehindOwnReopening(trace, steps, i, k))
            <==> (forall d, j :: i < d < j < n ==> !ReopensFor(trace, steps, d, j))
  {
    if d: nat, j: nat :| i < d < j < n && ReopensFor(trace, steps, d, j) {
      ReopensAdmits(trace, steps, d, j);
      SupersededNotBehind(trace, steps, i, d, j);
    } else {
      forall k | i < k <= n && trace[k].accepting ensures BehindOwnReopening(trace, steps, i, k) {
        AdmissionIff(trace, steps, i, k);
        var j :| i < j < k && OpenSince(trace, steps, j, k);
        var d := AdmitsForLatest(trace, steps, i, j);
        assert d == i;
      }
    }
  }

  /** Once another drain began, drain i's own reopening has no part in what is open. */
  lemma SupersededNotBehind(trace: seq<State>, steps: seq<Step>, i: nat, d: nat, k: nat)
    requires IsRun(trace, steps) && i < d < k < |steps| && steps[d].StartDrain?
    ensures !BehindOwnReopening(trace, steps, i, k + 1)
  {
    if BehindOwnReopening(trace, steps, i, k + 1) {
      var j :| i < j < k + 1 && ReopensFor(trace, steps, i, j) && forall m :: j < m < k + 1 ==> !steps[m].StartDrain?;
      assert d == j || d < j;
      assert Supersedes(steps[d]);
      assert false;
    }
  }

  lemma RunSnoc(s: State, steps: seq<Step>, step: Step)
    ensures Run(s, steps + [step]) == Apply(Run(s, steps), step)
  {
    assert (steps + [step])[..|steps|] == steps;
  }

  lemma RunTwoMore(before: seq<Step>, a: Step, b: Step)
    ensures Run(INITIAL, before + [a] + [b]) == Apply(Apply(Run(INITIAL, before), a), b)
  {
    RunSnoc(INITIAL, before, a);
    RunSnoc(INITIAL, before + [a], b);
  }

  lemma RunThree(a: Step, b: Step, c: Step)
    ensures Run(INITIAL, [] + [a] + [b] + [c]) == Apply(Apply(Apply(INITIAL, a), b), c)
  {
    RunTwoMore([], a, b);
    RunSnoc(INITIAL, [] + [a] + [b], c);
  }

  lemma TwoDrains()
    ensures var s := Run(INITIAL, [Open, StartDrain, StartDrain]); s.generation == 3 && !s.accepting
  {
    RunThree(Open, StartDrain, StartDrain);
    assert [] + [Open] + [StartDrain] + [StartDrain] == [Open, StartDrain, StartDrain];
  }

  /** Two interrupts drain one open lifecycle; the second drain's reopening admits requests that the first had fenced
      off, and the first one's own does not. */
  lemma LaterDrainMayReopen()
    ensures Run(INITIAL, [Open, StartDrain, StartDrain, Reopen(3)]).accepting
    ensures !Run(INITIAL, [Open, StartDrain, StartDrain, Reopen(2)]).accepting
  {
    var steps := [Open, StartDrain, StartDrain];
    TwoDrains();
    RunSnoc(INITIAL, steps, Reopen(3));
    RunSnoc(INITIAL, steps, Reopen(2));
    assert steps + [Reopen(3)] == [Open, StartDrain, StartDrain, Reopen(3)];
    assert steps + [Reopen(2)] == [Open, StartDrain, StartDrain, Reopen(2)];
  }

  // ---------------------------------------------------------------- every answer comes

  function StageOf(s: State, r: nat): Option<Request> {
    if r in s.requests then Some(s.requests[r]) else None
  }

  /** What a step means for one request: its own part, or the resolution a drain gives it. */
  predicate Concerns(s: State, step: Step, r: nat) {
    match step
    case Open => false
    case Arrive(_) => false
    case StartDrain => false
    case Snapshot(_) => false
    case DrainOne(d, q) => q == r && d < |s.drains| && s.drains[d].Resolving? && r in s.drains[d].todo
    case Reopen(_) => false
    case _ => step.r == r
  }

  /** A known request is moved by the steps that concern it and by no other. */
  lemma OwnStepsOnly(s: State, step: Step, r: nat)
    requires r in s.requests
    ensures StageOf(Apply(s, step), r) ==
      Some(if !Concerns(s, step, r) then s.requests[r]
           else if step.DrainOne? then Moved(s.requests[r], Resolve(r)) else Moved(s.requests[r], step))
  {
  }

  /** The step answers the request: it arrives behind closed admission, is declined, or its response section finds it
      resolved and not withdrawn. */
  predicate Answers(s: State, step: Step, r: nat) {
    match step
    case Arrive(q) => q == r && r !in s.requests && !s.accepting
    case Decline(q) => q == r && r in s.requests && s.requests[r].stage.Handling?
    case Respond(q) => q == r && r in s.requests && s.requests[r].stage.Parked? && s.requests[r].verdict && !s.requests[r].withdrawn
    case _ => false
  }

  function AnswerCount(s: State, r: nat): nat {
    if r in s.requests then s.requests[r].answers else 0
  }

  lemma AnswerStep(s: State, step: Step, r: nat)
    ensures AnswerCount(Apply(s, step), r) == AnswerCount(s, r) + (if Answers(s, step, r) then 1 else 0)
  {
    if r in s.requests {
      OwnStepsOnly(s, step, r);
    }
  }

  /** Over every run a request was answered, and then once, exactly when some step answered it. */
  lemma {:induction false} AnsweredIff(trace: seq<State>, steps: seq<Step>, n: nat, r: nat)
    requires IsRun(trace, steps) && trace[0] == INITIAL && n <= |steps|
    ensures AnswerCount(trace[n], r) <= 1
    ensures AnswerCount(trace[n], r) == 1 <==> exists k :: 0 <= k < n && Answers(trace[k], steps[k], r)
  {
    RunOk(trace, steps, n);
    assert r in trace[n].requests ==> RequestOk(trace[n].requests[r]);
    if n > 0 {
      AnsweredIff(trace, steps, n - 1, r);
      AnswerStep(trace[n - 1], steps[n - 1], r);
      assert trace[n] == Apply(trace[n - 1], steps[n - 1]);
    }
  }

  lemma {:induction false} RunOk(trace: seq<State>, steps: seq<Step>, n: nat)
    requires IsRun(trace, steps) && trace[0] == INITIAL && n <= |steps|
    ensures Inv(trace[n])
  {
    if n > 0 {
      RunOk(trace, steps, n - 1);
      StepKeeps(trace[n - 1], steps[n - 1]);
    }
  }

  /** How far a request has come: registered, parked, and through its response section without being withdrawn before. */
  datatype Progress = Begun | Entered | Waits | Done

  predicate Reached(q: Request, p: Progress, resolved: bool) {
    && (resolved ==> q.verdict)
    && match p
       case Begun => !q.stage.TurnedAway? && (q.stage.Answered? ==> q.answers == 1) && (!q.stage.Answered? ==> !q.withdrawn)
       case Entered => !q.stage.TurnedAway? && !q.stage.Handling? && (q.stage.Answered? ==> q.answers == 1) && (!q.stage.Answered? ==> !q.withdrawn)
       case Waits => (q.stage.Answered? && q.answers == 1) || (q.stage.Parked? && !q.withdrawn)
       case Done => q.answers == 1
  }

  /** The request's own steps in the order of its life move it on; every other step leaves it where it is or further. */
  lemma Advances(q: Request, step: Step, p: Progress, resolved: bool)
    requires RequestOk(q) && Reached(q, p, resolved)
    requires p.Done? || (!step.Decline? && !step.MarkWithdrawn?)
    ensures Reached(Moved(q, step), p, resolved)
    ensures p.Begun? && step.Register? ==> Reached(Moved(q, step), Entered, resolved)
    ensures p.Entered? && step.Park? ==> Reached(Moved(q, step), Waits, resolved)
    ensures (p.Entered? || p.Waits?) && step.Resolve? ==> Reached(Moved(q, step), p, true)
    ensures p.Waits? && resolved && step.Respond? ==> Reached(Moved(q, step), Done, true)
  {
  }

  /** Where request r stands before step n, when it was being handled at i, registered at g, parked at p, resolved at v and
      came to its response section at o. */
  function Due(g: nat, p: nat, o: nat, n: nat): Progress {
    if o < n then Done else if p < n then Waits else if g < n then Entered else Begun
  }

  lemma {:induction false} Goes(trace: seq<State>, steps: seq<Step>, r: nat, i: nat, g: nat, p: nat, v: nat, o: nat, n: nat)
    requires IsRun(trace, steps) && trace[0] == INITIAL && i <= g < p < o < |steps| && g < v < o && i <= n <= |steps|
    requires r in trace[i].requests && trace[i].requests[r].stage.Handling?
    requires steps[g] == Register(r) && steps[p] == Park(r) && steps[v] == Resolve(r) && steps[o] == Respond(r)
    requires forall k :: i <= k <= o ==> steps[k] != MarkWithdrawn(r) && steps[k] != Decline(r)
    ensures r in trace[n].requests && Reached(trace[n].requests[r], Due(g, p, o, n), v < n)
    decreases n
  {
    RunOk(trace, steps, n);
    if n == i {
      assert RequestOk(trace[i].requests[r]);
    } else {
      var m := n - 1;
      Goes(trace, steps, r, i, g, p, v, o, m);
      RunOk(trace, steps, m);
      assert trace[n] == Apply(trace[m], steps[m]);
      OwnStepsOnly(trace[m], steps[m], r);
      var q := trace[m].requests[r];
      assert RequestOk(q);
      if Concerns(trace[m], steps[m], r) {
        Advances(q, if steps[m].DrainOne? then Resolve(r) else steps[m], Due(g, p, o, m), v < m);
      }
    }
  }

  /** Whatever other requests, operators and drains do meanwhile: a request that is registered, parked, resolved and comes
      to its response section without a withdrawal is answered, once. */
  lemma AnswerComes(trace: seq<State>, steps: seq<Step>, r: nat, i: nat, g: nat, p: nat, v: nat, o: nat)
    requires IsRun(trace, steps) && trace[0] == INITIAL && i <= g < p < o < |steps| && g < v < o
    requires r in trace[i].requests && trace[i].requests[r].stage.Handling?
    requires steps[g] == Register(r) && steps[p] == Park(r) && steps[v] == Resolve(r) && steps[o] == Respond(r)
    requires forall k :: i <= k <= o ==> steps[k] != MarkWithdrawn(r) && steps[k] != Decline(r)
    ensures AnswerCount(trace[|steps|], r) == 1
  {
    Goes(trace, steps, r, i, g, p, v, o, |steps|);
  }

  predicate Withdrawing(s: State, step: Step, r: nat) {
    step == MarkWithdrawn(r) && r in s.requests && (s.requests[r].stage.Parked? || s.requests[r].stage.Answered?)
  }

  predicate Entering(s: State, step: Step, r: nat) {
    step == Park(r) && r in s.requests && s.requests[r].stage.Registered?
  }

  predicate Leaving(s: State, step: Step, r: nat) {
    step == Forget(r) && r in s.requests && s.requests[r].stage.Answered?
  }

  predicate Withdrawn(s: State, r: nat) {
    r in s.requests && s.requests[r].withdrawn
  }

  predicate Listed(s: State, r: nat) {
    r in s.requests && s.requests[r].live
  }

  lemma FlagStep(s: State, step: Step, r: nat)
    ensures Withdrawn(Apply(s, step), r) <==> Withdrawn(s, r) || Withdrawing(s, step, r)
    ensures Listed(Apply(s, step), r) <==> Entering(s, step, r) || (Listed(s, r) && !Leaving(s, step, r))
  {
    if r in s.requests {
      OwnStepsOnly(s, step, r);
    }
  }

  ghost predicate FlagsMove(trace: seq<State>, steps: seq<Step>, k: nat, r: nat)
    requires |trace| == |steps| + 1 && k < |steps|
  {
    && (Withdrawn(trace[k + 1], r) <==> Withdrawn(trace[k], r) || Withdrawing(trace[k], steps[k], r))
    && (Listed(trace[k + 1], r) <==> Entering(trace[k], steps[k], r) || (Listed(trace[k], r) && !Leaving(trace[k], steps[k], r)))
  }

  ghost predicate LiveSince(trace: seq<State>, steps: seq<Step>, n: nat, r: nat)
    requires |trace| == |steps| + 1 && n <= |steps|
  {
    exists k {:trigger steps[k]} ::
      0 <= k < n && Entering(trace[k], steps[k], r) && forall j {:trigger steps[j]} :: k < j < n ==> !Leaving(trace[j], steps[j], r)
  }

  lemma {:induction false} FlagChain(trace: seq<State>, steps: seq<Step>, n: nat, r: nat)
    requires |trace| == |steps| + 1 && trace[0] == INITIAL && n <= |steps|
    requires forall k {:trigger FlagsMove(trace, steps, k, r)} :: 0 <= k < n ==> FlagsMove(trace, steps, k, r)
    ensures Withdrawn(trace[n], r) <==> exists k :: 0 <= k < n && Withdrawing(trace[k], steps[k], r)
    ensures Listed(trace[n], r) <==> LiveSince(trace, steps, n, r)
  {
    if n > 0 {
      FlagChain(trace, steps, n - 1, r);
      assert FlagsMove(trace, steps, n - 1, r);
    }
  }

  /** Over every run a request counts as withdrawn exactly when its withdrawal was recorded, and is in the live table exactly
      from its parking until it is forgotten. */
  lemma LiveIff(trace: seq<State>, steps: seq<Step>, n: nat, r: nat)
    requires IsRun(trace, steps) && trace[0] == INITIAL && n <= |steps|
    ensures Withdrawn(trace[n], r) <==> exists k :: 0 <= k < n && Withdrawing(trace[k], steps[k], r)
    ensures r in Live(trace[n]) <==> LiveSince(trace, steps, n, r)
  {
    forall k | 0 <= k < n ensures FlagsMove(trace, steps, k, r) {
      FlagStep(trace[k], steps[k], r);
    }
    FlagChain(trace, steps, n, r);
  }

  // ---------------------------------------------------------------- every drain gets through

  function DrainSteps(d: nat, rs: seq<nat>): seq<Step> {
    if rs == [] then [] else DrainSteps(d, rs[..|rs| - 1]) + [DrainOne(d, rs[|rs| - 1])]
  }

  predicate WorksOn(s: State, d: nat, todo: set<nat>) {
    d < |s.drains| && s.drains[d].Resolving? && s.drains[d].todo == todo
  }

  lemma {:induction false} DrainStepsDo(s: State, d: nat, rs: seq<nat>, todo: set<nat>)
    requires WorksOn(s, d, todo)
    ensures WorksOn(Run(s, DrainSteps(d, rs)), d, todo - set r | r in rs)
  {
    if rs == [] {
      assert todo - (set r | r in rs) == todo;
    } else {
      var front, last := rs[..|rs| - 1], rs[|rs| - 1];
      DrainStepsDo(s, d, front, todo);
      RunSnoc(s, DrainSteps(d, front), DrainOne(d, last));
      DrainOneDoes(Run(s, DrainSteps(d, front)), d, last, todo - set r | r in front);
      assert rs == front + [last];
      assert todo - (set r | r in rs) == (todo - set r | r in front) - {last};
    }
  }

  lemma DrainOneDoes(s: State, d: nat, r: nat, todo: set<nat>)
    requires WorksOn(s, d, todo)
    ensures WorksOn(Apply(s, DrainOne(d, r)), d, todo - {r})
  {
    if r !in todo {
      assert todo - {r} == todo;
    }
  }

  /** When no handler is in flight, a drain that takes its snapshot and resolves every request in it is through, and what it
      was waiting for is settled. */
  lemma DrainGetsThrough(s: State, d: nat, rs: seq<nat>, r: nat)
    requires Inv(s) && d < |s.drains| && s.drains[d].Waiting? && InHandle(s) == {} && (forall q :: q in rs <==> q in Live(s))
    ensures var s' := Run(Apply(s, Snapshot(d)), DrainSteps(d, rs));
      && WorksOn(s', d, {})
      && (r in s.drains[d].before ==> r in s'.requests && !Unsettled(s'.requests[r]))
  {
    var s1 := Apply(s, Snapshot(d));
    StepKeeps(s, Snapshot(d));
    DrainStepsDo(s1, d, rs, Live(s));
    assert Live(s) - (set q | q in rs) == {};
    RunKeeps(s1, DrainSteps(d, rs));
    var s' := Run(s1, DrainSteps(d, rs));
    assert DrainOk(s', s'.drains[d]);
  }

  /** A handler that ends leaves, once its request was declined, parked or answered; the rest stay. */
  lemma HandlerLeaves(s: State, r: nat)
    requires Inv(s) && r in InHandle(s)
    ensures s.requests[r].stage.Parked? || s.requests[r].stage.Answered? ==> InHandle(Apply(s, EndRequest(r))) == InHandle(s) - {r}
    ensures s.requests[r].stage.Handling? ==> InHandle(Apply(s, Decline(r))) == InHandle(s) - {r}
    ensures s.requests[r].stage.Registered? ==> StageOf(Apply(s, Park(r)), r) == Some(s.requests[r].(stage := Parked, live := true))
  {
    PutHandling(s, r, Moved(s.requests[r], EndRequest(r)));
    PutHandling(s, r, Moved(s.requests[r], Decline(r)));
    MoveKeeps(s, r, EndRequest(r));
    assert InHandle(Apply(s, EndRequest(r))) == InHandle(Put(s, r, Moved(s.requests[r], EndRequest(r))));
    assert InHandle(Apply(s, Decline(r))) == InHandle(Put(s, r, Moved(s.requests[r], Decline(r))));
  }

  // ---------------------------------------------------------------- the approvals object

  class Approvals {
    var accepting: bool
    var handling: int
    var generation: nat
    var requests: map<nat, Request>
    var drains: seq<Drain>

    ghost function View(): State
      reads this
    {
      State(accepting, handling, generation, requests, drains)
    }

    ghost predicate Valid()
      reads this
    {
      Inv(View())
    }

    constructor ()
      ensures Valid() && View() == INITIAL
    {
      accepting, handling, generation, requests, drains := false, 0, 0, map[], [];
      new;
      assert InHandle(View()) == {};
    }

    method OpenLifecycle()
      requires Valid()
      modifies this
      ensures View() == Apply(old(View()), Open) && Valid()
    {
      StepKeeps(View(), Open);
      generation := generation + 1;
      accepting := true;
    }

    /** beginRequest, with the synchronous answer a refused request gets. */
    method BeginRequest(r: nat) returns (admitted: bool)
      requires Valid() && r !in requests
      modifies this
      ensures View() == Apply(old(View()), Arrive(r)) && Valid()
      ensures admitted == old(accepting)
    {
      StepKeeps(View(), Arrive(r));
      if !accepting {
        requests := requests[r := Request(TurnedAway, false, false, false, false, 1)];
        return false;
      }
      handling := handling + 1;
      requests := requests[r := Request(Handling, true, false, false, false, 0)];
      admitted := true;
    }

    /** One request's part of a step, with the handler count kept beside it. */
    method MoveRequest(r: nat, step: Step)
      requires Valid() && r in requests
      modifies this`requests, this`handling
      ensures View() == Move(old(View()), r, step) && Valid()
    {
      MoveKeeps(View(), r, step);
      var q := requests[r];
      requests := requests[r := Moved(q, step)];
      if q.inHandle && !Moved(q, step).inHandle {
        handling := handling - 1;
      }
    }

    /** handle, after admission: the request is either declined in place or registered and parked. */
    method Handle(r: nat, parks: bool)
      requires Valid() && r in requests && requests[r].stage.Handling?
      modifies this
      ensures View() == (if parks then Move(Move(Move(old(View()), r, Register(r)), r, Park(r)), r, EndRequest(r))
                         else Move(old(View()), r, Decline(r)))
      ensures Valid()
    {
      if parks {
        MoveRequest(r, Register(r));
        MoveRequest(r, Park(r));
        MoveRequest(r, EndRequest(r));
      } else {
        MoveRequest(r, Decline(r));
      }
    }

    /** await's response section: the only place a parked request is answered. */
    method WriteResponse(r: nat) returns (wrote: bool)
      requires Valid() && r in requests && requests[r].stage.Parked? && requests[r].verdict
      modifies this
      ensures View() == Apply(old(View()), Respond(r)) && Valid()
      ensures wrote == !old(requests)[r].withdrawn
    {
      StepKeeps(View(), Respond(r));
      var q := requests[r].(stage := Answered);
      wrote := !q.withdrawn;
      if wrote {
        q := q.(answers := q.answers + 1);
      }
      requests := requests[r := q];
    }

    /** The section of resolveAll that closes admission. */
    method CloseAdmission() returns (closed: nat)
      requires Valid()
      modifies this
      ensures View() == Apply(old(View()), StartDrain) && Valid() && closed == generation
    {
      StepKeeps(View(), StartDrain);
      drains := drains + [Waiting(generation + 1, set r | r in requests && !(requests[r].stage.TurnedAway? && requests[r].answers == 1))];
      generation := generation + 1;
      accepting := false;
      closed := generation;
    }

    /** The rest of resolveAll, once no handler is in flight: every live entry is resolved. */
    method ResolveSnapshot(d: nat)
      requires Valid() && d < |drains| && drains[d].Waiting? && handling == 0
      modifies this
      ensures Valid() && d < |drains| && drains[d].Resolving? && drains[d].todo == {}
      ensures drains[d].before == old(drains)[d].before
      ensures forall r :: r in drains[d].before ==> r in requests && !Unsettled(requests[r])
    {
      StepKeeps(View(), Snapshot(d));
      drains := drains[d := Resolving(drains[d].generation, drains[d].before, set r | r in requests && requests[r].live)];
      assert drains[d].todo == Live(View());
      while drains[d].todo != {}
        invariant Valid() && d < |drains| && drains[d].Resolving?
        invariant drains[d].before == old(drains)[d].before
        decreases |drains[d].todo|
      {
        ResolveOne(d);
      }
      assert DrainOk(View(), drains[d]);
    }

    method ResolveOne(d: nat)
      requires Valid() && d < |drains| && drains[d].Resolving? && drains[d].todo != {}
      modifies this
      ensures Valid() && d < |drains| && drains[d].Resolving?
      ensures drains[d].before == old(drains)[d].before && |drains[d].todo| < |old(drains)[d].todo|
    {
      var r :| r in drains[d].todo;
      StepKeeps(View(), DrainOne(d, r));
      if r in requests {
        MoveRequest(r, Resolve(r));
      }
      drains := drains[d := drains[d].(todo := drains[d].todo - {r})];
      assert View() == Apply(old(View()), DrainOne(d, r));
    }

    method ReopenAdmission(g: nat)
      requires Valid()
      modifies this
      ensures View() == Apply(old(View()), Reopen(g)) && Valid()
    {
      StepKeeps(View(), Reopen(g));
      if g != 0 && generation == g {
        accepting := true;
      }
    }
  }
}