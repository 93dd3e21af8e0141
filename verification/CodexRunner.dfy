/** The Codex runner's gates: two-factor permission confirmation, thread ownership and the rotation gate.
    Each critical section of the runner's mutex is one step; identities of clients and translators are numbers. */
module CodexRunner {
  import opened Common

  datatype Confirmation = Confirmation(
    epoch: nat, translator: Option<nat>, mode: string, pending: string, thread: string,
    response: string, started: string)

  /** What Run reads before one spawn. */
  datatype Spawn = Spawn(thread: string, sequence: nat)

  /** A thread reported for storage under a session tag. */
  datatype Report = Report(tag: string, thread: string)

  /** inFlight holds the epochs of turn starts whose answer is still awaited.
      owned records the fresh sequence each thread was started in; tags holds the session tag of each sequence. */
  datatype State = State(
    client: Option<nat>, exited: set<nat>, generation: nat, confirmation: Confirmation,
    rotating: bool, rotateGen: nat, armFresh: nat, freshSeq: nat, thread: string, tearingDown: bool,
    inFlight: set<nat>, spawns: seq<Spawn>, reports: seq<Report>, owned: map<string, nat>, tags: seq<string>)

  datatype Step =
    | SpawnBegin
    | Bind(spawn: nat, client: nat, translator: nat, startedThread: string, cancelled: bool)
    | Unbind
    | EndIteration
    | BeginTeardown
    | BeginRotation
    | Abort(arm: nat)
    | RestartFresh(newId: string)
    | BeginAttempt(client: nat, generation: nat, mode: string)
    | FinishAttempt(client: nat, generation: nat, epoch: nat, turn: string)
    | TurnStarted(translator: nat, thread: string, turn: string)
    | ClientExit(client: nat)

  function Initial(thread: string, tag: string): State {
    State(None, {}, 0, Confirmation(0, None, "", "", "", "", ""), false, 0, 0, 0, thread, false,
          {}, [], [], if thread == "" then map[] else map[thread := 0], [tag])
  }

  const RECOGNISED: set<string> := {"default", "acceptEdits", "plan", "auto", "dontAsk", "bypassPermissions"}

  // ---------------------------------------------------------------- steps

  function Invalidated(c: Confirmation): Confirmation {
    Confirmation(c.epoch + 1, c.translator, "", "", "", "", "")
  }

  predicate Live(s: State) {
    && s.client.Some? && s.confirmation.translator.Some? && !s.rotating && !s.tearingDown
    && s.client.value !in s.exited
  }

  /** ConfirmedPermissionMode: "" when nothing is confirmed. */
  function Confirmed(s: State): string {
    if Live(s) then s.confirmation.mode else ""
  }

  function Joined(c: Confirmation): Confirmation {
    if c.response != "" && c.response == c.started then c.(mode := c.pending) else c
  }

  predicate AttemptAccepted(s: State, client: nat, generation: nat) {
    s.client == Some(client) && s.generation == generation && Live(s)
  }

  function Attempted(s: State, mode: string): Confirmation {
    Invalidated(s.confirmation).(pending := if mode in RECOGNISED then mode else "", thread := s.thread)
  }

  predicate FinishMatches(s: State, client: nat, generation: nat, epoch: nat) {
    AttemptAccepted(s, client, generation) && s.confirmation.epoch == epoch
  }

  function Finished(s: State, client: nat, generation: nat, epoch: nat, turn: string): State {
    if !FinishMatches(s, client, generation, epoch) then s
    else if turn == "" then s.(confirmation := Invalidated(s.confirmation))
    else s.(confirmation := Joined(s.confirmation.(response := turn)))
  }

  predicate StartMatches(s: State, translator: nat, thread: string, turn: string) {
    && turn != "" && Live(s) && s.confirmation.translator == Some(translator)
    && thread != "" && thread == s.confirmation.thread && s.confirmation.pending != ""
  }

  /** The thread a bind opens: the resumed one, or the one just started. */
  function Opened(sp: Spawn, startedThread: string): string {
    if sp.thread == "" then startedThread else sp.thread
  }

  predicate BindAccepted(s: State, step: Step)
    requires step.Bind?
  {
    && step.spawn < |s.spawns| && !step.cancelled
    && (s.spawns[step.spawn].thread == "" ==> step.startedThread != "" && step.startedThread !in s.owned)
  }

  function BoundFrom(s: State, sp: Spawn, client: nat, translator: nat, startedThread: string): State {
    var current := s.freshSeq == sp.sequence;
    s.(thread := if current then Opened(sp, startedThread) else s.thread,
       reports := if current && sp.thread == "" && s.freshSeq < |s.tags|
                  then s.reports + [Report(s.tags[s.freshSeq], startedThread)] else s.reports,
       owned := if sp.thread == "" then s.owned[startedThread := sp.sequence] else s.owned,
       client := Some(client),
       generation := s.generation + 1,
       confirmation := Invalidated(s.confirmation).(translator := Some(translator)),
       tearingDown := false,
       rotating := s.rotating && sp.sequence <= s.armFresh)
  }

  function Bound(s: State, step: Step): State
    requires step.Bind? && BindAccepted(s, step)
  {
    BoundFrom(s, s.spawns[step.spawn], step.client, step.translator, step.startedThread)
  }

  function Apply(s: State, step: Step): State {
    match step
    case SpawnBegin => s.(spawns := s.spawns + [Spawn(s.thread, s.freshSeq)])
    case Bind(_, _, _, _, _) => if BindAccepted(s, step) then Bound(s, step) else s
    case Unbind =>
      s.(client := None, generation := s.generation + 1,
         confirmation := Invalidated(s.confirmation).(translator := None))
    case EndIteration => s.(confirmation := Invalidated(s.confirmation).(translator := None))
    case BeginTeardown => s.(tearingDown := true, confirmation := Invalidated(s.confirmation))
    case BeginRotation =>
      s.(rotating := true, confirmation := Invalidated(s.confirmation), rotateGen := s.rotateGen + 1,
         armFresh := s.freshSeq)
    case Abort(arm) => if s.rotateGen == arm then s.(rotating := false) else s
    case RestartFresh(newId) =>
      if newId == "" then s
      else s.(thread := "", confirmation := Invalidated(s.confirmation).(translator := None),
              freshSeq := s.freshSeq + 1, tags := s.tags + [newId])
    case BeginAttempt(client, generation, mode) =>
      if AttemptAccepted(s, client, generation)
      then s.(confirmation := Attempted(s, mode), inFlight := s.inFlight + {s.confirmation.epoch + 1}) else s
    case FinishAttempt(client, generation, epoch, turn) =>
      if epoch !in s.inFlight then s
      else Finished(s.(inFlight := s.inFlight - {epoch}), client, generation, epoch, turn)
    case TurnStarted(translator, thread, turn) =>
      if !StartMatches(s, translator, thread, turn) then s
      else if s.confirmation.response != "" && s.confirmation.response != turn
      then s.(confirmation := Invalidated(s.confirmation))
      else s.(confirmation := Joined(s.confirmation.(started := turn)))
    case ClientExit(client) => s.(exited := s.exited + {client})
  }

  function Run(s: State, steps: seq<Step>): State {
    if steps == [] then s else Apply(Run(s, steps[..|steps| - 1]), steps[|steps| - 1])
  }

  /** trace[i] is the state before step i; the last one is the state reached. */
  ghost predicate IsRun(trace: seq<State>, steps: seq<Step>) {
    && |trace| == |steps| + 1
    && (forall i :: 0 <= i < |steps| ==> trace[i + 1] == Apply(trace[i], steps[i]))
  }

  // ---------------------------------------------------------------- confirmation

  /** Steps after which an earlier attempt can no longer be confirmed. */
  predicate Ends(s: State, step: Step) {
    match step
    case Bind(_, _, _, _, _) => BindAccepted(s, step)
    case Unbind => true
    case EndIteration => true
    case BeginTeardown => true
    case BeginRotation => true
    case RestartFresh(newId) => newId != ""
    case BeginAttempt(client, generation, _) => AttemptAccepted(s, client, generation)
    case _ => false
  }

  /** Step a is the latest attempt, made with the pending mode on the child that is still bound. */
  ghost predicate LatestAttempt(trace: seq<State>, steps: seq<Step>, a: nat)
    requires |trace| == |steps| + 1
  {
    && a < |steps|
    && steps[a].BeginAttempt?
    && AttemptAccepted(trace[a], steps[a].client, steps[a].generation)
    && Carries(trace[|steps|], trace[a], steps[a].client, steps[a].mode)
    && (forall i :: a < i < |steps| ==> !Ends(trace[i], steps[i]))
  }

  /** s still carries the attempt made with this client and mode in the state at. */
  predicate Carries(s: State, at: State, client: nat, mode: string) {
    && s.client == Some(client) && s.generation == at.generation && !s.rotating && !s.tearingDown
    && s.confirmation.pending == mode
    && s.confirmation.epoch == at.confirmation.epoch + 1
    && s.confirmation.thread == at.thread
    && s.confirmation.translator == at.confirmation.translator
  }

  /** The step reports a turn started on this thread by this translator. */
  predicate RootStart(step: Step, translator: Option<nat>, thread: string) {
    step.TurnStarted? && step.turn != "" && step.thread == thread && translator == Some(step.translator)
  }

  predicate FinishOf(step: Step, epoch: nat) {
    step.FinishAttempt? && step.epoch == epoch
  }

  /** Every root turn started after step i has this id. */
  predicate OnlyTurn(steps: seq<Step>, i: int, translator: Option<nat>, thread: string, id: string) {
    forall k {:trigger RootStart(steps[k], translator, thread)} ::
      0 <= k < |steps| && i < k && RootStart(steps[k], translator, thread) ==> steps[k].turn == id
  }

  /** Step b is the first response to the attempt made in step a, with this epoch, and carried this id. */
  predicate Responded(steps: seq<Step>, a: nat, b: nat, epoch: nat, id: string) {
    && a < b < |steps| && steps[a].BeginAttempt?
    && steps[b] == FinishAttempt(steps[a].client, steps[a].generation, epoch, id)
    && (forall i {:trigger FinishOf(steps[i], epoch)} :: a < i < b ==> !FinishOf(steps[i], epoch))
  }

  /** Step c reported a turn with this id started on the given thread by the given translator. */
  predicate Started(steps: seq<Step>, a: nat, c: nat, translator: Option<nat>, thread: string, id: string) {
    a < c < |steps| && RootStart(steps[c], translator, thread) && steps[c].turn == id
  }

  ghost predicate ResponseKnown(steps: seq<Step>, a: nat, c: Confirmation) {
    exists b: nat :: Responded(steps, a, b, c.epoch, c.response) && OnlyTurn(steps, b, c.translator, c.thread, c.response)
  }

  ghost predicate StartKnown(steps: seq<Step>, a: nat, c: Confirmation) {
    exists i: nat :: Started(steps, a, i, c.translator, c.thread, c.started) && OnlyTurn(steps, i, c.translator, c.thread, c.started)
  }

  ghost predicate Evidence(trace: seq<State>, steps: seq<Step>, a: nat)
    requires |trace| == |steps| + 1
  {
    && LatestAttempt(trace, steps, a)
    && var s := trace[|steps|]; var c := s.confirmation;
       && (forall i {:trigger FinishOf(steps[i], c.epoch)} ::
             a < i < |steps| && FinishOf(steps[i], c.epoch) ==> c.epoch !in s.inFlight)
       && (Live(s) && c.response != "" && c.thread != "" ==> ResponseKnown(steps, a, c))
       && (Live(s) && c.started != "" ==> c.thread != "" && StartKnown(steps, a, c))
  }

  predicate ConfirmationOk(s: State) {
    var c := s.confirmation;
    && (c.mode != "" ==> c.mode == c.pending && c.response != "" && c.response == c.started)
    && (c.pending == "" ==> c.started == "" && c.mode == "")
    && (c.response != "" ==> c.epoch !in s.inFlight)
    && (forall e :: e in s.inFlight ==> e <= c.epoch)
  }

  lemma ConfirmationStep(s: State, step: Step)
    requires ConfirmationOk(s)
    ensures ConfirmationOk(Apply(s, step))
  {
  }

  /** A step that ends nothing keeps the attempt; only its own response and start fill the two factors, and a live child's
      root turn is the one started last and the one responded. */
  lemma QuietStep(s: State, step: Step)
    requires !Ends(s, step) && Apply(s, step).confirmation.pending != "" && !s.rotating && !s.tearingDown
    ensures var s' := Apply(s, step); var c, c' := s.confirmation, s'.confirmation;
      && s'.client == s.client && s'.generation == s.generation && !s'.rotating && !s'.tearingDown
      && c'.epoch == c.epoch && c'.pending == c.pending && c'.thread == c.thread && c'.translator == c.translator
      && (Live(s') ==> Live(s)) && s'.inFlight <= s.inFlight
      && (FinishOf(step, c.epoch) ==> c.epoch !in s'.inFlight)
      && (c'.response == c.response
          || (s.client.Some? && step == FinishAttempt(s.client.value, s.generation, c.epoch, c'.response) && c.epoch in s.inFlight))
      && (c'.started == c.started || (RootStart(step, c.translator, c.thread) && c.thread != "" && step.turn == c'.started))
      && (Live(s') && RootStart(step, c.translator, c.thread) && c.thread != "" ==>
            c'.started == step.turn && (c'.response != "" ==> step.turn == c'.response))
  {
  }

  lemma {:induction false} EvidenceExists(trace: seq<State>, steps: seq<Step>)
    requires IsRun(trace, steps) && trace[0].confirmation.pending == "" && ConfirmationOk(trace[0])
    ensures ConfirmationOk(trace[|steps|])
    ensures trace[|steps|].confirmation.pending != "" ==> exists a :: Evidence(trace, steps, a)
  {
    if steps != [] {
      var n := |steps| - 1;
      EvidenceExists(trace[..n + 1], steps[..n]);
      ConfirmationStep(trace[n], steps[n]);
      if trace[n + 1].confirmation.pending != "" {
        if Ends(trace[n], steps[n]) {
          assert Evidence(trace, steps, n);
        } else {
          PendingKept(trace[n], steps[n]);
          var a :| Evidence(trace[..n + 1], steps[..n], a);
          EvidenceGrows(trace, steps, a);
        }
      }
    }
  }
  lemma PendingKept(s: State, step: Step)
    requires !Ends(s, step) && Apply(s, step).confirmation.pending != ""
    ensures s.confirmation.pending == Apply(s, step).confirmation.pending
  {
  }

  lemma OnlyTurnGrows(steps: seq<Step>, i: nat, translator: Option<nat>, thread: string, id: string)
    requires steps != [] && OnlyTurn(steps[..|steps| - 1], i, translator, thread, id)
    requires RootStart(steps[|steps| - 1], translator, thread) ==> steps[|steps| - 1].turn == id
    ensures OnlyTurn(steps, i, translator, thread, id)
  {
    forall k | 0 <= k < |steps| && i < k && RootStart(steps[k], translator, thread) ensures steps[k].turn == id {
      if k < |steps| - 1 {
        assert RootStart(steps[..|steps| - 1][k], translator, thread);
      }
    }
  }

  lemma ResponseGrows(trace: seq<State>, steps: seq<Step>, a: nat)
    requires steps != [] && |trace| == |steps| + 1 && Evidence(trace[..|steps|], steps[..|steps| - 1], a)
    requires var n := |steps| - 1;
      trace[n + 1] == Apply(trace[n], steps[n]) && trace[n + 1].confirmation.pending != "" && !Ends(trace[n], steps[n])
    requires Live(trace[|steps|])
    requires trace[|steps|].confirmation.response != "" && trace[|steps|].confirmation.thread != ""
    ensures ResponseKnown(steps, a, trace[|steps|].confirmation)
  {
    var n := |steps| - 1;
    var front := steps[..n];
    QuietStep(trace[n], steps[n]);
    var c, c' := trace[n].confirmation, trace[n + 1].confirmation;
    if c'.response == c.response {
      var b: nat :| Responded(front, a, b, c.epoch, c.response) && OnlyTurn(front, b, c.translator, c.thread, c.response);
      OnlyTurnGrows(steps, b, c.translator, c.thread, c.response);
      forall i | a < i < b ensures !FinishOf(steps[i], c.epoch) {
        assert steps[i] == front[i];
      }
      assert Responded(steps, a, b, c'.epoch, c'.response);
    } else {
      forall i | a < i < n ensures !FinishOf(steps[i], c.epoch) {
        assert steps[i] == front[i];
      }
      assert Responded(steps, a, n, c'.epoch, c'.response);
      assert OnlyTurn(steps, n, c'.translator, c'.thread, c'.response);
    }
  }

  lemma StartGrows(trace: seq<State>, steps: seq<Step>, a: nat)
    requires steps != [] && |trace| == |steps| + 1 && Evidence(trace[..|steps|], steps[..|steps| - 1], a)
    requires var n := |steps| - 1;
      trace[n + 1] == Apply(trace[n], steps[n]) && trace[n + 1].confirmation.pending != "" && !Ends(trace[n], steps[n])
    requires Live(trace[|steps|]) && trace[|steps|].confirmation.started != ""
    ensures trace[|steps|].confirmation.thread != "" && StartKnown(steps, a, trace[|steps|].confirmation)
  {
    var n := |steps| - 1;
    QuietStep(trace[n], steps[n]);
    var c, c' := trace[n].confirmation, trace[n + 1].confirmation;
    if RootStart(steps[n], c.translator, c.thread) && c.thread != "" {
      assert Started(steps, a, n, c'.translator, c'.thread, c'.started);
      assert OnlyTurn(steps, n, c'.translator, c'.thread, c'.started);
    } else {
      var i: nat :| Started(steps[..n], a, i, c.translator, c.thread, c.started) && OnlyTurn(steps[..n], i, c.translator, c.thread, c.started);
      OnlyTurnGrows(steps, i, c.translator, c.thread, c.started);
      assert Started(steps, a, i, c'.translator, c'.thread, c'.started);
    }
  }

  lemma EvidenceGrows(trace: seq<State>, steps: seq<Step>, a: nat)
    requires steps != [] && |trace| == |steps| + 1 && Evidence(trace[..|steps|], steps[..|steps| - 1], a)
    requires var n := |steps| - 1;
      trace[n + 1] == Apply(trace[n], steps[n]) && trace[n + 1].confirmation.pending != "" && !Ends(trace[n], steps[n])
    ensures Evidence(trace, steps, a)
  {
    var n := |steps| - 1;
    var front := steps[..n];
    QuietStep(trace[n], steps[n]);
    assert forall i :: a < i < n ==> !Ends(trace[..n + 1][i], front[i]);
    assert LatestAttempt(trace, steps, a);
    var s' := trace[n + 1];
    forall i | a < i < |steps| && FinishOf(steps[i], s'.confirmation.epoch) ensures s'.confirmation.epoch !in s'.inFlight {
      if i < n {
        assert FinishOf(front[i], trace[n].confirmation.epoch);
      }
    }
    if Live(s') && s'.confirmation.response != "" && s'.confirmation.thread != "" {
      ResponseGrows(trace, steps, a);
    }
    if Live(s') && s'.confirmation.started != "" {
      StartGrows(trace, steps, a);
    }
  }

  /** Step a is an accepted attempt with this recognised mode, b its response and c a turn started on its thread by its
      translator, both with one id; after b and after c no other root turn started; nothing ended the attempt and its child
      is still there. */
  ghost predicate Grants(trace: seq<State>, steps: seq<Step>, a: nat, b: nat, c: nat, mode: string)
    requires |trace| == |steps| + 1
  {
    && a < |steps| && steps[a].BeginAttempt? && steps[a].mode == mode && mode in RECOGNISED
    && AttemptAccepted(trace[a], steps[a].client, steps[a].generation)
    && (forall i :: a < i < |steps| ==> !Ends(trace[i], steps[i]))
    && steps[a].client !in trace[|steps|].exited
    && c < |steps| && steps[c].TurnStarted? && steps[c].turn != ""
    && var translator, thread, id := trace[a].confirmation.translator, trace[a].thread, steps[c].turn;
    && thread != ""
    && Responded(steps, a, b, trace[a].confirmation.epoch + 1, id)
    && Started(steps, a, c, translator, thread, id)
    && OnlyTurn(steps, b, translator, thread, id) && OnlyTurn(steps, c, translator, thread, id)
  }

  /** In every reachable state a confirmed mode is the mode of the latest attempt: its response and a turn start
      on the attempt's own thread, from the child still bound, carried one id; and no later attempt, rotation,
      teardown, restart, rebind or exit of that child, and no other root turn, lies in between. */
  lemma ConfirmedModeIsJustified(thread: string, tag: string, trace: seq<State>, steps: seq<Step>)
    returns (a: nat, b: nat, c: nat)
    requires IsRun(trace, steps) && trace[0] == Initial(thread, tag) && Confirmed(trace[|steps|]) != ""
    ensures Grants(trace, steps, a, b, c, Confirmed(trace[|steps|]))
  {
    EvidenceExists(trace, steps);
    PendingRecognised(trace, steps, |steps|);
    a :| Evidence(trace, steps, a);
    b, c := Granted(trace, steps, a);
  }

  lemma Granted(trace: seq<State>, steps: seq<Step>, a: nat) returns (b: nat, c: nat)
    requires |trace| == |steps| + 1 && Evidence(trace, steps, a) && Live(trace[|steps|])
    requires var now := trace[|steps|].confirmation; now.response == now.started != "" && now.mode == now.pending && now.pending in RECOGNISED
    ensures Grants(trace, steps, a, b, c, trace[|steps|].confirmation.mode)
  {
    b, c := Factors(trace, steps, a);
    assert LatestAttempt(trace, steps, a);
  }

  lemma Factors(trace: seq<State>, steps: seq<Step>, a: nat) returns (b: nat, c: nat)
    requires |trace| == |steps| + 1 && Evidence(trace, steps, a) && Live(trace[|steps|])
    requires var now := trace[|steps|].confirmation; now.response == now.started != ""
    ensures var now := trace[|steps|].confirmation;
      && now.thread != "" && Responded(steps, a, b, now.epoch, now.started) && Started(steps, a, c, now.translator, now.thread, now.started)
      && OnlyTurn(steps, b, now.translator, now.thread, now.started) && OnlyTurn(steps, c, now.translator, now.thread, now.started)
  {
    var now := trace[|steps|].confirmation;
    assert ResponseKnown(steps, a, now) && StartKnown(steps, a, now);
    b :| Responded(steps, a, b, now.epoch, now.response) && OnlyTurn(steps, b, now.translator, now.thread, now.response);
    c :| Started(steps, a, c, now.translator, now.thread, now.started) && OnlyTurn(steps, c, now.translator, now.thread, now.started);
  }

  lemma {:induction false} PendingRecognised(trace: seq<State>, steps: seq<Step>, n: nat)
    requires IsRun(trace, steps) && n <= |steps| && trace[0].confirmation.pending == ""
    ensures trace[n].confirmation.pending == "" || trace[n].confirmation.pending in RECOGNISED
  {
    if n > 0 {
      PendingRecognised(trace, steps, n - 1);
      assert trace[n] == Apply(trace[n - 1], steps[n - 1]);
      RecognisedStep(trace[n - 1], steps[n - 1]);
    }
  }

  lemma RecognisedStep(s: State, step: Step)
    ensures var p := Apply(s, step).confirmation.pending; p == "" || p == s.confirmation.pending || p in RECOGNISED
  {
  }

  /** The attempt as it stands before step j: which of its two factors have come. */
  predicate Stands(s: State, at: State, client: nat, mode: string, id: string, responded: bool, started: bool) {
    && Carries(s, at, client, mode) && (client !in s.exited ==> Live(s))
    && var c := s.confirmation;
    && (if responded then c.response == id else c.response == "" && c.epoch in s.inFlight)
    && (responded ==> c.epoch !in s.inFlight)
    && (started ==> c.started == id)
    && (responded && started ==> c.mode == mode)
  }

  /** One step moves it on. response and start say that the step is the awaited one; another start may only come before
      both. */
  lemma StandsStep(s: State, step: Step, at: State, client: nat, mode: string, id: string, responded: bool, started: bool)
    requires Stands(s, at, client, mode, id, responded, started) && !Ends(s, step)
    requires mode != "" && id != "" && at.thread != "" && client !in Apply(s, step).exited
    requires FinishOf(step, s.confirmation.epoch) ==> responded || step == FinishAttempt(client, at.generation, s.confirmation.epoch, id)
    requires RootStart(step, at.confirmation.translator, at.thread) ==> (!responded && !started) || step.turn == id
    ensures Stands(Apply(s, step), at, client, mode, id, responded || FinishOf(step, s.confirmation.epoch),
                   started || (RootStart(step, at.confirmation.translator, at.thread) && step.turn == id))
  {
  }

  lemma {:induction false} StandsAt(trace: seq<State>, steps: seq<Step>, a: nat, b: nat, c: nat, mode: string, j: nat)
    requires IsRun(trace, steps) && Grants(trace, steps, a, b, c, mode) && a < j <= |steps|
    requires ConfirmationOk(trace[a])
    ensures Stands(trace[j], trace[a], steps[a].client, mode, steps[c].turn, b < j, c < j)
    decreases j
  {
    if j == a + 1 {
      assert trace[j] == Apply(trace[a], steps[a]);
      ExitStays(trace, steps, j, |steps|);
    } else {
      var i := j - 1;
      var at, client, id := trace[a], steps[a].client, steps[c].turn;
      StandsAt(trace, steps, a, b, c, mode, i);
      assert trace[j] == Apply(trace[i], steps[i]);
      ExitStays(trace, steps, j, |steps|);
      assert FinishOf(steps[i], at.confirmation.epoch + 1) ==> b <= i;
      assert RootStart(steps[i], at.confirmation.translator, at.thread) && (b < i || c < i) ==> steps[i].turn == id;
      StandsStep(trace[i], steps[i], at, client, mode, id, b < i, c < i);
    }
  }

  lemma {:induction false} ExitStays(trace: seq<State>, steps: seq<Step>, i: nat, j: nat)
    requires IsRun(trace, steps) && i <= j <= |steps|
    ensures trace[i].exited <= trace[j].exited
  {
    if i < j {
      ExitStays(trace, steps, i, j - 1);
      assert trace[j] == Apply(trace[j - 1], steps[j - 1]);
    }
  }

  /** Over every run a mode is confirmed exactly when an attempt at it was granted: an accepted attempt, its response and a
      root turn with the same id, in either order, and nothing since that takes it back. */
  lemma ConfirmedIff(thread: string, tag: string, trace: seq<State>, steps: seq<Step>, mode: string)
    requires IsRun(trace, steps) && trace[0] == Initial(thread, tag) && mode != ""
    ensures Confirmed(trace[|steps|]) == mode <==> exists a, b, c :: Grants(trace, steps, a, b, c, mode)
  {
    if Confirmed(trace[|steps|]) == mode {
      var a, b, c := ConfirmedModeIsJustified(thread, tag, trace, steps);
      assert Grants(trace, steps, a, b, c, mode);
    }
    if a: nat, b: nat, c: nat :| Grants(trace, steps, a, b, c, mode) {
      GrantConfirms(trace, steps, a, b, c, mode);
    }
  }

  lemma GrantConfirms(trace: seq<State>, steps: seq<Step>, a: nat, b: nat, c: nat, mode: string)
    requires IsRun(trace, steps) && trace[0].confirmation.pending == "" && ConfirmationOk(trace[0])
    requires Grants(trace, steps, a, b, c, mode)
    ensures Confirmed(trace[|steps|]) == mode
  {
    RunOk(trace, steps, a);
    StandsAt(trace, steps, a, b, c, mode, |steps|);
  }

  lemma {:induction false} RunOk(trace: seq<State>, steps: seq<Step>, n: nat)
    requires IsRun(trace, steps) && n <= |steps| && ConfirmationOk(trace[0])
    ensures ConfirmationOk(trace[n])
  {
    if n > 0 {
      RunOk(trace, steps, n - 1);
      ConfirmationStep(trace[n - 1], steps[n - 1]);
    }
  }

  lemma EpochStep(s: State, step: Step)
    ensures s.confirmation.epoch <= Apply(s, step).confirmation.epoch
  {
    match step {
      case Bind(_, _, _, _, _) =>
      case BeginAttempt(_, _, _) =>
      case FinishAttempt(_, _, _, _) =>
      case TurnStarted(_, _, _) =>
      case _ =>
    }
  }

  lemma {:induction false} EpochRun(s: State, steps: seq<Step>)
    ensures s.confirmation.epoch <= Run(s, steps).confirmation.epoch
  {
    if steps != [] {
      EpochRun(s, steps[..|steps| - 1]);
      EpochStep(Run(s, steps[..|steps| - 1]), steps[|steps| - 1]);
    }
  }

  lemma StaleResponse(s: State, client: nat, generation: nat, epoch: nat, turn: string)
    requires epoch < s.confirmation.epoch
    ensures Apply(s, FinishAttempt(client, generation, epoch, turn)) == s.(inFlight := s.inFlight - {epoch})
  {
  }

  /** Epochs only rise, so a response carrying a superseded epoch never has any effect again. */
  lemma StaleEpochIsInert(s: State, steps: seq<Step>, client: nat, generation: nat, epoch: nat, turn: string)
    requires epoch < s.confirmation.epoch
    ensures s.confirmation.epoch <= Run(s, steps).confirmation.epoch
    ensures var s' := Run(s, steps);
      Apply(s', FinishAttempt(client, generation, epoch, turn)) == s'.(inFlight := s'.inFlight - {epoch})
  {
    EpochRun(s, steps);
    StaleResponse(Run(s, steps), client, generation, epoch, turn);
  }

  // ---------------------------------------------------------------- thread ownership

  predicate Owned(s: State, thread: string, sequence: nat) {
    thread in s.owned && s.owned[thread] == sequence
  }

  predicate SpawnOk(s: State, sp: Spawn) {
    sp.sequence <= s.freshSeq && (sp.thread != "" ==> Owned(s, sp.thread, sp.sequence))
  }

  predicate ReportOk(s: State, r: Report) {
    r.thread in s.owned && s.owned[r.thread] < |s.tags| && r.tag == s.tags[s.owned[r.thread]]
  }

  predicate ThreadOk(s: State) {
    && |s.tags| == s.freshSeq + 1
    && (s.thread != "" ==> Owned(s, s.thread, s.freshSeq))
    && (forall i :: 0 <= i < |s.spawns| ==> SpawnOk(s, s.spawns[i]))
    && (forall i :: 0 <= i < |s.reports| ==> ReportOk(s, s.reports[i]))
  }

  lemma ThreadBind(s: State, sp: Spawn, client: nat, translator: nat, startedThread: string)
    requires ThreadOk(s) && SpawnOk(s, sp)
    requires sp.thread == "" ==> startedThread != "" && startedThread !in s.owned
    ensures ThreadOk(BoundFrom(s, sp, client, translator, startedThread))
  {
    var s' := BoundFrom(s, sp, client, translator, startedThread);
    assert forall t :: t in s.owned ==> Owned(s', t, s.owned[t]);
    forall i | 0 <= i < |s'.spawns| ensures SpawnOk(s', s'.spawns[i]) {
      assert SpawnOk(s, s.spawns[i]);
    }
    forall i | 0 <= i < |s'.reports| ensures ReportOk(s', s'.reports[i]) {
      if i < |s.reports| {
        assert ReportOk(s, s.reports[i]);
        assert Owned(s', s.reports[i].thread, s.owned[s.reports[i].thread]);
      }
    }
  }

  lemma ThreadStep(s: State, step: Step)
    requires ThreadOk(s)
    ensures ThreadOk(Apply(s, step))
  {
    if step.Bind? {
      if BindAccepted(s, step) {
        ThreadBind(s, s.spawns[step.spawn], step.client, step.translator, step.startedThread);
      }
    } else if step.RestartFresh? || step.SpawnBegin? {
      var s' := Apply(s, step);
      forall i | 0 <= i < |s'.spawns| ensures SpawnOk(s', s'.spawns[i]) {
        if i < |s.spawns| {
          assert SpawnOk(s, s.spawns[i]);
        }
      }
      forall i | 0 <= i < |s'.reports| ensures ReportOk(s', s'.reports[i]) {
        assert ReportOk(s, s.reports[i]);
      }
    } else {
      ThreadFrame(s, Apply(s, step));
    }
  }

  lemma ThreadFrame(s: State, s': State)
    requires ThreadOk(s)
    requires s'.thread == s.thread && s'.owned == s.owned && s'.tags == s.tags && s'.freshSeq == s.freshSeq
    requires s'.spawns == s.spawns && s'.reports == s.reports
    ensures ThreadOk(s')
  {
    forall i | 0 <= i < |s'.spawns| ensures SpawnOk(s', s'.spawns[i]) {
      assert SpawnOk(s, s.spawns[i]);
    }
    forall i | 0 <= i < |s'.reports| ensures ReportOk(s', s'.reports[i]) {
      assert ReportOk(s, s.reports[i]);
    }
  }

  lemma SequenceStep(s: State, step: Step)
    ensures s.freshSeq <= Apply(s, step).freshSeq && s.spawns <= Apply(s, step).spawns
  {
  }

  lemma {:induction false} ThreadRun(s: State, steps: seq<Step>)
    requires ThreadOk(s)
    ensures ThreadOk(Run(s, steps))
    ensures s.freshSeq <= Run(s, steps).freshSeq && s.spawns <= Run(s, steps).spawns
  {
    if steps != [] {
      var mid := Run(s, steps[..|steps| - 1]);
      ThreadRun(s, steps[..|steps| - 1]);
      ThreadStep(mid, steps[|steps| - 1]);
      SequenceStep(mid, steps[|steps| - 1]);
    }
  }

  /** A held thread belongs to the current fresh sequence, and every report names the session tag of the
      sequence that started its thread. */
  lemma HeldThreadIsFresh(thread: string, tag: string, steps: seq<Step>)
    ensures var s := Run(Initial(thread, tag), steps);
      && |s.tags| == s.freshSeq + 1
      && (s.thread != "" ==> Owned(s, s.thread, s.freshSeq))
      && (forall i :: 0 <= i < |s.reports| ==> ReportOk(s, s.reports[i]))
  {
    ThreadRun(Initial(thread, tag), steps);
  }

  /** A spawn begun before RestartFresh can neither restore nor report a thread afterwards. */
  lemma StaleSpawnIsSilent(thread: string, tag: string, before: seq<Step>, newId: string, after: seq<Step>, bind: Step)
    requires newId != "" && bind.Bind? && bind.spawn < |Run(Initial(thread, tag), before).spawns|
    ensures var s := Run(Apply(Run(Initial(thread, tag), before), RestartFresh(newId)), after);
      Apply(s, bind).thread == s.thread && Apply(s, bind).reports == s.reports
  {
    var s0 := Run(Initial(thread, tag), before);
    ThreadRun(Initial(thread, tag), before);
    ThreadStep(s0, RestartFresh(newId));
    var s1 := Apply(s0, RestartFresh(newId));
    ThreadRun(s1, after);
    var s := Run(s1, after);
    assert s.spawns[bind.spawn] == s1.spawns[bind.spawn] == s0.spawns[bind.spawn];
  }

  // ---------------------------------------------------------------- rotation gate

  lemma {:induction false} FreshBetween(trace: seq<State>, steps: seq<Step>, r: nat, p: nat) returns (f: nat)
    requires IsRun(trace, steps) && r <= p <= |steps| && trace[r].freshSeq < trace[p].freshSeq
    ensures r <= f < p && steps[f].RestartFresh? && steps[f].newId != ""
    decreases p
  {
    f := p - 1;
    assert trace[p] == Apply(trace[f], steps[f]);
    if !(steps[f].RestartFresh? && steps[f].newId != "") {
      f := FreshBetween(trace, steps, r, f);
    }
  }

  lemma {:induction false} FreshMonotone(trace: seq<State>, steps: seq<Step>, i: nat, j: nat)
    requires IsRun(trace, steps) && i <= j <= |steps|
    ensures trace[i].freshSeq <= trace[j].freshSeq
  {
    if i < j {
      FreshMonotone(trace, steps, i, j - 1);
      assert trace[j] == Apply(trace[j - 1], steps[j - 1]);
    }
  }

  /** Where the latest arm before position j was made. */
  lemma {:induction false} ArmOrigin(trace: seq<State>, steps: seq<Step>, j: nat) returns (r: nat)
    requires IsRun(trace, steps) && j <= |steps| && !trace[0].rotating && trace[j].rotating
    ensures r < j && steps[r].BeginRotation?
    ensures forall i :: r < i < j ==> !steps[i].BeginRotation?
    ensures trace[j].armFresh == trace[r].freshSeq && trace[j].rotateGen == trace[r].rotateGen + 1
  {
    r := j - 1;
    assert trace[j] == Apply(trace[r], steps[r]);
    if !steps[r].BeginRotation? {
      r := ArmOrigin(trace, steps, r);
    }
  }

  /** Where a spawn took its snapshot. */
  lemma {:induction false} SpawnOrigin(trace: seq<State>, steps: seq<Step>, k: nat, j: nat) returns (p: nat)
    requires IsRun(trace, steps) && j <= |steps| && trace[0].spawns == [] && k < |trace[j].spawns|
    ensures p < j && steps[p].SpawnBegin? && |trace[p].spawns| == k
    ensures trace[j].spawns[k].sequence == trace[p].freshSeq
  {
    p := j - 1;
    assert trace[j] == Apply(trace[p], steps[p]);
    if k < |trace[p].spawns| {
      p := SpawnOrigin(trace, steps, k, p);
    }
  }

  /** An armed gate opens only by the latest arm's own abort, or by a bind whose spawn began after a RestartFresh
      that followed that arm: r arms, f restarts fresh, p spawns, in that order. */
  lemma GateOpensOnlyBy(thread: string, tag: string, trace: seq<State>, steps: seq<Step>, step: Step)
    returns (r: nat, f: nat, p: nat)
    requires IsRun(trace, steps) && trace[0] == Initial(thread, tag)
    requires trace[|steps|].rotating && !Apply(trace[|steps|], step).rotating
    ensures r < |steps| && steps[r].BeginRotation? && forall i :: r < i < |steps| ==> !steps[i].BeginRotation?
    ensures
      || (step.Abort? && step.arm == trace[r].rotateGen + 1)
      || (&& step.Bind?
          && r < f < p < |steps|
          && steps[f].RestartFresh? && steps[f].newId != ""
          && steps[p].SpawnBegin? && |trace[p].spawns| == step.spawn)
  {
    r := ArmOrigin(trace, steps, |steps|);
    f, p := 0, 0;
    if step.Bind? {
      p := SpawnOrigin(trace, steps, step.spawn, |steps|);
      if p <= r {
        FreshMonotone(trace, steps, p, r);
        assert false;
      }
      f := FreshBetween(trace, steps, r, p);
    }
  }

  /** The spawn that took its snapshot in step p keeps it. */
  lemma {:induction false} SpawnKept(trace: seq<State>, steps: seq<Step>, p: nat, j: nat)
    requires IsRun(trace, steps) && p < j <= |steps| && steps[p].SpawnBegin?
    ensures var k := |trace[p].spawns|; k < |trace[j].spawns| && trace[j].spawns[k] == Spawn(trace[p].thread, trace[p].freshSeq)
  {
    assert trace[j] == Apply(trace[j - 1], steps[j - 1]);
    if p < j - 1 {
      SpawnKept(trace, steps, p, j - 1);
    }
  }

  lemma {:induction false} FreshRises(trace: seq<State>, steps: seq<Step>, i: nat, f: nat, j: nat)
    requires IsRun(trace, steps) && i <= f < j <= |steps| && steps[f].RestartFresh? && steps[f].newId != ""
    ensures trace[i].freshSeq < trace[j].freshSeq
  {
    FreshMonotone(trace, steps, i, f);
    assert trace[f + 1] == Apply(trace[f], steps[f]);
    FreshMonotone(trace, steps, f + 1, j);
  }

  /** And these do open it: the latest arm's own abort, and any accepted bind whose spawn began after a RestartFresh behind
      that arm. */
  lemma GateOpensIff(thread: string, tag: string, trace: seq<State>, steps: seq<Step>, step: Step, r: nat)
    requires IsRun(trace, steps) && trace[0] == Initial(thread, tag) && trace[|steps|].rotating
    requires r < |steps| && steps[r].BeginRotation? && forall i :: r < i < |steps| ==> !steps[i].BeginRotation?
    ensures !Apply(trace[|steps|], step).rotating <==>
      || step == Abort(trace[r].rotateGen + 1)
      || (&& step.Bind? && BindAccepted(trace[|steps|], step)
          && exists f, p {:trigger steps[f], steps[p]} ::
               r < f < p < |steps| && steps[f].RestartFresh? && steps[f].newId != ""
               && steps[p].SpawnBegin? && |trace[p].spawns| == step.spawn)
  {
    var s := trace[|steps|];
    var r' := ArmOrigin(trace, steps, |steps|);
    assert r' == r;
    if !Apply(s, step).rotating {
      var r'', f, p := GateOpensOnlyBy(thread, tag, trace, steps, step);
      assert r'' == r;
    }
    if f: nat, p: nat :|
      (&& step.Bind? && BindAccepted(s, step) && r < f < p < |steps| && steps[f].RestartFresh? && steps[f].newId != ""
       && steps[p].SpawnBegin? && |trace[p].spawns| == step.spawn)
    {
      SpawnKept(trace, steps, p, |steps|);
      FreshRises(trace, steps, r, f, p);
    }
  }

  /** A bind of a spawn begun in step p holds the thread it resumed or started, and reports a started one under the newest
      session tag, exactly when no RestartFresh came since; in any case its child is the bound one and confirms nothing. */
  lemma BindHoldsIff(thread: string, tag: string, trace: seq<State>, steps: seq<Step>, p: nat, bind: Step)
    requires IsRun(trace, steps) && trace[0] == Initial(thread, tag)
    requires p < |steps| && steps[p].SpawnBegin? && bind.Bind? && bind.spawn == |trace[p].spawns|
    requires BindAccepted(trace[|steps|], bind)
    ensures var s := trace[|steps|];
      var s' := Apply(s, bind);
      var resumed := trace[p].thread;
      && s'.client == Some(bind.client) && s'.confirmation.translator == Some(bind.translator) && Confirmed(s') == ""
      && if exists f :: p < f < |steps| && steps[f].RestartFresh? && steps[f].newId != ""
         then s'.thread == s.thread && s'.reports == s.reports
         else
           && s'.thread == (if resumed == "" then bind.startedThread else resumed)
           && s.tags != []
           && s'.reports == s.reports + if resumed == "" then [Report(s.tags[|s.tags| - 1], bind.startedThread)] else []
  {
    SpawnKept(trace, steps, p, |steps|);
    TagsRun(trace, steps, |steps|);
    FreshMonotone(trace, steps, p, |steps|);
    if trace[p].freshSeq < trace[|steps|].freshSeq {
      FreshSince(trace, steps, p);
    }
    if f: nat :| p < f < |steps| && steps[f].RestartFresh? && steps[f].newId != "" {
      FreshRises(trace, steps, p, f, |steps|);
    }
  }

  lemma FreshSince(trace: seq<State>, steps: seq<Step>, p: nat)
    requires IsRun(trace, steps) && p < |steps| && trace[p].freshSeq < trace[|steps|].freshSeq && steps[p].SpawnBegin?
    ensures exists f :: p < f < |steps| && steps[f].RestartFresh? && steps[f].newId != ""
  {
    var f := FreshBetween(trace, steps, p, |steps|);
  }

  lemma {:induction false} TagsRun(trace: seq<State>, steps: seq<Step>, n: nat)
    requires IsRun(trace, steps) && n <= |steps| && |trace[0].tags| == trace[0].freshSeq + 1
    ensures |trace[n].tags| == trace[n].freshSeq + 1
  {
    if n > 0 {
      TagsRun(trace, steps, n - 1);
      assert trace[n] == Apply(trace[n - 1], steps[n - 1]);
    }
  }

  /** The child bound in this state is lost: another binding or its end, the end of the iteration, a teardown, a fresh
      restart. */
  predicate Unbinds(s: State, step: Step) {
    match step
    case Bind(_, _, _, _, _) => BindAccepted(s, step)
    case Unbind => true
    case EndIteration => true
    case BeginTeardown => true
    case RestartFresh(newId) => newId != ""
    case _ => false
  }

  /** Step k bound the child that is still bound before step n. */
  ghost predicate BoundAt(trace: seq<State>, steps: seq<Step>, n: nat, k: nat)
    requires |trace| == |steps| + 1 && n <= |steps|
  {
    && k < n && steps[k].Bind? && BindAccepted(trace[k], steps[k]) && trace[n].client == Some(steps[k].client)
    && trace[n].confirmation.translator == Some(steps[k].translator)
    && forall j :: k < j < n ==> !Unbinds(trace[j], steps[j])
  }

  predicate Ready(s: State) {
    s.client.Some? && s.confirmation.translator.Some? && !s.tearingDown
  }

  lemma ReadyStep(s: State, step: Step)
    ensures step.Bind? && BindAccepted(s, step) ==>
      Ready(Apply(s, step)) && Apply(s, step).client == Some(step.client) && Apply(s, step).confirmation.translator == Some(step.translator)
    ensures Unbinds(s, step) && !step.Bind? ==> !Ready(Apply(s, step))
    ensures !Unbinds(s, step) ==>
      && (Ready(Apply(s, step)) <==> Ready(s)) && Apply(s, step).client == s.client
      && Apply(s, step).confirmation.translator == s.confirmation.translator
  {
  }

  lemma {:induction false} ReadyIff(trace: seq<State>, steps: seq<Step>, n: nat)
    requires IsRun(trace, steps) && n <= |steps| && !Ready(trace[0])
    ensures Ready(trace[n]) <==> exists k :: BoundAt(trace, steps, n, k)
  {
    if n > 0 {
      var m := n - 1;
      ReadyIff(trace, steps, m);
      ReadyStep(trace[m], steps[m]);
      assert trace[n] == Apply(trace[m], steps[m]);
      if steps[m].Bind? && BindAccepted(trace[m], steps[m]) {
        assert BoundAt(trace, steps, n, m);
      } else if !Unbinds(trace[m], steps[m]) {
        if k: nat :| BoundAt(trace, steps, m, k) {
          assert BoundAt(trace, steps, n, k);
        }
        if k: nat :| BoundAt(trace, steps, n, k) {
          assert BoundAt(trace, steps, m, k);
        }
      }
    }
  }

  lemma {:induction false} ExitedIff(trace: seq<State>, steps: seq<Step>, n: nat, client: nat)
    requires IsRun(trace, steps) && n <= |steps| && trace[0].exited == {}
    ensures client in trace[n].exited <==> exists k :: 0 <= k < n && steps[k] == ClientExit(client)
  {
    if n > 0 {
      ExitedIff(trace, steps, n - 1, client);
      assert trace[n] == Apply(trace[n - 1], steps[n - 1]);
    }
  }

  /** Over every run, an attempt is accepted exactly from the child bound last, if nothing unbound or tore it down since, it
      has not exited and the gate is open. */
  lemma AttemptAcceptedIff(thread: string, tag: string, trace: seq<State>, steps: seq<Step>, client: nat)
    requires IsRun(trace, steps) && trace[0] == Initial(thread, tag)
    ensures AttemptAccepted(trace[|steps|], client, trace[|steps|].generation) <==>
      && (exists k: nat :: BoundAt(trace, steps, |steps|, k) && steps[k].client == client)
      && (forall k :: 0 <= k < |steps| ==> steps[k] != ClientExit(client))
      && !trace[|steps|].rotating
  {
    ReadyIff(trace, steps, |steps|);
    ExitedIff(trace, steps, |steps|, client);
    var s := trace[|steps|];
    assert AttemptAccepted(s, client, s.generation) <==> Ready(s) && s.client == Some(client) && !s.rotating && client !in s.exited;
    if k: nat :| BoundAt(trace, steps, |steps|, k) {
      assert s.client == Some(steps[k].client);
    }
  }

  /** The child generation counts accepted binds and unbinds, so an attempt or a response that carries an earlier child's
      generation is refused whatever its client. */
  lemma {:induction false} GenerationRises(trace: seq<State>, steps: seq<Step>, i: nat, j: nat)
    requires IsRun(trace, steps) && i <= j <= |steps|
    ensures trace[i].generation <= trace[j].generation
    ensures trace[i].generation == trace[j].generation <==>
      forall k :: i <= k < j ==> !(steps[k].Unbind? || (steps[k].Bind? && BindAccepted(trace[k], steps[k])))
  {
    if i < j {
      GenerationRises(trace, steps, i, j - 1);
      assert trace[j] == Apply(trace[j - 1], steps[j - 1]);
    }
  }

  /** Arming closes the gate under a new number, and it stays closed until a step that GateOpensIff names. */
  lemma {:induction false} GateStaysClosed(trace: seq<State>, steps: seq<Step>, r: nat, n: nat)
    requires IsRun(trace, steps) && r < n <= |steps| && steps[r].BeginRotation?
    requires forall i :: r < i < n ==>
      && !(steps[i].Abort? && steps[i].arm == trace[i].rotateGen)
      && !(steps[i].Bind? && BindAccepted(trace[i], steps[i]) && trace[i].armFresh < trace[i].spawns[steps[i].spawn].sequence)
    ensures trace[n].rotating && trace[r].rotateGen < trace[n].rotateGen
  {
    assert trace[n] == Apply(trace[n - 1], steps[n - 1]);
    if r < n - 1 {
      GateStaysClosed(trace, steps, r, n - 1);
    }
  }

  /** No turn attempt begins and no mode is confirmed while the gate is armed. */
  lemma ArmedGateRefusesTurns(s: State, client: nat, generation: nat, mode: string)
    requires s.rotating
    ensures Apply(s, BeginAttempt(client, generation, mode)) == s && Confirmed(s) == ""
  {
  }

  // ---------------------------------------------------------------- the runner object

  class Runner {
    var client: Option<nat>
    var exited: set<nat>
    var generation: nat
    var confirmation: Confirmation
    var rotating: bool
    var rotateGen: nat
    var armFresh: nat
    var freshSeq: nat
    var thread: string
    var tearingDown: bool
    var inFlight: set<nat>
    var spawns: seq<Spawn>
    var reports: seq<Report>
    ghost var owned: map<string, nat>
    var tags: seq<string>

    ghost function View(): State
      reads this
    {
      State(client, exited, generation, confirmation, rotating, rotateGen, armFresh, freshSeq, thread, tearingDown,
            inFlight, spawns, reports, owned, tags)
    }

    ghost predicate Valid()
      reads this
    {
      ConfirmationOk(View()) && ThreadOk(View())
    }

    twostate lemma Kept(step: Step)
      requires old(Valid()) && View() == Apply(old(View()), step)
      ensures Valid()
    {
      ConfirmationStep(old(View()), step);
      ThreadStep(old(View()), step);
    }

    constructor (threadId: string, tag: string)
      ensures Valid() && View() == Initial(threadId, tag)
    {
      client, exited, generation := None, {}, 0;
      confirmation := Confirmation(0, None, "", "", "", "", "");
      rotating, rotateGen, armFresh, freshSeq, thread, tearingDown := false, 0, 0, 0, threadId, false;
      inFlight, spawns, reports, tags := {}, [], [], [tag];
      owned := if threadId == "" then map[] else map[threadId := 0];
    }

    predicate ChildLive()
      reads this
    {
      && client.Some? && confirmation.translator.Some? && !rotating && !tearingDown
      && client.value !in exited
    }

    method ConfirmedPermissionMode() returns (mode: string)
      ensures mode == Confirmed(View())
    {
      if !ChildLive() {
        return "";
      }
      mode := confirmation.mode;
    }

    method Invalidate()
      modifies this`confirmation
      ensures confirmation == Invalidated(old(confirmation))
    {
      confirmation := Confirmation(confirmation.epoch + 1, confirmation.translator, "", "", "", "", "");
    }

    method Join()
      modifies this`confirmation
      ensures confirmation == Joined(old(confirmation))
    {
      if confirmation.response != "" && confirmation.response == confirmation.started {
        confirmation := confirmation.(mode := confirmation.pending);
      }
    }

    method BeginPermissionAttempt(c: nat, childGeneration: nat, mode: string) returns (epoch: nat, ok: bool)
      requires Valid()
      modifies this
      ensures Valid() && View() == Apply(old(View()), BeginAttempt(c, childGeneration, mode))
      ensures ok <==> AttemptAccepted(old(View()), c, childGeneration)
      ensures ok ==> epoch == confirmation.epoch
    {
      if client != Some(c) || generation != childGeneration || !ChildLive() {
        return 0, false;
      }
      Invalidate();
      if mode in RECOGNISED {
        confirmation := confirmation.(pending := mode);
      }
      confirmation := confirmation.(thread := thread);
      inFlight := inFlight + {confirmation.epoch};
      epoch, ok := confirmation.epoch, true;
      Kept(BeginAttempt(c, childGeneration, mode));
    }

    method FinishPermissionAttempt(c: nat, childGeneration: nat, epoch: nat, turn: string)
      requires Valid() && epoch in inFlight
      modifies this
      ensures Valid() && View() == Apply(old(View()), FinishAttempt(c, childGeneration, epoch, turn))
    {
      inFlight := inFlight - {epoch};
      if client == Some(c) && generation == childGeneration && confirmation.epoch == epoch && ChildLive() {
        if turn == "" {
          Invalidate();
        } else {
          confirmation := confirmation.(response := turn);
          Join();
        }
      }
      Kept(FinishAttempt(c, childGeneration, epoch, turn));
    }

    method PermissionTurnStarted(translator: nat, threadId: string, turn: string)
      requires Valid()
      modifies this
      ensures Valid() && View() == Apply(old(View()), TurnStarted(translator, threadId, turn))
    {
      if turn == "" || !ChildLive() || confirmation.translator != Some(translator) || threadId == ""
         || threadId != confirmation.thread || confirmation.pending == "" {
        return;
      }
      if confirmation.response != "" && confirmation.response != turn {
        Invalidate();
      } else {
        confirmation := confirmation.(started := turn);
        Join();
      }
      Kept(TurnStarted(translator, threadId, turn));
    }

    method BeginSpawn() returns (index: nat)
      requires Valid()
      modifies this
      ensures Valid() && View() == Apply(old(View()), SpawnBegin) && index == |old(spawns)|
    {
      index := |spawns|;
      spawns := spawns + [Spawn(thread, freshSeq)];
      Kept(SpawnBegin);
    }

    /** The part of binding that holds and reports the thread, when the spawn's sequence is still current. */
    method AdoptThread(sp: Spawn, startedThread: string)
      requires |tags| == freshSeq + 1
      modifies this`thread, this`reports, this`owned
      ensures thread == (if freshSeq == sp.sequence then Opened(sp, startedThread) else old(thread))
      ensures reports == (if freshSeq == sp.sequence && sp.thread == ""
                          then old(reports) + [Report(tags[freshSeq], startedThread)] else old(reports))
      ensures owned == (if sp.thread == "" then old(owned)[startedThread := sp.sequence] else old(owned))
    {
      if sp.thread == "" {
        owned := owned[startedThread := sp.sequence];
      }
      if freshSeq == sp.sequence {
        if sp.thread == "" {
          thread := startedThread;
          reports := reports + [Report(tags[freshSeq], startedThread)];
        } else {
          thread := sp.thread;
        }
      }
    }

    /** The binding section of runOnce. startedThread is what StartThread returned, when the spawn resumed none. */
    method BindClient(index: nat, c: nat, translator: nat, startedThread: string, cancelled: bool)
      requires Valid() && index < |spawns|
      requires spawns[index].thread == "" ==> startedThread != "" && startedThread !in owned
      modifies this
      ensures Valid() && View() == Apply(old(View()), Bind(index, c, translator, startedThread, cancelled))
    {
      if cancelled {
        return;
      }
      BindFields(spawns[index], c, translator, startedThread);
      Kept(Bind(index, c, translator, startedThread, cancelled));
    }

    method BindFields(sp: Spawn, c: nat, translator: nat, startedThread: string)
      requires |tags| == freshSeq + 1
      modifies this
      ensures View() == BoundFrom(old(View()), sp, c, translator, startedThread)
    {
      AdoptThread(sp, startedThread);
      TakeClient(sp, c, translator);
    }

    /** The part of binding that takes the child over, forgets the attempt and may open the gate. */
    method TakeClient(sp: Spawn, c: nat, translator: nat)
      modifies this`client, this`generation, this`confirmation, this`tearingDown, this`rotating
      ensures client == Some(c) && generation == old(generation) + 1 && !tearingDown
      ensures confirmation == Invalidated(old(confirmation)).(translator := Some(translator))
      ensures rotating == (old(rotating) && sp.sequence <= armFresh)
    {
      client := Some(c);
      generation := generation + 1;
      confirmation := Invalidated(confirmation).(translator := Some(translator));
      tearingDown := false;
      if rotating && sp.sequence > armFresh {
        rotating := false;
      }
    }

    method UnbindClient()
      requires Valid()
      modifies this
      ensures Valid() && View() == Apply(old(View()), Unbind)
    {
      client := None;
      generation := generation + 1;
      Invalidate();
      confirmation := confirmation.(translator := None);
      Kept(Unbind);
    }

    method EndTheIteration()
      requires Valid()
      modifies this
      ensures Valid() && View() == Apply(old(View()), EndIteration)
    {
      Invalidate();
      confirmation := confirmation.(translator := None);
      Kept(EndIteration);
    }

    method Teardown()
      requires Valid()
      modifies this
      ensures Valid() && View() == Apply(old(View()), BeginTeardown)
    {
      tearingDown := true;
      Invalidate();
      Kept(BeginTeardown);
    }

    method ArmRotation() returns (arm: nat)
      requires Valid()
      modifies this
      ensures Valid() && View() == Apply(old(View()), BeginRotation) && arm == rotateGen
    {
      rotating := true;
      Invalidate();
      rotateGen := rotateGen + 1;
      armFresh := freshSeq;
      arm := rotateGen;
      Kept(BeginRotation);
    }

    method AbortRotation(arm: nat)
      requires Valid()
      modifies this
      ensures Valid() && View() == Apply(old(View()), Abort(arm))
    {
      if rotateGen == arm {
        rotating := false;
      }
      Kept(Abort(arm));
    }

    method Fresh(newId: string)
      requires Valid()
      modifies this
      ensures Valid() && View() == Apply(old(View()), RestartFresh(newId))
    {
      if newId == "" {
        return;
      }
      thread := "";
      Invalidate();
      confirmation := confirmation.(translator := None);
      freshSeq := freshSeq + 1;
      tags := tags + [newId];
      Kept(RestartFresh(newId));
    }
  }
}
