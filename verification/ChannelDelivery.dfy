/** Host-post delivery: a durable outbox reconciled against an append-only history, behind a gate that keeps
    posts and user turns apart. */
module ChannelDelivery {
  import opened Utf8Split

  /** no is the acceptance number; it only labels the post. Turn ids are minted fresh. */
  datatype Post = Post(no: nat, conv: string, turn: string, text: Bytes)

  /** A post in memory. The delivered mark is not persisted. */
  datatype Held = Held(post: Post, delivered: bool)

  datatype Entry =
    | Chunk(conv: string, turn: string, index: nat, text: Bytes)
    | Completion(conv: string, turn: string)
    | Foreign(id: int)                                   // anything another producer recorded

  /** wakes lists the turns whose completion was announced. tokens holds the write reservations still open. */
  datatype State = State(
    posts: seq<Held>, file: seq<Post>, history: seq<Entry>, wakes: seq<string>, accepted: seq<Post>, stopped: bool,
    active: set<string>, writes: map<string, nat>, tokens: map<nat, string>, nextToken: nat)

  const INITIAL: State := State([], [], [], [], [], false, {}, map[], map[], 0)

  // ---------------------------------------------------------------- recording one post

  function Chunks(p: Post, parts: seq<Bytes>): seq<Entry> {
    seq(|parts|, i requires 0 <= i < |parts| => Chunk(p.conv, p.turn, i, parts[i]))
  }

  /** Everything a post records, in order. */
  function Plan(p: Post): seq<Entry> {
    Chunks(p, Split(p.text, MAX_DELTA_TEXT_BYTES)) + [Completion(p.conv, p.turn)]
  }

  predicate Mine(e: Entry, p: Post) {
    !e.Foreign? && e.conv == p.conv && e.turn == p.turn
  }

  function Recorded(history: seq<Entry>, p: Post): seq<Entry> {
    if history == [] then []
    else
      var n := |history| - 1;
      Recorded(history[..n], p) + (if Mine(history[n], p) then [history[n]] else [])
  }

  predicate Complete(history: seq<Entry>, p: Post) {
    Recorded(history, p) == Plan(p)
  }

  /** The entries of plan that the history does not hold. */
  function Missing(plan: seq<Entry>, history: seq<Entry>): seq<Entry> {
    if plan == [] then []
    else
      var n := |plan| - 1;
      Missing(plan[..n], history) + (if plan[n] in history then [] else [plan[n]])
  }

  /** One delivery attempt: the history pages fail to read, or this many appends succeed before one fails. */
  datatype Attempt = PageFails | Appends(budget: nat)

  datatype Outcome = Outcome(history: seq<Entry>, wake: bool, ok: bool)

  function Deliver(history: seq<Entry>, p: Post, attempt: Attempt): Outcome {
    var missing := Missing(Plan(p), history);
    if attempt.PageFails? then Outcome(history, false, false)
    else if attempt.budget < |missing| then Outcome(history + missing[..attempt.budget], false, false)
    else Outcome(history + missing, Completion(p.conv, p.turn) !in history, true)
  }

  // ---------------------------------------------------------------- the drain pass

  predicate Holds(s: State, conv: string, outside: bool) {
    outside || conv in s.active || conv in s.writes
  }

  /** What the outside world answers for one post: whether busy, teardown or boundary state holds it when it is looked
      at, and how its delivery goes. */
  datatype Answer = Answer(outside: bool, attempt: Attempt)

  datatype Pass = Pass(history: seq<Entry>, wakes: seq<string>, failed: set<string>, marked: seq<Held>, pending: seq<Held>)

  /** A delivery is tried only for a post not yet delivered, not held, and not behind one that failed in this pass. */
  predicate Tries(s: State, pass: Pass, h: Held, answer: Answer) {
    !h.delivered && !Holds(s, h.post.conv, answer.outside) && h.post.conv !in pass.failed
  }

  function Try(s: State, pass: Pass, h: Held, answer: Answer): Outcome {
    if Tries(s, pass, h, answer) then Deliver(pass.history, h.post, answer.attempt)
    else Outcome(pass.history, false, false)
  }

  function One(s: State, pass: Pass, h: Held, answer: Answer): Pass {
    var out := Try(s, pass, h, answer);
    var m := h.(delivered := h.delivered || out.ok);
    Pass(out.history,
         if out.wake then pass.wakes + [h.post.turn] else pass.wakes,
         if Tries(s, pass, h, answer) && !out.ok then pass.failed + {h.post.conv} else pass.failed,
         pass.marked + [m],
         pass.pending + (if m.delivered then [] else [m]))
  }

  /** The pass over the first n posts. */
  function PassOver(s: State, answers: seq<Answer>, n: nat): Pass
    requires n <= |s.posts| <= |answers|
  {
    if n == 0 then Pass(s.history, s.wakes, {}, [], [])
    else One(s, PassOver(s, answers, n - 1), s.posts[n - 1], answers[n - 1])
  }

  function Erase(posts: seq<Held>): seq<Post> {
    seq(|posts|, i requires 0 <= i < |posts| => posts[i].post)
  }

  function Load(file: seq<Post>): seq<Held> {
    seq(|file|, i requires 0 <= i < |file| => Held(file[i], false))
  }

  function Drain(s: State, answers: seq<Answer>, saved: bool): State
    requires |s.posts| <= |answers|
  {
    var pass := PassOver(s, answers, |s.posts|);
    var s1 := s.(history := pass.history, wakes := pass.wakes, posts := pass.marked);
    if |pass.pending| == |s.posts| || !saved then s1
    else s1.(file := Erase(pass.pending), posts := pass.pending)
  }

  /** A crash and reload: the pass had finished n posts and had appended the first extra missing entries of the next
      one, whose wake is lost. */
  function Crash(s: State, answers: seq<Answer>, n: nat, extra: nat): State
    requires n <= |s.posts| <= |answers|
  {
    var pass := PassOver(s, answers, n);
    var history := if n < |s.posts| && Tries(s, pass, s.posts[n], answers[n])
                   then Deliver(pass.history, s.posts[n].post, Appends(extra)).history else pass.history;
    s.(history := history, wakes := pass.wakes, posts := Load(s.file), stopped := false,
       active := {}, writes := map[], tokens := map[])
  }

  function Accept(s: State, conv: string, turn: string, text: Bytes, saved: bool): (State, bool) {
    if s.stopped || !saved || (exists p :: p in s.accepted && p.turn == turn) then (s, false)
    else
      var post := Post(|s.accepted|, conv, turn, text);
      (s.(posts := s.posts + [Held(post, false)], file := Erase(s.posts) + [post], accepted := s.accepted + [post]), true)
  }

  predicate PendingFor(s: State, conv: string) {
    exists i :: 0 <= i < |s.posts| && s.posts[i].post.conv == conv && !s.posts[i].delivered
  }

  function Writes(s: State, conv: string): nat {
    if conv in s.writes then s.writes[conv] else 0
  }

  function Reserve(s: State, conv: string): State {
    s.(writes := s.writes[conv := Writes(s, conv) + 1], tokens := s.tokens[s.nextToken := conv], nextToken := s.nextToken + 1)
  }

  /** One look of beginDelivery: it opens the turn only when nothing waits and nothing holds. */
  function BeginDelivery(s: State, conv: string, outside: bool): (State, bool) {
    if PendingFor(s, conv) || Holds(s, conv, outside) then (s, false)
    else (Reserve(s, conv).(active := s.active + {conv}), true)
  }

  function BeginSendNow(s: State, conv: string, tearingDown: bool, busy: bool): (State, bool) {
    if tearingDown || !busy then (s, false) else (Reserve(s, conv), true)
  }

  function FinishWrite(s: State, token: nat): State {
    if token !in s.tokens then s
    else
      var conv := s.tokens[token];
      var left := Writes(s, conv) as int - 1;
      s.(tokens := s.tokens - {token}, writes := if left <= 0 then s.writes - {conv} else s.writes[conv := left])
  }

  datatype Step =
    | StepAccept(conv: string, turn: string, text: Bytes, saved: bool)
    | StepStop
    | StepDrain(answers: seq<Answer>, saved: bool)
    | StepCrash(answers: seq<Answer>, n: nat, extra: nat)
    | StepForeign(id: int)
    | StepBeginDelivery(conv: string, outside: bool)
    | StepBeginSendNow(conv: string, tearingDown: bool, busy: bool)
    | StepFinishWrite(token: nat)
    | StepBoundary(conv: string, active: bool)           // also the undo of a failed delivery

  function Apply(s: State, step: Step): State {
    match step
    case StepAccept(conv, turn, text, saved) => Accept(s, conv, turn, text, saved).0
    case StepStop => s.(stopped := true)
    case StepDrain(answers, saved) => if |s.posts| <= |answers| then Drain(s, answers, saved) else s
    case StepCrash(answers, n, extra) => if n <= |s.posts| <= |answers| then Crash(s, answers, n, extra) else s
    case StepForeign(id) => s.(history := s.history + [Foreign(id)])
    case StepBeginDelivery(conv, outside) => BeginDelivery(s, conv, outside).0
    case StepBeginSendNow(conv, tearingDown, busy) => BeginSendNow(s, conv, tearingDown, busy).0
    case StepFinishWrite(token) => FinishWrite(s, token)
    case StepBoundary(conv, active) => s.(active := if active then s.active + {conv} else s.active - {conv})
  }

  function Run(s: State, steps: seq<Step>): State {
    if steps == [] then s else Apply(Run(s, steps[..|steps| - 1]), steps[|steps| - 1])
  }

  // ---------------------------------------------------------------- reconciliation

  lemma {:induction false} RecordedAppend(a: seq<Entry>, b: seq<Entry>, p: Post)
    ensures Recorded(a + b, p) == Recorded(a, p) + Recorded(b, p)
  {
    if b == [] {
      assert a + b == a;
    } else {
      var n := |b| - 1;
      RecordedAppend(a, b[..n], p);
      assert (a + b)[..|a + b| - 1] == a + b[..n];
    }
  }

  lemma {:induction false} RecordedMember(history: seq<Entry>, p: Post, e: Entry)
    ensures e in Recorded(history, p) <==> e in history && Mine(e, p)
  {
    if history != [] {
      var n := |history| - 1;
      RecordedMember(history[..n], p, e);
      assert history == history[..n] + [history[n]];
    }
  }

  /** A stretch of p's own entries is recorded whole for p and not at all for another turn. */
  lemma {:induction false} RecordedStretch(part: seq<Entry>, p: Post, q: Post)
    requires forall i :: 0 <= i < |part| ==> Mine(part[i], p)
    ensures Recorded(part, p) == part
    ensures q.turn != p.turn ==> Recorded(part, q) == []
  {
    if part != [] {
      var n := |part| - 1;
      RecordedStretch(part[..n], p, q);
      assert part == part[..n] + [part[n]];
    }
  }

  /** A plan's entries are the post's own and all different; the completion comes last. */
  lemma PlanShape(p: Post)
    ensures |Plan(p)| > 0 && Plan(p)[|Plan(p)| - 1] == Completion(p.conv, p.turn)
    ensures forall i :: 0 <= i < |Plan(p)| ==> Mine(Plan(p)[i], p)
    ensures forall i, j :: 0 <= i < j < |Plan(p)| ==> Plan(p)[i] != Plan(p)[j]
  {
  }

  lemma {:induction false} MissingSplits(plan: seq<Entry>, history: seq<Entry>, k: nat)
    requires k <= |plan|
    requires forall e :: e in plan[..k] ==> e in history
    requires forall e :: e in plan[k..] ==> e !in history
    ensures Missing(plan, history) == plan[k..]
  {
    if plan != [] {
      var n := |plan| - 1;
      var front := plan[..n];
      if k <= n {
        assert front[..k] == plan[..k];
        assert plan[k..] == front[k..] + [plan[n]];
        MissingSplits(front, history, k);
      } else {
        assert plan[..k] == front + [plan[n]] && front[..n] == front && front[n..] == [];
        MissingSplits(front, history, n);
      }
    }
  }

  /** When what is recorded is a prefix of the plan, what is missing is exactly the rest. */
  lemma MissingIsRest(history: seq<Entry>, p: Post)
    requires Recorded(history, p) <= Plan(p)
    ensures Missing(Plan(p), history) == Plan(p)[|Recorded(history, p)|..]
    ensures Completion(p.conv, p.turn) in history <==> Complete(history, p)
  {
    var plan, done := Plan(p), Recorded(history, p);
    PlanShape(p);
    var k := |done|;
    assert plan[..k] == done;
    forall e | e in plan[..k] ensures e in history {
      RecordedMember(history, p, e);
    }
    forall e | e in plan[k..] ensures e !in history {
      NotInFront(plan, k, e);
      RecordedMember(history, p, e);
    }
    MissingSplits(plan, history, k);
    var last := plan[|plan| - 1];
    if k < |plan| {
      assert last == plan[k..][|plan| - k - 1];
    } else {
      assert last in plan[..k];
    }
  }

  lemma NotInFront(plan: seq<Entry>, k: nat, e: Entry)
    requires k <= |plan| && e in plan[k..]
    requires forall i, j :: 0 <= i < j < |plan| ==> plan[i] != plan[j]
    ensures e !in plan[..k] && e in plan
  {
    var i :| 0 <= i < |plan[k..]| && plan[k..][i] == e;
    assert plan[k + i] == e;
  }

  /** The history after some appends of p: p moves along its plan, nobody else's record changes. */
  ghost predicate Extends(history: seq<Entry>, history': seq<Entry>, p: Post) {
    && Recorded(history, p) <= Recorded(history', p) <= Plan(p)
    && (forall q: Post :: q.turn != p.turn ==> Recorded(history', q) == Recorded(history, q))
    && history <= history'
    && (forall i :: |history| <= i < |history'| ==> Mine(history'[i], p))
    && |history'| - |history| == |Recorded(history', p)| - |Recorded(history, p)|
  }

  /** Appending a stretch of p's own entries moves nobody else's record. */
  lemma StretchExtends(history: seq<Entry>, part: seq<Entry>, p: Post)
    requires forall i :: 0 <= i < |part| ==> Mine(part[i], p)
    requires Recorded(history, p) + part <= Plan(p)
    ensures Recorded(history + part, p) == Recorded(history, p) + part
    ensures Extends(history, history + part, p)
  {
    RecordedAppend(history, part, p);
    RecordedStretch(part, p, p);
    forall q: Post | q.turn != p.turn ensures Recorded(history + part, q) == Recorded(history, q) {
      RecordedAppend(history, part, q);
      RecordedStretch(part, p, q);
    }
  }

  lemma AppendsExtend(history: seq<Entry>, p: Post, budget: nat)
    requires Recorded(history, p) <= Plan(p)
    requires budget <= |Missing(Plan(p), history)|
    ensures Extends(history, history + Missing(Plan(p), history)[..budget], p)
    ensures budget == |Missing(Plan(p), history)| ==> Complete(history + Missing(Plan(p), history)[..budget], p)
  {
    MissingIsRest(history, p);
    PlanShape(p);
    var plan, done := Plan(p), Recorded(history, p);
    PrefixRest(plan, done, budget);
    StretchExtends(history, Missing(plan, history)[..budget], p);
  }

  lemma PrefixRest(plan: seq<Entry>, done: seq<Entry>, budget: nat)
    requires done <= plan && budget <= |plan| - |done|
    ensures done + plan[|done|..][..budget] <= plan
    ensures budget == |plan| - |done| ==> done + plan[|done|..][..budget] == plan
    ensures forall i :: 0 <= i < budget ==> plan[|done|..][..budget][i] == plan[|done| + i]
  {
  }

  lemma DeliverExtends(history: seq<Entry>, p: Post, attempt: Attempt)
    requires Recorded(history, p) <= Plan(p)
    ensures var out := Deliver(history, p, attempt);
      && Extends(history, out.history, p)
      && (out.ok ==> Complete(out.history, p))
      && (out.wake ==> out.ok && !Complete(history, p))
  {
    var missing := Missing(Plan(p), history);
    AppendsExtend(history, p, 0);
    assert history + missing[..0] == history;
    MissingIsRest(history, p);
    if attempt.Appends? {
      var n := if attempt.budget < |missing| then attempt.budget else |missing|;
      AppendsExtend(history, p, n);
      assert missing[..|missing|] == missing;
    }
  }

  // ---------------------------------------------------------------- invariant

  predicate Known(accepted: seq<Post>, p: Post) {
    p.no < |accepted| && accepted[p.no] == p
  }

  predicate Apart(accepted: seq<Post>, i: nat, j: nat)
    requires i < |accepted| && j < |accepted|
  {
    accepted[i].turn != accepted[j].turn
  }

  predicate AcceptedOk(accepted: seq<Post>) {
    && (forall i :: 0 <= i < |accepted| ==> accepted[i].no == i)
    && (forall i, j {:trigger Apart(accepted, i, j)} :: 0 <= i < |accepted| && 0 <= j < |accepted| && i != j ==> Apart(accepted, i, j))
  }

  ghost predicate Awake(accepted: seq<Post>, history: seq<Entry>, wake: string) {
    exists p :: Known(accepted, p) && p.turn == wake && Complete(history, p)
  }

  ghost predicate Owned(accepted: seq<Post>, e: Entry) {
    e.Foreign? || exists p :: Known(accepted, p) && Mine(e, p)
  }

  /** The history records a prefix of every accepted post's plan and nothing else of any post's; each wake is unique and
      announces a post recorded completely. */
  ghost predicate LogOk(accepted: seq<Post>, history: seq<Entry>, wakes: seq<string>) {
    && (forall p :: Known(accepted, p) ==> Recorded(history, p) <= Plan(p))
    && (forall i {:trigger Owned(accepted, history[i])} :: 0 <= i < |history| ==> Owned(accepted, history[i]))
    && (forall i, j {:trigger WokenApart(wakes, i, j)} :: 0 <= i < j < |wakes| ==> WokenApart(wakes, i, j))
    && (forall i {:trigger Awake(accepted, history, wakes[i])} :: 0 <= i < |wakes| ==> Awake(accepted, history, wakes[i]))
  }

  predicate InOutbox(posts: seq<Held>, p: Post) {
    exists i :: 0 <= i < |posts| && posts[i].post == p
  }

  predicate InSequence(posts: seq<Held>, i: nat, j: nat)
    requires i < |posts| && j < |posts|
  {
    posts[i].post.no < posts[j].post.no
  }

  predicate WokenApart(wakes: seq<string>, i: nat, j: nat)
    requires i < |wakes| && j < |wakes|
  {
    wakes[i] != wakes[j]
  }

  /** The posts in memory are accepted ones in acceptance order, and those marked delivered are recorded completely. */
  ghost predicate OutboxOk(accepted: seq<Post>, history: seq<Entry>, posts: seq<Held>) {
    && (forall i :: 0 <= i < |posts| ==> Known(accepted, posts[i].post))
    && (forall i, j {:trigger InSequence(posts, i, j)} :: 0 <= i < j < |posts| ==> InSequence(posts, i, j))
    && (forall i :: 0 <= i < |posts| && posts[i].delivered ==> Complete(history, posts[i].post))
    && (forall p :: Known(accepted, p) ==> InOutbox(posts, p) || Complete(history, p))
  }

  function Reservations(tokens: map<nat, string>, conv: string): set<nat> {
    set t | t in tokens && tokens[t] == conv
  }

  /** Every conversation's count is the number of its open reservations, and no zero count is kept. */
  ghost predicate GateOk(s: State) {
    && (forall t :: t in s.tokens ==> t < s.nextToken)
    && (forall conv :: Writes(s, conv) == |Reservations(s.tokens, conv)|)
    && (forall conv :: conv in s.writes ==> s.writes[conv] > 0)
  }

  ghost predicate Inv(s: State) {
    && s.file == Erase(s.posts)
    && AcceptedOk(s.accepted)
    && LogOk(s.accepted, s.history, s.wakes)
    && OutboxOk(s.accepted, s.history, s.posts)
    && GateOk(s)
  }

  // ---------------------------------------------------------------- one post's delivery keeps the log

  ghost predicate Grows(accepted: seq<Post>, h: seq<Entry>, h': seq<Entry>) {
    && h <= h'
    && (forall p :: Known(accepted, p) ==> Recorded(h, p) <= Recorded(h', p))
    && (forall p :: Known(accepted, p) && Complete(h, p) ==> Complete(h', p))
  }

  lemma SameTurn(accepted: seq<Post>, p: Post, q: Post)
    requires AcceptedOk(accepted) && Known(accepted, p) && Known(accepted, q)
    ensures p == q || (p.turn != q.turn && p.no != q.no)
  {
    if p.no != q.no {
      assert Apart(accepted, p.no, q.no);
    }
  }

  lemma ExtendsGrows(accepted: seq<Post>, h: seq<Entry>, h': seq<Entry>, p: Post)
    requires AcceptedOk(accepted) && Known(accepted, p) && Extends(h, h', p)
    requires forall q :: Known(accepted, q) ==> Recorded(h, q) <= Plan(q)
    ensures Grows(accepted, h, h')
    ensures forall q :: Known(accepted, q) ==> Recorded(h', q) <= Plan(q)
  {
    forall q | Known(accepted, q)
      ensures Recorded(h, q) <= Recorded(h', q) <= Plan(q)
      ensures Complete(h, q) ==> Complete(h', q)
    {
      SameTurn(accepted, p, q);
    }
  }

  /** Growing the log by one post, with or without announcing it, keeps the log in order. */
  lemma LogGrows(accepted: seq<Post>, h: seq<Entry>, h': seq<Entry>, wakes: seq<string>, p: Post)
    requires AcceptedOk(accepted) && LogOk(accepted, h, wakes) && Known(accepted, p) && Extends(h, h', p)
    ensures Grows(accepted, h, h') && LogOk(accepted, h', wakes)
    ensures !Complete(h, p) && Complete(h', p) ==> LogOk(accepted, h', wakes + [p.turn])
  {
    ExtendsGrows(accepted, h, h', p);
    forall i | 0 <= i < |h'| ensures Owned(accepted, h'[i]) {
      if i < |h| {
        assert Owned(accepted, h[i]) && h[i] == h'[i];
      }
    }
    forall i | 0 <= i < |wakes| ensures Awake(accepted, h', wakes[i]) {
      assert Awake(accepted, h, wakes[i]);
    }
    if !Complete(h, p) && Complete(h', p) {
      assert Awake(accepted, h', p.turn);
      forall i | 0 <= i < |wakes| ensures wakes[i] != p.turn {
        assert Awake(accepted, h, wakes[i]);
        var q :| Known(accepted, q) && q.turn == wakes[i] && Complete(h, q);
        SameTurn(accepted, p, q);
      }
      var more := wakes + [p.turn];
      forall i, j | 0 <= i < j < |more| ensures WokenApart(more, i, j) {
        if j < |wakes| {
          assert WokenApart(wakes, i, j);
        }
      }
    }
  }

  lemma LogDelivers(accepted: seq<Post>, h: seq<Entry>, wakes: seq<string>, p: Post, attempt: Attempt)
    requires AcceptedOk(accepted) && LogOk(accepted, h, wakes) && Known(accepted, p)
    ensures var out := Deliver(h, p, attempt);
      && Extends(h, out.history, p) && Grows(accepted, h, out.history)
      && LogOk(accepted, out.history, if out.wake then wakes + [p.turn] else wakes)
      && (out.ok ==> Complete(out.history, p))
  {
    DeliverExtends(h, p, attempt);
    LogGrows(accepted, h, Deliver(h, p, attempt).history, wakes, p);
  }

  // ---------------------------------------------------------------- the pass

  function Undelivered(posts: seq<Held>): seq<Held> {
    if posts == [] then []
    else
      var n := |posts| - 1;
      Undelivered(posts[..n]) + (if posts[n].delivered then [] else [posts[n]])
  }

  lemma UndeliveredSnoc(posts: seq<Held>, h: Held)
    ensures Undelivered(posts + [h]) == Undelivered(posts) + (if h.delivered then [] else [h])
  {
    assert (posts + [h])[..|posts|] == posts;
  }

  /** The pass has looked at the first n posts; those it now counts as delivered are recorded completely. */
  ghost predicate MarksOk(posts: seq<Held>, pass: Pass, n: nat) {
    && n == |pass.marked| <= |posts|
    && (forall i :: 0 <= i < n ==> pass.marked[i].post == posts[i].post)
    && (forall i :: 0 <= i < n && posts[i].delivered ==> pass.marked[i].delivered)
    && (forall i :: 0 <= i < n && pass.marked[i].delivered ==> Complete(pass.history, posts[i].post))
    && pass.pending == Undelivered(pass.marked)
  }

  ghost predicate PassOk(s: State, pass: Pass, n: nat) {
    && MarksOk(s.posts, pass, n)
    && LogOk(s.accepted, pass.history, pass.wakes)
    && Grows(s.accepted, s.history, pass.history)
  }

  lemma MarkOne(accepted: seq<Post>, posts: seq<Held>, pass: Pass, next: Pass, m: Held)
    requires |pass.marked| < |posts| && MarksOk(posts, pass, |pass.marked|)
    requires forall i :: 0 <= i < |posts| ==> Known(accepted, posts[i].post)
    requires Grows(accepted, pass.history, next.history)
    requires m.post == posts[|pass.marked|].post && next.marked == pass.marked + [m]
    requires posts[|pass.marked|].delivered ==> m.delivered
    requires m.delivered ==> Complete(next.history, m.post)
    requires next.pending == pass.pending + (if m.delivered then [] else [m])
    ensures MarksOk(posts, next, |pass.marked| + 1)
  {
    UndeliveredSnoc(pass.marked, m);
    forall i | 0 <= i < |next.marked| && next.marked[i].delivered ensures Complete(next.history, posts[i].post) {
      if i < |pass.marked| {
        assert Known(accepted, posts[i].post) && Complete(pass.history, posts[i].post);
      }
    }
  }

  /** Looking at one post keeps the log, whether or not its delivery is tried. */
  lemma TryKeeps(s: State, pass: Pass, h: Held, answer: Answer)
    requires AcceptedOk(s.accepted) && LogOk(s.accepted, pass.history, pass.wakes) && Known(s.accepted, h.post)
    ensures var out := Try(s, pass, h, answer);
      && LogOk(s.accepted, out.history, if out.wake then pass.wakes + [h.post.turn] else pass.wakes)
      && Extends(pass.history, out.history, h.post)
      && Grows(s.accepted, pass.history, out.history)
      && (out.ok ==> Complete(out.history, h.post))
  {
    LogDelivers(s.accepted, pass.history, pass.wakes, h.post,
                if Tries(s, pass, h, answer) then answer.attempt else PageFails);
  }

  lemma OneKeeps(s: State, pass: Pass, n: nat, answer: Answer)
    requires AcceptedOk(s.accepted) && OutboxOk(s.accepted, s.history, s.posts)
    requires n < |s.posts| && PassOk(s, pass, n)
    ensures PassOk(s, One(s, pass, s.posts[n], answer), n + 1)
  {
    var h := s.posts[n];
    var out := Try(s, pass, h, answer);
    TryKeeps(s, pass, h, answer);
    GrowsOn(s.accepted, s.history, pass.history, out.history);
    MarkOne(s.accepted, s.posts, pass, One(s, pass, h, answer), h.(delivered := h.delivered || out.ok));
  }

  lemma PassStart(s: State)
    requires LogOk(s.accepted, s.history, s.wakes)
    ensures PassOk(s, Pass(s.history, s.wakes, {}, [], []), 0)
  {
  }

  lemma {:induction false} PassKeeps(s: State, answers: seq<Answer>, n: nat)
    requires AcceptedOk(s.accepted) && LogOk(s.accepted, s.history, s.wakes)
    requires OutboxOk(s.accepted, s.history, s.posts)
    requires n <= |s.posts| <= |answers|
    ensures PassOk(s, PassOver(s, answers, n), n)
  {
    if n == 0 {
      PassStart(s);
    } else {
      PassKeeps(s, answers, n - 1);
      OneKeeps(s, PassOver(s, answers, n - 1), n - 1, answers[n - 1]);
    }
  }

  lemma GrowsOn(accepted: seq<Post>, a: seq<Entry>, b: seq<Entry>, c: seq<Entry>)
    requires Grows(accepted, a, b) && Grows(accepted, b, c)
    ensures Grows(accepted, a, c)
  {
  }

  // ---------------------------------------------------------------- every step keeps the invariant

  lemma OutboxGrows(accepted: seq<Post>, h: seq<Entry>, h': seq<Entry>, posts: seq<Held>)
    requires OutboxOk(accepted, h, posts) && Grows(accepted, h, h')
    ensures OutboxOk(accepted, h', posts)
  {
  }

  /** Changing only marks keeps the outbox, as long as whatever is marked delivered is recorded. */
  lemma OutboxRemarked(accepted: seq<Post>, h: seq<Entry>, posts: seq<Held>, marked: seq<Held>)
    requires OutboxOk(accepted, h, posts) && |marked| == |posts|
    requires forall i :: 0 <= i < |posts| ==> marked[i].post == posts[i].post
    requires forall i :: 0 <= i < |posts| && marked[i].delivered ==> Complete(h, marked[i].post)
    ensures OutboxOk(accepted, h, marked) && Erase(marked) == Erase(posts)
  {
    forall a, b | 0 <= a < b < |marked| ensures InSequence(marked, a, b) {
      assert InSequence(posts, a, b);
    }
    forall p | Known(accepted, p) ensures InOutbox(marked, p) || Complete(h, p) {
      if InOutbox(posts, p) {
        var i :| 0 <= i < |posts| && posts[i].post == p;
        assert marked[i].post == p;
      }
    }
  }

  lemma {:induction false} UndeliveredMember(posts: seq<Held>, h: Held)
    ensures h in Undelivered(posts) <==> h in posts && !h.delivered
  {
    if posts != [] {
      var n := |posts| - 1;
      UndeliveredMember(posts[..n], h);
      assert posts == posts[..n] + [posts[n]];
    }
  }

  lemma {:induction false} UndeliveredSorted(posts: seq<Held>)
    requires forall i, j {:trigger InSequence(posts, i, j)} :: 0 <= i < j < |posts| ==> InSequence(posts, i, j)
    ensures forall i, j {:trigger InSequence(Undelivered(posts), i, j)} ::
      0 <= i < j < |Undelivered(posts)| ==> InSequence(Undelivered(posts), i, j)
  {
    if posts != [] {
      var n := |posts| - 1;
      var front := posts[..n];
      forall i, j | 0 <= i < j < n ensures InSequence(front, i, j) {
        assert InSequence(posts, i, j);
      }
      UndeliveredSorted(front);
      var u, all := Undelivered(front), Undelivered(posts);
      forall i, j | 0 <= i < j < |all| ensures InSequence(all, i, j) {
        if j < |u| {
          assert InSequence(u, i, j);
        } else {
          UndeliveredMember(front, u[i]);
          var k :| 0 <= k < n && front[k] == u[i];
          assert InSequence(posts, k, n);
        }
      }
    }
  }

  /** Dropping what was delivered keeps the outbox. */
  lemma OutboxPending(accepted: seq<Post>, h: seq<Entry>, posts: seq<Held>)
    requires OutboxOk(accepted, h, posts)
    ensures OutboxOk(accepted, h, Undelivered(posts))
  {
    var u := Undelivered(posts);
    UndeliveredSorted(posts);
    forall i | 0 <= i < |u| ensures Known(accepted, u[i].post) && !u[i].delivered {
      UndeliveredMember(posts, u[i]);
    }
    forall p | Known(accepted, p) ensures InOutbox(u, p) || Complete(h, p) {
      if InOutbox(posts, p) {
        var i :| 0 <= i < |posts| && posts[i].post == p;
        UndeliveredMember(posts, posts[i]);
      }
    }
  }

  lemma DrainKeeps(s: State, answers: seq<Answer>, saved: bool)
    requires Inv(s) && |s.posts| <= |answers|
    ensures Inv(Drain(s, answers, saved)) && Grows(s.accepted, s.history, Drain(s, answers, saved).history)
  {
    var pass := PassOver(s, answers, |s.posts|);
    PassKeeps(s, answers, |s.posts|);
    OutboxGrows(s.accepted, s.history, pass.history, s.posts);
    OutboxRemarked(s.accepted, pass.history, s.posts, pass.marked);
    OutboxPending(s.accepted, pass.history, pass.marked);
    GateSame(s, Drain(s, answers, saved));
  }

  lemma CrashKeeps(s: State, answers: seq<Answer>, n: nat, extra: nat)
    requires Inv(s) && n <= |s.posts| <= |answers|
    ensures Inv(Crash(s, answers, n, extra)) && Grows(s.accepted, s.history, Crash(s, answers, n, extra).history)
  {
    var pass := PassOver(s, answers, n);
    PassKeeps(s, answers, n);
    var s' := Crash(s, answers, n, extra);
    if n < |s.posts| && Tries(s, pass, s.posts[n], answers[n]) {
      var p := s.posts[n].post;
      DeliverExtends(pass.history, p, Appends(extra));
      LogGrows(s.accepted, pass.history, s'.history, pass.wakes, p);
      GrowsOn(s.accepted, s.history, pass.history, s'.history);
    }
    assert LogOk(s'.accepted, s'.history, s'.wakes);
    OutboxGrows(s.accepted, s.history, s'.history, s.posts);
    OutboxRemarked(s.accepted, s'.history, s.posts, s'.posts);
    assert s'.file == Erase(s'.posts);
    forall conv ensures Writes(s', conv) == |Reservations(s'.tokens, conv)| {
      assert Reservations(s'.tokens, conv) == {};
    }
  }

  lemma GateSame(s: State, s': State)
    requires GateOk(s) && s'.tokens == s.tokens && s'.writes == s.writes && s'.nextToken == s.nextToken
    ensures GateOk(s')
  {
    forall conv ensures Writes(s', conv) == |Reservations(s'.tokens, conv)| {
      assert Reservations(s'.tokens, conv) == Reservations(s.tokens, conv) && Writes(s', conv) == Writes(s, conv);
    }
  }

  lemma ReserveOne(tokens: map<nat, string>, t: nat, conv: string, c: string)
    requires t !in tokens
    ensures |Reservations(tokens[t := conv], c)| == |Reservations(tokens, c)| + (if c == conv then 1 else 0)
  {
    var more := tokens[t := conv];
    if c == conv {
      assert Reservations(more, c) == Reservations(tokens, c) + {t};
    } else {
      assert Reservations(more, c) == Reservations(tokens, c);
    }
  }

  lemma FinishOne(tokens: map<nat, string>, t: nat, c: string)
    requires t in tokens
    ensures |Reservations(tokens - {t}, c)| == |Reservations(tokens, c)| - (if c == tokens[t] then 1 else 0)
  {
    assert t in Reservations(tokens, c) <==> c == tokens[t];
    assert Reservations(tokens - {t}, c) == Reservations(tokens, c) - {t};
  }

  lemma ReserveGate(s: State, conv: string)
    requires GateOk(s)
    ensures GateOk(Reserve(s, conv))
  {
    var s' := Reserve(s, conv);
    forall c ensures Writes(s', c) == |Reservations(s'.tokens, c)| {
      ReserveOne(s.tokens, s.nextToken, conv, c);
      assert Writes(s, c) == |Reservations(s.tokens, c)|;
    }
  }

  lemma FinishGate(s: State, token: nat)
    requires GateOk(s)
    ensures GateOk(FinishWrite(s, token))
  {
    if token in s.tokens {
      var s' := FinishWrite(s, token);
      forall c ensures Writes(s', c) == |Reservations(s'.tokens, c)| {
        FinishOne(s.tokens, token, c);
        assert Writes(s, c) == |Reservations(s.tokens, c)|;
      }
    }
  }

  lemma {:induction false} UnknownUnrecorded(accepted: seq<Post>, history: seq<Entry>, p: Post)
    requires forall i :: 0 <= i < |history| ==> Owned(accepted, history[i])
    requires forall q :: Known(accepted, q) ==> q.turn != p.turn
    ensures Recorded(history, p) == []
  {
    if history != [] {
      var n := |history| - 1;
      assert Owned(accepted, history[n]);
      UnknownUnrecorded(accepted, history[..n], p);
    }
  }

  lemma LogAccepts(accepted: seq<Post>, history: seq<Entry>, wakes: seq<string>, p: Post)
    requires LogOk(accepted, history, wakes) && forall q :: Known(accepted, q) ==> q.turn != p.turn
    ensures LogOk(accepted + [p], history, wakes)
  {
    UnknownUnrecorded(accepted, history, p);
    var more := accepted + [p];
    assert forall q :: Known(accepted, q) ==> Known(more, q);
    forall i | 0 <= i < |history| ensures Owned(more, history[i]) {
      assert Owned(accepted, history[i]);
    }
    forall i | 0 <= i < |wakes| ensures Awake(more, history, wakes[i]) {
      assert Awake(accepted, history, wakes[i]);
    }
  }

  lemma OutboxAccepts(accepted: seq<Post>, history: seq<Entry>, posts: seq<Held>, p: Post)
    requires AcceptedOk(accepted) && OutboxOk(accepted, history, posts) && p.no == |accepted|
    ensures OutboxOk(accepted + [p], history, posts + [Held(p, false)])
  {
    var all := posts + [Held(p, false)];
    forall a, b | 0 <= a < b < |all| ensures InSequence(all, a, b) {
      if b < |posts| {
        assert InSequence(posts, a, b);
      }
    }
    forall q | Known(accepted + [p], q) ensures InOutbox(all, q) || Complete(history, q) {
      if q == p {
        assert all[|posts|].post == p;
      } else if InOutbox(posts, q) {
        var i :| 0 <= i < |posts| && posts[i].post == q;
        assert all[i].post == q;
      }
    }
  }

  lemma AcceptedMore(accepted: seq<Post>, p: Post)
    requires AcceptedOk(accepted) && p.no == |accepted|
    requires forall q :: q in accepted ==> q.turn != p.turn
    ensures AcceptedOk(accepted + [p])
  {
    var more := accepted + [p];
    forall i, j | 0 <= i < |more| && 0 <= j < |more| && i != j ensures Apart(more, i, j) {
      if i < |accepted| && j < |accepted| {
        assert Apart(accepted, i, j);
      }
    }
  }

  lemma AcceptKeeps(s: State, conv: string, turn: string, text: Bytes, saved: bool)
    requires Inv(s)
    ensures Inv(Accept(s, conv, turn, text, saved).0)
  {
    var s' := Accept(s, conv, turn, text, saved).0;
    if Accept(s, conv, turn, text, saved).1 {
      var p := Post(|s.accepted|, conv, turn, text);
      AcceptedMore(s.accepted, p);
      LogAccepts(s.accepted, s.history, s.wakes, p);
      OutboxAccepts(s.accepted, s.history, s.posts, p);
      assert s'.file == Erase(s'.posts);
      GateSame(s, s');
    }
  }

  lemma ForeignKeeps(s: State, id: int)
    requires Inv(s)
    ensures var s' := s.(history := s.history + [Foreign(id)]); Inv(s') && Grows(s.accepted, s.history, s'.history)
  {
    var s' := s.(history := s.history + [Foreign(id)]);
    assert s'.history[..|s.history|] == s.history;
    forall p ensures Recorded(s'.history, p) == Recorded(s.history, p) {
    }
    forall i | 0 <= i < |s'.wakes| ensures Awake(s'.accepted, s'.history, s'.wakes[i]) {
      assert Awake(s.accepted, s.history, s.wakes[i]);
    }
    forall i | 0 <= i < |s'.history| ensures Owned(s'.accepted, s'.history[i]) {
      if i < |s.history| {
        assert Owned(s.accepted, s.history[i]);
      }
    }
    OutboxGrows(s.accepted, s.history, s'.history, s.posts);
    GateSame(s, s');
  }

  /** Nothing accepted is forgotten and the history only grows. */
  ghost predicate Later(s: State, s': State) {
    s.accepted <= s'.accepted && Grows(s.accepted, s.history, s'.history)
  }

  /** Steps that touch only the gate. */
  lemma QuietKeeps(s: State, s': State)
    requires Inv(s) && GateOk(s')
    requires s'.posts == s.posts && s'.file == s.file && s'.accepted == s.accepted
    requires s'.history == s.history && s'.wakes == s.wakes
    ensures Inv(s') && Later(s, s')
  {
  }

  lemma QuietStep(s: State, step: Step)
    requires Inv(s)
    requires step.StepBeginDelivery? || step.StepBeginSendNow? || step.StepFinishWrite? || step.StepBoundary? || step.StepStop?
    ensures Inv(Apply(s, step)) && Later(s, Apply(s, step))
  {
    var s' := Apply(s, step);
    match step {
      case StepBeginDelivery(conv, outside) =>
        ReserveGate(s, conv);
        GateSame(Reserve(s, conv), Reserve(s, conv).(active := s.active + {conv}));
      case StepBeginSendNow(conv, tearingDown, busy) => ReserveGate(s, conv);
      case StepFinishWrite(token) => FinishGate(s, token);
      case _ => GateSame(s, s');
    }
    QuietKeeps(s, s');
  }

  lemma StepKeeps(s: State, step: Step)
    requires Inv(s)
    ensures Inv(Apply(s, step)) && Later(s, Apply(s, step))
  {
    match step {
      case StepAccept(conv, turn, text, saved) => AcceptKeeps(s, conv, turn, text, saved);
      case StepDrain(answers, saved) =>
        if |s.posts| <= |answers| {
          DrainKeeps(s, answers, saved);
        }
      case StepCrash(answers, n, extra) =>
        if n <= |s.posts| <= |answers| {
          CrashKeeps(s, answers, n, extra);
        }
      case StepForeign(id) => ForeignKeeps(s, id);
      case _ => QuietStep(s, step);
    }
  }

  lemma {:induction false} RunKeeps(steps: seq<Step>)
    ensures Inv(Run(INITIAL, steps))
  {
    if steps == [] {
      forall conv ensures Writes(INITIAL, conv) == |Reservations(INITIAL.tokens, conv)| {
        assert Reservations(INITIAL.tokens, conv) == {};
      }
    } else {
      var n := |steps| - 1;
      RunKeeps(steps[..n]);
      StepKeeps(Run(INITIAL, steps[..n]), steps[n]);
    }
  }

  // ---------------------------------------------------------------- theorems over every run

  /** Whatever fails and whenever the daemon crashes, an accepted post is in the durable file or completely in history;
      what history holds of it is a prefix of its plan, each entry once; and at most one wake announced it, after its
      completion was recorded. */
  lemma NothingLostNothingTwice(steps: seq<Step>, p: Post)
    requires Known(Run(INITIAL, steps).accepted, p)
    ensures var s := Run(INITIAL, steps);
      && (p in s.file || Complete(s.history, p))
      && Recorded(s.history, p) <= Plan(p)
      && (forall i, j :: 0 <= i < j < |Recorded(s.history, p)| ==> Recorded(s.history, p)[i] != Recorded(s.history, p)[j])
      && (forall i, j :: 0 <= i < j < |s.wakes| ==> s.wakes[i] != s.wakes[j])
      && (p.turn in s.wakes ==> Complete(s.history, p))
  {
    var s := Run(INITIAL, steps);
    RunKeeps(steps);
    PlanShape(p);
    if InOutbox(s.posts, p) {
      var i :| 0 <= i < |s.posts| && s.posts[i].post == p;
      assert s.file[i] == p;
    }
    forall i, j | 0 <= i < j < |s.wakes| ensures s.wakes[i] != s.wakes[j] {
      assert WokenApart(s.wakes, i, j);
    }
    if p.turn in s.wakes {
      WokenComplete(s.accepted, s.history, s.wakes, p);
    }
  }

  lemma WokenComplete(accepted: seq<Post>, history: seq<Entry>, wakes: seq<string>, p: Post)
    requires AcceptedOk(accepted) && LogOk(accepted, history, wakes) && Known(accepted, p) && p.turn in wakes
    ensures Complete(history, p)
  {
    var i :| 0 <= i < |wakes| && wakes[i] == p.turn;
    assert Awake(accepted, history, wakes[i]);
    var q :| Known(accepted, q) && q.turn == p.turn && Complete(history, q);
    SameTurn(accepted, p, q);
  }

  /** The text that a stretch of entries carries. */
  function Spoken(entries: seq<Entry>): Bytes {
    if entries == [] then []
    else
      var n := |entries| - 1;
      Spoken(entries[..n]) + (if entries[n].Chunk? then entries[n].text else [])
  }

  lemma {:induction false} SpokenChunks(p: Post, parts: seq<Bytes>)
    ensures Spoken(Chunks(p, parts)) == Join(parts)
  {
    if parts != [] {
      var n := |parts| - 1;
      SpokenChunks(p, parts[..n]);
      assert Chunks(p, parts)[..n] == Chunks(p, parts[..n]);
      JoinAppend(parts[..n], parts[n]);
      assert parts == parts[..n] + [parts[n]];
    }
  }

  /** A completely recorded post says exactly its text, in chunks numbered from 0 and followed by one completion. */
  lemma CompleteSaysText(history: seq<Entry>, p: Post)
    requires Complete(history, p)
    ensures var r := Recorded(history, p);
      && Spoken(r) == p.text
      && |r| > 0 && r[|r| - 1] == Completion(p.conv, p.turn)
      && (forall i :: 0 <= i < |r| - 1 ==> r[i].Chunk? && r[i].index == i && 0 < |r[i].text| <= MAX_DELTA_TEXT_BYTES)
  {
    var r := Recorded(history, p);
    var parts := Split(p.text, MAX_DELTA_TEXT_BYTES);
    SpokenChunks(p, parts);
    SplitRebuilds(p.text, MAX_DELTA_TEXT_BYTES);
    assert r[..|r| - 1] == Chunks(p, parts);
  }

  // ---------------------------------------------------------------- order within a conversation

  predicate Before(p: Post, q: Post) {
    p.conv == q.conv && p.no < q.no
  }

  predicate InOrderAt(history: seq<Entry>, p: Post, q: Post, k: nat)
    requires k <= |history|
  {
    Recorded(history[..k], q) == [] || Complete(history[..k], p)
  }

  /** At every point of the history, a post that has any entry finds every earlier post of its conversation complete. */
  ghost predicate Ordered(accepted: seq<Post>, history: seq<Entry>) {
    forall k, p, q {:trigger InOrderAt(history, p, q, k)} :: 0 <= k <= |history| && Known(accepted, p) && Known(accepted, q) && Before(p, q) ==> InOrderAt(history, p, q, k)
  }

  lemma RecordedBound(history: seq<Entry>, k: nat, b: nat, p: Post)
    requires k <= b < |history| && Mine(history[b], p)
    ensures |Recorded(history[..k], p)| < |Recorded(history, p)|
  {
    var front, back := history[..k], history[k..];
    RecordedMember(back, p, back[b - k]);
    RecordedAppend(front, back, p);
    assert history == front + back;
  }

  lemma EntryRecorded(history: seq<Entry>, q: Post, a: nat)
    requires a < |history| && Mine(history[a], q)
    ensures Recorded(history[..a + 1], q) != []
  {
    RecordedMember(history[..a + 1], q, history[..a + 1][a]);
  }

  /** Read off the positions: no entry of an earlier post comes after one of a later post. */
  lemma OrderedPositions(accepted: seq<Post>, history: seq<Entry>, p: Post, q: Post, a: nat, b: nat)
    requires AcceptedOk(accepted) && Ordered(accepted, history) && Known(accepted, p) && Known(accepted, q) && Before(p, q)
    requires Recorded(history, p) <= Plan(p)
    requires a < |history| && b < |history| && Mine(history[a], q) && Mine(history[b], p)
    ensures b < a
  {
    SameTurn(accepted, p, q);
    EntryRecorded(history, q, a);
    assert InOrderAt(history, p, q, a + 1);
    if b > a {
      RecordedBound(history, a + 1, b, p);
    }
  }

  lemma OthersUnmoved(h: seq<Entry>, h': seq<Entry>, k: nat, p: Post, q: Post)
    requires h <= h' && |h| <= k <= |h'| && q.turn != p.turn
    requires forall i :: |h| <= i < |h'| ==> Mine(h'[i], p)
    ensures Recorded(h'[..k], q) == Recorded(h, q)
  {
    var part := h'[|h|..k];
    assert h'[..k] == h + part;
    RecordedAppend(h, part, q);
    RecordedStretch(part, p, q);
  }

  /** Recording more of q is in order when every earlier post of its conversation is already complete. */
  lemma OrderedExtends(accepted: seq<Post>, h: seq<Entry>, h': seq<Entry>, q: Post)
    requires AcceptedOk(accepted) && Known(accepted, q) && Ordered(accepted, h) && Extends(h, h', q)
    requires h' == h || forall p :: Known(accepted, p) && Before(p, q) ==> Complete(h, p)
    ensures Ordered(accepted, h')
  {
    forall k, p1, q1 | 0 <= k <= |h'| && Known(accepted, p1) && Known(accepted, q1) && Before(p1, q1)
      ensures InOrderAt(h', p1, q1, k)
    {
      if k <= |h| {
        assert h'[..k] == h[..k];
        assert InOrderAt(h, p1, q1, k);
      } else {
        assert h[..|h|] == h;
        assert InOrderAt(h, p1, q1, |h|);
        if Before(p1, q) {
          assert Complete(h, p1);
        }
        OrderedExtendsAt(accepted, h, h', q, k, p1, q1);
      }
    }
  }

  lemma OrderedExtendsAt(accepted: seq<Post>, h: seq<Entry>, h': seq<Entry>, q: Post, k: nat, p1: Post, q1: Post)
    requires AcceptedOk(accepted) && Known(accepted, q) && Extends(h, h', q) && |h| < k <= |h'|
    requires Known(accepted, p1) && Known(accepted, q1) && Before(p1, q1)
    requires Recorded(h, q1) == [] || Complete(h, p1)
    requires Before(p1, q) ==> Complete(h, p1)
    ensures Recorded(h'[..k], q1) == [] || Complete(h'[..k], p1)
  {
    SameTurn(accepted, p1, q);
    SameTurn(accepted, q1, q);
    if p1 != q {
      OthersUnmoved(h, h', k, q, p1);
    }
    if q1 != q {
      OthersUnmoved(h, h', k, q, q1);
    }
  }

  // ---------------------------------------------------------------- passes and order

  /** The post is free when it is looked at, and its attempt does not record all that is missing. */
  predicate Fails(s: State, h: Held, answer: Answer) {
    && !h.delivered && !Holds(s, h.post.conv, answer.outside)
    && (answer.attempt.PageFails? || answer.attempt.budget < |Missing(Plan(h.post), s.history)|)
  }

  /** A free post of the conversation fails among the first n. */
  predicate Blocked(s: State, answers: seq<Answer>, n: nat, conv: string)
    requires n <= |s.posts| <= |answers|
  {
    exists m {:trigger Fails(s, s.posts[m], answers[m])} ::
      0 <= m < n && s.posts[m].post.conv == conv && Fails(s, s.posts[m], answers[m])
  }

  /** Post j would be recorded past post i of its conversation, which is held when it is looked at: j is free, no failure
      of its conversation stands before it, and its first append succeeds. */
  predicate Overtakes(s: State, answers: seq<Answer>, i: nat, j: nat)
    requires i < j < |s.posts| <= |answers|
  {
    var p, q := s.posts[i], s.posts[j];
    && p.post.conv == q.post.conv
    && !p.delivered && Holds(s, p.post.conv, answers[i].outside) && !Complete(s.history, p.post)
    && !q.delivered && !Holds(s, q.post.conv, answers[j].outside) && !Complete(s.history, q.post)
    && !Blocked(s, answers, j, q.post.conv) && answers[j].attempt.Appends? && answers[j].attempt.budget > 0
  }

  /** None of the first n posts overtakes. */
  predicate NoOvertaking(s: State, answers: seq<Answer>, n: nat)
    requires n <= |s.posts| <= |answers|
  {
    forall i, j {:trigger Overtakes(s, answers, i, j)} :: 0 <= i < j < n ==> !Overtakes(s, answers, i, j)
  }

  /** No conversation's hold answer turns from held to free during the pass. */
  predicate Steady(s: State, answers: seq<Answer>)
    requires |s.posts| <= |answers|
  {
    forall i, j :: 0 <= i < j < |s.posts| && s.posts[i].post.conv == s.posts[j].post.conv ==>
      answers[i].outside ==> answers[j].outside
  }

  lemma SteadyNeverOvertakes(s: State, answers: seq<Answer>)
    requires |s.posts| <= |answers| && Steady(s, answers)
    ensures NoOvertaking(s, answers, |s.posts|)
  {
  }

  ghost predicate FreeDoneAt(s: State, pass: Pass, h: Held, outside: bool) {
    Holds(s, h.post.conv, outside) || h.post.conv in pass.failed || Complete(pass.history, h.post)
  }

  /** A post that was free when the pass looked at it is complete, unless its conversation failed in this pass. */
  ghost predicate FreeDone(s: State, answers: seq<Answer>, pass: Pass, n: nat)
    requires n <= |s.posts| <= |answers|
  {
    forall i {:trigger FreeDoneAt(s, pass, s.posts[i], answers[i].outside)} ::
      0 <= i < n ==> FreeDoneAt(s, pass, s.posts[i], answers[i].outside)
  }

  lemma FreeDoneStep(s: State, answers: seq<Answer>, pass: Pass, n: nat)
    requires AcceptedOk(s.accepted) && OutboxOk(s.accepted, s.history, s.posts)
    requires n < |s.posts| <= |answers| && PassOk(s, pass, n) && FreeDone(s, answers, pass, n)
    ensures FreeDone(s, answers, One(s, pass, s.posts[n], answers[n]), n + 1)
  {
    var h := s.posts[n];
    var next := One(s, pass, h, answers[n]);
    TryKeeps(s, pass, h, answers[n]);
    forall i | 0 <= i < n + 1 ensures FreeDoneAt(s, next, s.posts[i], answers[i].outside) {
      assert Known(s.accepted, s.posts[i].post);
      if i < n {
        assert FreeDoneAt(s, pass, s.posts[i], answers[i].outside);
      } else if h.delivered {
        assert Complete(s.history, h.post) && Complete(pass.history, h.post);
      }
    }
  }

  lemma {:induction false} FreeDoneKeeps(s: State, answers: seq<Answer>, n: nat)
    requires AcceptedOk(s.accepted) && LogOk(s.accepted, s.history, s.wakes)
    requires OutboxOk(s.accepted, s.history, s.posts) && n <= |s.posts| <= |answers|
    ensures FreeDone(s, answers, PassOver(s, answers, n), n)
  {
    if n > 0 {
      FreeDoneKeeps(s, answers, n - 1);
      PassKeeps(s, answers, n - 1);
      FreeDoneStep(s, answers, PassOver(s, answers, n - 1), n - 1);
    }
  }

  /** When the pass tries an incomplete post and can append, every earlier post of its conversation is complete. */
  lemma TriedInOrder(s: State, answers: seq<Answer>, pass: Pass, n: nat, p: Post)
    requires OutboxOk(s.accepted, s.history, s.posts) && n < |s.posts| <= |answers| && NoOvertaking(s, answers, n + 1)
    requires Grows(s.accepted, s.history, pass.history) && FreeDone(s, answers, pass, n)
    requires Tries(s, pass, s.posts[n], answers[n]) && !Complete(s.history, s.posts[n].post)
    requires !Blocked(s, answers, n, s.posts[n].post.conv) && answers[n].attempt.Appends? && answers[n].attempt.budget > 0
    requires Known(s.accepted, p) && Before(p, s.posts[n].post)
    ensures Complete(pass.history, p)
  {
    if InOutbox(s.posts, p) {
      var i :| 0 <= i < |s.posts| && s.posts[i].post == p;
      assert n < i ==> InSequence(s.posts, n, i);
      assert !Overtakes(s, answers, i, n);
      assert FreeDoneAt(s, pass, s.posts[i], answers[i].outside);
    }
  }

  /** An attempt that reads no page or has no room appends nothing. */
  lemma NoRoomNoChange(history: seq<Entry>, p: Post, attempt: Attempt)
    requires attempt.PageFails? || attempt.budget == 0
    ensures Deliver(history, p, attempt).history == history
  {
  }

  /** One more attempt keeps the order. */
  lemma AttemptOrdered(s: State, answers: seq<Answer>, pass: Pass, n: nat)
    requires AcceptedOk(s.accepted) && OutboxOk(s.accepted, s.history, s.posts)
    requires n < |s.posts| <= |answers| && NoOvertaking(s, answers, n + 1) && !Blocked(s, answers, n, s.posts[n].post.conv)
    requires PassOk(s, pass, n) && FreeDone(s, answers, pass, n) && Ordered(s.accepted, pass.history)
    requires Tries(s, pass, s.posts[n], answers[n])
    ensures Ordered(s.accepted, Deliver(pass.history, s.posts[n].post, answers[n].attempt).history)
  {
    var q, attempt := s.posts[n].post, answers[n].attempt;
    DeliverExtends(pass.history, q, attempt);
    var h' := Deliver(pass.history, q, attempt).history;
    if attempt.PageFails? || attempt.budget == 0 {
      NoRoomNoChange(pass.history, q, attempt);
    } else if Complete(s.history, q) {
      assert Complete(pass.history, q);
      assert h' == pass.history;
    } else {
      forall p | Known(s.accepted, p) && Before(p, q) ensures Complete(pass.history, p) {
        TriedInOrder(s, answers, pass, n, p);
      }
    }
    OrderedExtends(s.accepted, pass.history, h', q);
  }

  lemma OneOrdered(s: State, answers: seq<Answer>, pass: Pass, n: nat)
    requires AcceptedOk(s.accepted) && OutboxOk(s.accepted, s.history, s.posts)
    requires n < |s.posts| <= |answers| && NoOvertaking(s, answers, n + 1)
    requires s.posts[n].post.conv in pass.failed <==> Blocked(s, answers, n, s.posts[n].post.conv)
    requires PassOk(s, pass, n) && FreeDone(s, answers, pass, n) && Ordered(s.accepted, pass.history)
    ensures Ordered(s.accepted, One(s, pass, s.posts[n], answers[n]).history)
  {
    if Tries(s, pass, s.posts[n], answers[n]) {
      AttemptOrdered(s, answers, pass, n);
    }
  }

  /** Until the pass comes to a post, what is missing of it is what was missing at the start. */
  ghost predicate Untouched(s: State, answers: seq<Answer>, n: nat)
    requires n < |s.posts| <= |answers|
  {
    var p, h := s.posts[n].post, PassOver(s, answers, n).history;
    Recorded(h, p) == Recorded(s.history, p) && Missing(Plan(p), h) == Missing(Plan(p), s.history)
  }

  lemma UntouchedYet(s: State, answers: seq<Answer>, n: nat)
    requires AcceptedOk(s.accepted) && LogOk(s.accepted, s.history, s.wakes)
    requires OutboxOk(s.accepted, s.history, s.posts) && n < |s.posts| <= |answers|
    ensures Untouched(s, answers, n)
  {
    var q := s.posts[n].post;
    forall i | 0 <= i < n ensures Shut(s, s.posts[i], answers[i], q) {
      assert InSequence(s.posts, i, n);
    }
    HeldPostUnmoved(s, answers, n, q);
    MissingIsRest(s.history, q);
    MissingIsRest(PassOver(s, answers, n).history, q);
  }

  lemma FailedStep(s: State, answers: seq<Answer>, pass: Pass, n: nat, conv: string)
    requires n < |s.posts| <= |answers|
    requires forall c :: c in pass.failed <==> Blocked(s, answers, n, c)
    requires Missing(Plan(s.posts[n].post), pass.history) == Missing(Plan(s.posts[n].post), s.history)
    ensures conv in One(s, pass, s.posts[n], answers[n]).failed <==> Blocked(s, answers, n + 1, conv)
  {
    if Blocked(s, answers, n + 1, conv) && !Blocked(s, answers, n, conv) {
      assert s.posts[n].post.conv == conv && Fails(s, s.posts[n], answers[n]);
    }
    if conv == s.posts[n].post.conv && Fails(s, s.posts[n], answers[n]) {
      assert Blocked(s, answers, n + 1, conv);
    }
  }

  /** A conversation has failed in the pass exactly when one of its free posts fails, as its attempt and the history
      before the pass decide. */
  ghost predicate FailedAsBlocked(s: State, answers: seq<Answer>, pass: Pass, n: nat)
    requires n <= |s.posts| <= |answers|
  {
    forall conv :: conv in pass.failed <==> Blocked(s, answers, n, conv)
  }

  lemma FailedNext(s: State, answers: seq<Answer>, pass: Pass, n: nat)
    requires n < |s.posts| <= |answers| && FailedAsBlocked(s, answers, pass, n)
    requires Missing(Plan(s.posts[n].post), pass.history) == Missing(Plan(s.posts[n].post), s.history)
    ensures FailedAsBlocked(s, answers, One(s, pass, s.posts[n], answers[n]), n + 1)
  {
    forall conv ensures conv in One(s, pass, s.posts[n], answers[n]).failed <==> Blocked(s, answers, n + 1, conv) {
      FailedStep(s, answers, pass, n, conv);
    }
  }

  lemma {:induction false} FailedChain(s: State, answers: seq<Answer>, n: nat)
    requires n <= |s.posts| <= |answers| && forall k :: 0 <= k < n ==> Untouched(s, answers, k)
    ensures FailedAsBlocked(s, answers, PassOver(s, answers, n), n)
  {
    if n > 0 {
      FailedChain(s, answers, n - 1);
      assert Untouched(s, answers, n - 1);
      FailedNext(s, answers, PassOver(s, answers, n - 1), n - 1);
    }
  }

  lemma FailedIffBlocked(s: State, answers: seq<Answer>, n: nat)
    requires AcceptedOk(s.accepted) && LogOk(s.accepted, s.history, s.wakes)
    requires OutboxOk(s.accepted, s.history, s.posts) && n <= |s.posts| <= |answers|
    ensures FailedAsBlocked(s, answers, PassOver(s, answers, n), n)
  {
    forall k | 0 <= k < n ensures Untouched(s, answers, k) {
      UntouchedYet(s, answers, k);
    }
    FailedChain(s, answers, n);
  }

  lemma PassStepOrdered(s: State, answers: seq<Answer>, n: nat)
    requires AcceptedOk(s.accepted) && LogOk(s.accepted, s.history, s.wakes)
    requires OutboxOk(s.accepted, s.history, s.posts) && n < |s.posts| <= |answers| && NoOvertaking(s, answers, n + 1)
    requires Ordered(s.accepted, PassOver(s, answers, n).history)
    ensures Ordered(s.accepted, PassOver(s, answers, n + 1).history)
  {
    PassKeeps(s, answers, n);
    FreeDoneKeeps(s, answers, n);
    FailedIffBlocked(s, answers, n);
    OneOrdered(s, answers, PassOver(s, answers, n), n);
  }

  lemma {:induction false} PassOrdered(s: State, answers: seq<Answer>, n: nat)
    requires AcceptedOk(s.accepted) && LogOk(s.accepted, s.history, s.wakes)
    requires OutboxOk(s.accepted, s.history, s.posts) && n <= |s.posts| <= |answers| && NoOvertaking(s, answers, n)
    requires Ordered(s.accepted, s.history)
    ensures Ordered(s.accepted, PassOver(s, answers, n).history)
  {
    if n == 0 {
      assert PassOver(s, answers, n).history == s.history;
    } else {
      PassOrdered(s, answers, n - 1);
      PassStepOrdered(s, answers, n - 1);
    }
  }

  // ---------------------------------------------------------------- when a pass keeps the order

  /** A pass only appends. */
  lemma {:induction false} PassAppends(s: State, answers: seq<Answer>, m: nat, n: nat)
    requires m <= n <= |s.posts| <= |answers|
    ensures PassOver(s, answers, m).history <= PassOver(s, answers, n).history
  {
    if m < n {
      PassAppends(s, answers, m, n - 1);
      TryAppends(s, PassOver(s, answers, n - 1), s.posts[n - 1], answers[n - 1]);
    }
  }

  lemma TryAppends(s: State, pass: Pass, h: Held, answer: Answer)
    ensures pass.history <= One(s, pass, h, answer).history
  {
  }

  /** An attempt with room for one append records something of an incomplete post. */
  lemma RoomRecords(history: seq<Entry>, q: Post, attempt: Attempt)
    requires Recorded(history, q) <= Plan(q) && !Complete(history, q) && attempt.Appends? && attempt.budget > 0
    ensures Recorded(Deliver(history, q, attempt).history, q) != []
  {
    MissingIsRest(history, q);
    DeliverExtends(history, q, attempt);
  }

  lemma OvertakerRecords(s: State, answers: seq<Answer>, i: nat, j: nat)
    requires AcceptedOk(s.accepted) && LogOk(s.accepted, s.history, s.wakes) && OutboxOk(s.accepted, s.history, s.posts)
    requires i < j < |s.posts| <= |answers| && Overtakes(s, answers, i, j)
    ensures Recorded(PassOver(s, answers, j + 1).history, s.posts[j].post) != []
  {
    FailedIffBlocked(s, answers, j);
    UntouchedYet(s, answers, j);
    RoomRecords(PassOver(s, answers, j).history, s.posts[j].post, answers[j].attempt);
  }

  /** Posts in memory are numbered apart, so a held one is shut wherever the pass looks. */
  lemma ShutThroughout(s: State, answers: seq<Answer>, i: nat, n: nat)
    requires i < |s.posts| && n <= |s.posts| <= |answers| && Holds(s, s.posts[i].post.conv, answers[i].outside)
    requires forall a, b {:trigger InSequence(s.posts, a, b)} :: 0 <= a < b < |s.posts| ==> InSequence(s.posts, a, b)
    ensures forall k :: 0 <= k < n ==> Shut(s, s.posts[k], answers[k], s.posts[i].post)
  {
    forall k | 0 <= k < n ensures Shut(s, s.posts[k], answers[k], s.posts[i].post) {
      assert k < i ==> InSequence(s.posts, k, i);
      assert i < k ==> InSequence(s.posts, i, k);
    }
  }

  lemma OvertakenUnmoved(s: State, answers: seq<Answer>, i: nat, j: nat)
    requires AcceptedOk(s.accepted) && LogOk(s.accepted, s.history, s.wakes) && OutboxOk(s.accepted, s.history, s.posts)
    requires i < j < |s.posts| <= |answers| && Holds(s, s.posts[i].post.conv, answers[i].outside)
    requires !Complete(s.history, s.posts[i].post)
    ensures !Complete(PassOver(s, answers, j + 1).history, s.posts[i].post)
  {
    ShutThroughout(s, answers, i, j + 1);
    HeldPostUnmoved(s, answers, j + 1, s.posts[i].post);
  }

  lemma OutOfOrder(accepted: seq<Post>, h: seq<Entry>, h': seq<Entry>, p: Post, q: Post)
    requires Known(accepted, p) && Known(accepted, q) && Before(p, q) && h <= h'
    requires Recorded(h, q) != [] && !Complete(h, p)
    ensures !Ordered(accepted, h')
  {
    assert h'[..|h|] == h;
    assert !InOrderAt(h', p, q, |h|);
  }

  lemma OvertakingShowsAt(s: State, answers: seq<Answer>, i: nat, j: nat)
    requires AcceptedOk(s.accepted) && LogOk(s.accepted, s.history, s.wakes) && OutboxOk(s.accepted, s.history, s.posts)
    requires i < j < |s.posts| <= |answers| && Overtakes(s, answers, i, j)
    ensures !Ordered(s.accepted, PassOver(s, answers, j + 1).history)
  {
    var h := PassOver(s, answers, j + 1).history;
    assert InSequence(s.posts, i, j);
    OvertakerRecords(s, answers, i, j);
    OvertakenUnmoved(s, answers, i, j);
    OutOfOrder(s.accepted, h, h, s.posts[i].post, s.posts[j].post);
  }

  lemma OrderedPrefix(accepted: seq<Post>, h: seq<Entry>, h': seq<Entry>)
    requires h <= h' && Ordered(accepted, h')
    ensures Ordered(accepted, h)
  {
    forall k, p, q | 0 <= k <= |h| && Known(accepted, p) && Known(accepted, q) && Before(p, q) ensures InOrderAt(h, p, q, k) {
      assert h'[..k] == h[..k];
      assert InOrderAt(h', p, q, k);
    }
  }

  /** What is out of order stays so. */
  lemma StaysOutOfOrder(s: State, answers: seq<Answer>, m: nat, n: nat)
    requires m <= n <= |s.posts| <= |answers| && !Ordered(s.accepted, PassOver(s, answers, m).history)
    ensures !Ordered(s.accepted, PassOver(s, answers, n).history)
  {
    PassAppends(s, answers, m, n);
    if Ordered(s.accepted, PassOver(s, answers, n).history) {
      OrderedPrefix(s.accepted, PassOver(s, answers, m).history, PassOver(s, answers, n).history);
    }
  }

  lemma OvertakingShows(s: State, answers: seq<Answer>, n: nat)
    requires AcceptedOk(s.accepted) && LogOk(s.accepted, s.history, s.wakes) && OutboxOk(s.accepted, s.history, s.posts)
    requires n <= |s.posts| <= |answers| && !NoOvertaking(s, answers, n)
    ensures !Ordered(s.accepted, PassOver(s, answers, n).history)
  {
    var i: nat, j: nat :| i < j < n && Overtakes(s, answers, i, j);
    OvertakingShowsAt(s, answers, i, j);
    StaysOutOfOrder(s, answers, j + 1, n);
  }

  /** For every pattern of failures, the first n posts of a pass keep the order exactly when none of them overtakes. */
  lemma PassOrderIff(s: State, answers: seq<Answer>, n: nat)
    requires Inv(s) && Ordered(s.accepted, s.history) && n <= |s.posts| <= |answers|
    ensures Ordered(s.accepted, PassOver(s, answers, n).history) <==> NoOvertaking(s, answers, n)
  {
    if NoOvertaking(s, answers, n) {
      PassOrdered(s, answers, n);
    } else {
      OvertakingShows(s, answers, n);
    }
  }

  /** A whole pass keeps the order exactly when no post overtakes a held one; the outbox, the history and the answers of
      the pass decide it, whatever fails. */
  lemma OrderIffNoOvertaking(s: State, answers: seq<Answer>, saved: bool)
    requires Inv(s) && Ordered(s.accepted, s.history) && |s.posts| <= |answers|
    ensures Ordered(s.accepted, Drain(s, answers, saved).history) <==> NoOvertaking(s, answers, |s.posts|)
  {
    PassOrderIff(s, answers, |s.posts|);
  }

  /** The answers of a pass that dies in its attempt at post n after some more appends. */
  function CutShort(answers: seq<Answer>, n: nat, extra: nat): seq<Answer> {
    if n < |answers| then answers[n := Answer(answers[n].outside, Appends(extra))] else answers
  }

  lemma {:induction false} PassAgrees(s: State, a: seq<Answer>, b: seq<Answer>, n: nat)
    requires n <= |s.posts| <= |a| && |a| == |b| && forall i :: 0 <= i < n ==> a[i] == b[i]
    ensures PassOver(s, a, n) == PassOver(s, b, n)
  {
    if n > 0 {
      PassAgrees(s, a, b, n - 1);
    }
  }

  /** The posts a crash has looked at. */
  function LookedAt(s: State, n: nat): nat
    requires n <= |s.posts|
  {
    if n < |s.posts| then n + 1 else n
  }

  lemma CrashIsPass(s: State, answers: seq<Answer>, n: nat, extra: nat)
    requires n <= |s.posts| <= |answers|
    ensures Crash(s, answers, n, extra).history == PassOver(s, CutShort(answers, n, extra), LookedAt(s, n)).history
  {
    var cut := CutShort(answers, n, extra);
    PassAgrees(s, answers, cut, n);
    if n < |s.posts| {
      CutAttempt(s, PassOver(s, answers, n), s.posts[n], answers[n], extra);
      assert PassOver(s, cut, n + 1) == One(s, PassOver(s, cut, n), s.posts[n], cut[n]);
    }
  }

  lemma CutAttempt(s: State, pass: Pass, h: Held, answer: Answer, extra: nat)
    ensures One(s, pass, h, Answer(answer.outside, Appends(extra))).history
            == if Tries(s, pass, h, answer) then Deliver(pass.history, h.post, Appends(extra)).history else pass.history
  {
  }

  /** The same for a pass cut short by a crash. */
  lemma CrashOrderIff(s: State, answers: seq<Answer>, n: nat, extra: nat)
    requires Inv(s) && Ordered(s.accepted, s.history) && n <= |s.posts| <= |answers|
    ensures Ordered(s.accepted, Crash(s, answers, n, extra).history)
            <==> NoOvertaking(s, CutShort(answers, n, extra), LookedAt(s, n))
  {
    CrashIsPass(s, answers, n, extra);
    PassOrderIff(s, CutShort(answers, n, extra), LookedAt(s, n));
  }

  lemma ForeignOrdered(s: State, id: int)
    requires Ordered(s.accepted, s.history)
    ensures Ordered(s.accepted, s.history + [Foreign(id)])
  {
    var h, h' := s.history, s.history + [Foreign(id)];
    forall k, p, q | 0 <= k <= |h'| && Known(s.accepted, p) && Known(s.accepted, q) && Before(p, q)
      ensures InOrderAt(h', p, q, k)
    {
      if k <= |h| {
        assert h'[..k] == h[..k];
        assert InOrderAt(h, p, q, k);
      } else {
        assert h'[..k] == h' && h'[..|h|] == h && h[..|h|] == h;
        assert InOrderAt(h, p, q, |h|);
      }
    }
  }

  lemma AcceptOrdered(accepted: seq<Post>, history: seq<Entry>, p: Post)
    requires Ordered(accepted, history) && p.no == |accepted|
    requires forall i :: 0 <= i < |history| ==> Owned(accepted, history[i])
    requires forall q :: q in accepted ==> q.turn != p.turn
    ensures Ordered(accepted + [p], history)
  {
    var more := accepted + [p];
    forall k, p1, q1 | 0 <= k <= |history| && Known(more, p1) && Known(more, q1) && Before(p1, q1)
      ensures InOrderAt(history, p1, q1, k)
    {
      if q1 == p {
        forall i | 0 <= i < k ensures Owned(accepted, history[..k][i]) {
          assert Owned(accepted, history[i]);
        }
        UnknownUnrecorded(accepted, history[..k], p);
      } else {
        assert Known(accepted, p1) && Known(accepted, q1);
      }
    }
  }

  predicate StepSteady(s: State, step: Step) {
    && (step.StepDrain? && |s.posts| <= |step.answers| ==> Steady(s, step.answers))
    && (step.StepCrash? && |s.posts| <= |step.answers| ==> Steady(s, step.answers))
  }

  lemma SteadyCrash(s: State, answers: seq<Answer>, n: nat, extra: nat)
    requires Inv(s) && Ordered(s.accepted, s.history) && n <= |s.posts| <= |answers| && Steady(s, answers)
    ensures Ordered(s.accepted, Crash(s, answers, n, extra).history)
  {
    SteadyNeverOvertakes(s, CutShort(answers, n, extra));
    CrashOrderIff(s, answers, n, extra);
  }

  lemma SteadyDrain(s: State, answers: seq<Answer>, saved: bool)
    requires Inv(s) && Ordered(s.accepted, s.history) && |s.posts| <= |answers| && Steady(s, answers)
    ensures Ordered(s.accepted, Drain(s, answers, saved).history)
  {
    SteadyNeverOvertakes(s, answers);
    OrderIffNoOvertaking(s, answers, saved);
  }

  lemma AcceptStepOrdered(s: State, conv: string, turn: string, text: Bytes, saved: bool)
    requires Inv(s) && Ordered(s.accepted, s.history)
    ensures var s' := Accept(s, conv, turn, text, saved).0; Ordered(s'.accepted, s'.history)
  {
    if Accept(s, conv, turn, text, saved).1 {
      forall i | 0 <= i < |s.history| ensures Owned(s.accepted, s.history[i]) {
      }
      AcceptOrdered(s.accepted, s.history, Post(|s.accepted|, conv, turn, text));
    }
  }

  lemma StepOrdered(s: State, step: Step)
    requires Inv(s) && Ordered(s.accepted, s.history) && StepSteady(s, step)
    ensures Ordered(Apply(s, step).accepted, Apply(s, step).history)
  {
    match step {
      case StepAccept(conv, turn, text, saved) => AcceptStepOrdered(s, conv, turn, text, saved);
      case StepDrain(answers, saved) =>
        if |s.posts| <= |answers| {
          SteadyDrain(s, answers, saved);
        }
      case StepCrash(answers, n, extra) =>
        if n <= |s.posts| <= |answers| {
          SteadyCrash(s, answers, n, extra);
        }
      case StepForeign(id) => ForeignOrdered(s, id);
      case _ =>
    }
  }

  ghost predicate IsRun(trace: seq<State>, steps: seq<Step>) {
    && |trace| == |steps| + 1 && trace[0] == INITIAL
    && (forall i :: 0 <= i < |steps| ==> trace[i + 1] == Apply(trace[i], steps[i]))
  }

  lemma {:induction false} RunInv(trace: seq<State>, steps: seq<Step>, n: nat)
    requires IsRun(trace, steps) && n <= |steps|
    ensures Inv(trace[n])
  {
    if n == 0 {
      RunKeeps([]);
    } else {
      RunInv(trace, steps, n - 1);
      StepKeeps(trace[n - 1], steps[n - 1]);
    }
  }

  /** Posts of one conversation reach history in acceptance order over every run, crashes and failures included, when
      no hold answer turns from held to free within a pass. */
  lemma {:induction false} AcceptanceOrder(trace: seq<State>, steps: seq<Step>, n: nat)
    requires IsRun(trace, steps) && n <= |steps|
    requires forall i :: 0 <= i < n ==> StepSteady(trace[i], steps[i])
    ensures Ordered(trace[n].accepted, trace[n].history)
  {
    if n > 0 {
      AcceptanceOrder(trace, steps, n - 1);
      RunInv(trace, steps, n - 1);
      StepOrdered(trace[n - 1], steps[n - 1]);
    }
  }

  predicate Shut(s: State, h: Held, answer: Answer, q: Post) {
    h.post == q ==> h.delivered || Holds(s, q.conv, answer.outside)
  }

  /** The pass moves a post's record only where it looks at that post and finds it free. */
  lemma HeldPostUnmoved(s: State, answers: seq<Answer>, n: nat, q: Post)
    requires AcceptedOk(s.accepted) && LogOk(s.accepted, s.history, s.wakes)
    requires OutboxOk(s.accepted, s.history, s.posts) && n <= |s.posts| <= |answers| && Known(s.accepted, q)
    requires forall i :: 0 <= i < n ==> Shut(s, s.posts[i], answers[i], q)
    ensures Recorded(PassOver(s, answers, n).history, q) == Recorded(s.history, q)
  {
    forall k | 0 <= k < n ensures Unmoved(s, answers, k, q) {
      HeldPostStep(s, answers, k, q);
    }
    UnmovedChain(s, answers, n, q);
  }

  ghost predicate Unmoved(s: State, answers: seq<Answer>, n: nat, q: Post)
    requires n < |s.posts| <= |answers|
  {
    Recorded(PassOver(s, answers, n + 1).history, q) == Recorded(PassOver(s, answers, n).history, q)
  }

  lemma {:induction false} UnmovedChain(s: State, answers: seq<Answer>, n: nat, q: Post)
    requires n <= |s.posts| <= |answers|
    requires forall k :: 0 <= k < n ==> Unmoved(s, answers, k, q)
    ensures Recorded(PassOver(s, answers, n).history, q) == Recorded(s.history, q)
  {
    if n > 0 {
      UnmovedChain(s, answers, n - 1, q);
      assert Unmoved(s, answers, n - 1, q);
    }
  }

  lemma HeldPostStep(s: State, answers: seq<Answer>, n: nat, q: Post)
    requires AcceptedOk(s.accepted) && LogOk(s.accepted, s.history, s.wakes) && OutboxOk(s.accepted, s.history, s.posts)
    requires n < |s.posts| <= |answers| && Known(s.accepted, q) && Shut(s, s.posts[n], answers[n], q)
    ensures Unmoved(s, answers, n, q)
  {
    PassKeeps(s, answers, n);
    OneUnmoved(s, PassOver(s, answers, n), s.posts[n], answers[n], q);
  }

  lemma OneUnmoved(s: State, pass: Pass, h: Held, answer: Answer, q: Post)
    requires AcceptedOk(s.accepted) && LogOk(s.accepted, pass.history, pass.wakes) && Known(s.accepted, h.post)
    requires Known(s.accepted, q) && Shut(s, h, answer, q)
    ensures Recorded(One(s, pass, h, answer).history, q) == Recorded(pass.history, q)
  {
    SameTurn(s.accepted, h.post, q);
    TryKeeps(s, pass, h, answer);
  }

  /** Two posts accepted for one conversation, nothing recorded yet. */
  function TwoPosts(text: Bytes): State {
    Apply(Apply(INITIAL, StepAccept("c", "t", text, true)), StepAccept("c", "u", text, true))
  }

  lemma TwoPostsShape(text: Bytes)
    ensures var p, q := Post(0, "c", "t", text), Post(1, "c", "u", text);
      && TwoPosts(text).accepted == [p, q] && TwoPosts(text).posts == [Held(p, false), Held(q, false)]
      && TwoPosts(text).history == [] && Inv(TwoPosts(text))
  {
    RunKeeps([]);
    var s1 := Apply(INITIAL, StepAccept("c", "t", text, true));
    StepKeeps(INITIAL, StepAccept("c", "t", text, true));
    assert "t"[0] != "u"[0];
    StepKeeps(s1, StepAccept("c", "u", text, true));
  }

  /** The hold answer is read outside the lock, so it can turn from held to free between two posts of one pass; then
      the later post is recorded first. */
  lemma FlippedHoldReordersPosts(text: Bytes, budget: nat)
    requires budget > 0
    ensures var s, answers := TwoPosts(text), [Answer(true, Appends(budget)), Answer(false, Appends(budget))];
      |s.posts| <= |answers| && Ordered(s.accepted, s.history) && !Ordered(s.accepted, Drain(s, answers, true).history)
  {
    var s, answers := TwoPosts(text), [Answer(true, Appends(budget)), Answer(false, Appends(budget))];
    TwoPostsShape(text);
    OrderedEmpty(s.accepted);
    PlanShape(s.accepted[0]);
    PlanShape(s.accepted[1]);
    assert Overtakes(s, answers, 0, 1);
    OrderIffNoOvertaking(s, answers, true);
  }

  lemma OrderedEmpty(accepted: seq<Post>)
    ensures Ordered(accepted, [])
  {
  }

  // ---------------------------------------------------------------- the gate

  /** A pass records nothing of a post whose conversation has a published turn or a write reservation, or whose own look
      finds it held from outside; a crash in mid-pass changes nothing about that. */
  lemma GateHoldsInPass(s: State, answers: seq<Answer>, saved: bool, n: nat, extra: nat, q: Post)
    requires Inv(s) && n <= |s.posts| <= |answers| && Known(s.accepted, q)
    requires forall i :: 0 <= i < |s.posts| ==> Shut(s, s.posts[i], answers[i], q)
    ensures Recorded(Drain(s, answers, saved).history, q) == Recorded(s.history, q)
    ensures Recorded(Crash(s, answers, n, extra).history, q) == Recorded(s.history, q)
  {
    HeldPostUnmoved(s, answers, |s.posts|, q);
    HeldPostUnmoved(s, answers, n, q);
    var pass := PassOver(s, answers, n);
    if n < |s.posts| && Tries(s, pass, s.posts[n], answers[n]) {
      PassKeeps(s, answers, n);
      SameTurn(s.accepted, s.posts[n].post, q);
      DeliverExtends(pass.history, s.posts[n].post, Appends(extra));
    }
  }

  predicate Gated(s: State, conv: string) {
    conv in s.active || exists t :: t in s.tokens && s.tokens[t] == conv
  }

  lemma GatedHolds(s: State, conv: string, outside: bool)
    requires GateOk(s) && Gated(s, conv)
    ensures Holds(s, conv, outside)
  {
    if t :| t in s.tokens && s.tokens[t] == conv {
      assert t in Reservations(s.tokens, conv);
      assert Writes(s, conv) == |Reservations(s.tokens, conv)|;
    }
  }

  lemma GatedStep(s: State, step: Step, q: Post)
    requires Inv(s) && Known(s.accepted, q) && Gated(s, q.conv)
    ensures Recorded(Apply(s, step).history, q) == Recorded(s.history, q)
  {
    GatedHolds(s, q.conv, false);
    match step {
      case StepDrain(answers, saved) =>
        if |s.posts| <= |answers| {
          GateHoldsInPass(s, answers, saved, 0, 0, q);
        }
      case StepCrash(answers, n, extra) =>
        if n <= |s.posts| <= |answers| {
          GateHoldsInPass(s, answers, true, n, extra, q);
        }
      case StepForeign(id) => assert (s.history + [Foreign(id)])[..|s.history|] == s.history;
      case _ =>
    }
  }

  /** From the moment a turn is published or a write reserved until it is over, no entry of any post of that
      conversation reaches history, over every run. */
  lemma {:induction false} NoPostDuringTurn(trace: seq<State>, steps: seq<Step>, i: nat, j: nat, q: Post)
    requires IsRun(trace, steps) && i <= j <= |steps| && Known(trace[i].accepted, q)
    requires forall k :: i <= k < j ==> Gated(trace[k], q.conv)
    ensures Known(trace[j].accepted, q) && Recorded(trace[j].history, q) == Recorded(trace[i].history, q)
  {
    if i < j {
      NoPostDuringTurn(trace, steps, i, j - 1, q);
      RunInv(trace, steps, j - 1);
      GatedStep(trace[j - 1], steps[j - 1], q);
      StepKeeps(trace[j - 1], steps[j - 1]);
    }
  }

  /** An ordinary delivery opens its turn only when every post accepted for the conversation is already complete. */
  lemma TurnOpensAfterPosts(s: State, conv: string, outside: bool, p: Post)
    requires Inv(s) && BeginDelivery(s, conv, outside).1 && Known(s.accepted, p) && p.conv == conv
    ensures Complete(s.history, p) && !Gated(s, conv) && Gated(BeginDelivery(s, conv, outside).0, conv)
  {
    if InOutbox(s.posts, p) {
      var i :| 0 <= i < |s.posts| && s.posts[i].post == p;
      assert s.posts[i].delivered;
    }
    if Gated(s, conv) {
      GatedHolds(s, conv, outside);
    }
  }

  /** Over every run each conversation's reservation count is the number of its writes begun and not finished. */
  lemma ReservationsExact(steps: seq<Step>, conv: string)
    ensures var s := Run(INITIAL, steps);
      && Writes(s, conv) == |Reservations(s.tokens, conv)|
      && (conv in s.writes <==> Writes(s, conv) > 0)
  {
    RunKeeps(steps);
    var s := Run(INITIAL, steps);
    assert Writes(s, conv) == |Reservations(s.tokens, conv)|;
  }

  // ---------------------------------------------------------------- the delivery object

  const PAGE: nat := 128

  /** For the append loop: a shorter plan misses a prefix of what a longer one misses. */
  lemma {:induction false} MissingPrefix(plan: seq<Entry>, history: seq<Entry>, i: nat)
    requires i <= |plan|
    ensures Missing(plan[..i], history) <= Missing(plan, history)
  {
    if i < |plan| {
      var n := |plan| - 1;
      MissingPrefix(plan[..n], history, i);
      assert plan[..n][..i] == plan[..i];
    } else {
      assert plan[..i] == plan;
    }
  }

  lemma MissingNext(plan: seq<Entry>, history: seq<Entry>, i: nat)
    requires i < |plan|
    ensures Missing(plan[..i + 1], history) == Missing(plan[..i], history) + (if plan[i] in history then [] else [plan[i]])
  {
    assert plan[..i + 1][..i] == plan[..i];
  }

  /** The backward walk over the pages: which planned entries the history already holds. */
  method Reconcile(history: seq<Entry>, plan: seq<Entry>) returns (recorded: seq<bool>)
    ensures |recorded| == |plan|
    ensures forall i :: 0 <= i < |plan| ==> (recorded[i] <==> plan[i] in history)
  {
    recorded := seq(|plan|, _ => false);
    var cursor := |history|;
    while cursor > 0
      invariant 0 <= cursor <= |history| && |recorded| == |plan|
      invariant forall i :: 0 <= i < |plan| ==> (recorded[i] <==> plan[i] in history[cursor..])
    {
      var start := if cursor <= PAGE then 0 else cursor - PAGE;
      recorded := ScanPage(history[start..cursor], plan, recorded, history[cursor..]);
      assert history[start..] == history[start..cursor] + history[cursor..];
      cursor := start;
    }
  }

  /** One page, added to what the newer pages showed. */
  method ScanPage(page: seq<Entry>, plan: seq<Entry>, before: seq<bool>, ghost newer: seq<Entry>) returns (recorded: seq<bool>)
    requires |before| == |plan| && forall i :: 0 <= i < |plan| ==> (before[i] <==> plan[i] in newer)
    ensures |recorded| == |plan|
    ensures forall i :: 0 <= i < |plan| ==> (recorded[i] <==> plan[i] in page + newer)
  {
    recorded := before;
    for k := 0 to |page|
      invariant |recorded| == |plan|
      invariant forall i :: 0 <= i < |plan| ==> (recorded[i] <==> plan[i] in page[..k] || plan[i] in newer)
    {
      recorded := Mark(page[k], plan, recorded);
      assert page[..k + 1] == page[..k] + [page[k]];
    }
    assert page[..|page|] == page;
  }

  /** Marks the planned entry that a history entry repeats exactly. */
  method Mark(e: Entry, plan: seq<Entry>, before: seq<bool>) returns (recorded: seq<bool>)
    requires |before| == |plan|
    ensures |recorded| == |plan|
    ensures forall i :: 0 <= i < |plan| ==> (recorded[i] <==> before[i] || plan[i] == e)
  {
    recorded := seq(|plan|, i requires 0 <= i < |plan| => before[i] || plan[i] == e);
  }

  class Delivery {
    var posts: seq<Held>
    var file: seq<Post>
    var history: seq<Entry>
    var wakes: seq<string>
    var stopped: bool
    var active: set<string>
    var writes: map<string, nat>
    var accepted: seq<Post>              // the acceptance log, kept to state the guarantees
    ghost var tokens: map<nat, string>
    ghost var nextToken: nat

    ghost function View(): State
      reads this
    {
      State(posts, file, history, wakes, accepted, stopped, active, writes, tokens, nextToken)
    }

    ghost predicate Valid()
      reads this
    {
      Inv(View())
    }

    constructor ()
      ensures Valid() && View() == INITIAL
    {
      posts, file, history, wakes, stopped, active, writes := [], [], [], [], false, {}, map[];
      accepted, tokens, nextToken := [], map[], 0;
      new;
      RunKeeps([]);
    }

    /** accept: the candidate list is made durable before the post is taken on. */
    method AcceptPost(conv: string, turn: string, text: Bytes, saved: bool) returns (ok: bool)
      requires Valid()
      requires forall p :: p in accepted ==> p.turn != turn
      modifies this
      ensures (View(), ok) == Accept(old(View()), conv, turn, text, saved) && Valid()
    {
      AcceptKeeps(View(), conv, turn, text, saved);
      if stopped {
        return false;
      }
      var post := Post(|accepted|, conv, turn, text);
      var candidate := posts + [Held(post, false)];
      if !saved {
        return false;
      }
      file := Erase(candidate);
      assert file == Erase(posts) + [post];
      posts := candidate;
      accepted := accepted + [post];
      ok := true;
    }

    /** The append loop: what is not marked goes out in order until an append fails. */
    method AppendMissing(plan: seq<Entry>, recorded: seq<bool>, budget: nat) returns (ok: bool)
      requires |recorded| == |plan| && forall i :: 0 <= i < |plan| ==> (recorded[i] <==> plan[i] in history)
      modifies this`history
      ensures ok == (|Missing(plan, old(history))| <= budget)
      ensures history == old(history) + (if ok then Missing(plan, old(history)) else Missing(plan, old(history))[..budget])
    {
      ghost var h := history;
      var left := budget;
      for i := 0 to |plan|
        invariant history == h + Missing(plan[..i], h)
        invariant left == budget - |Missing(plan[..i], h)|
      {
        MissingNext(plan, h, i);
        if !recorded[i] {
          if left == 0 {
            MissingPrefix(plan, h, i);
            MissingPrefix(plan, h, i + 1);
            return false;
          }
          history := history + [plan[i]];
          left := left - 1;
        }
      }
      assert plan[..|plan|] == plan;
      ok := true;
    }

    /** deliver: page through the whole history, then append what is missing until an append fails. */
    method DeliverPost(post: Post, attempt: Attempt) returns (wake: bool, ok: bool)
      modifies this`history
      ensures Outcome(history, wake, ok) == Deliver(old(history), post, attempt)
    {
      if attempt.PageFails? {
        return false, false;
      }
      var plan := Plan(post);
      PlanShape(post);
      var recorded := Reconcile(history, plan);
      ok := AppendMissing(plan, recorded, attempt.budget);
      wake := ok && !recorded[|plan| - 1];
    }

    /** The step of the pass for one post, with the loop's own branches. */
    method Visit(i: nat, answer: Answer, failed: set<string>, pending: seq<Held>, ghost s: State, ghost pass: Pass)
      returns (failed': set<string>, pending': seq<Held>)
      requires i < |posts| == |s.posts| && forall k :: i <= k < |posts| ==> posts[k] == s.posts[k]
      requires active == s.active && writes == s.writes
      requires pass == Pass(history, wakes, failed, posts[..i], pending)
      modifies this`posts, this`history, this`wakes
      ensures |posts| == |s.posts|
      ensures One(s, pass, s.posts[i], answer) == Pass(history, wakes, failed', posts[..i + 1], pending')
      ensures forall k :: i + 1 <= k < |posts| ==> posts[k] == s.posts[k]
    {
      failed', pending' := failed, pending;
      var h := posts[i];
      assert posts[..i + 1] == posts[..i] + [h];
      var conv := h.post.conv;
      if !h.delivered && (answer.outside || conv in active || conv in writes) {
        pending' := pending + [h];
        return;
      }
      if !h.delivered && conv !in failed {
        var wake, ok := DeliverPost(h.post, answer.attempt);
        if ok {
          posts := posts[i := h.(delivered := true)];
          if wake {
            wakes := wakes + [h.post.turn];
          }
        } else {
          failed' := failed + {conv};
        }
      }
      if !posts[i].delivered {
        pending' := pending + [posts[i]];
      }
    }

    /** The pass over all posts. */
    method PassLoop(answers: seq<Answer>) returns (failed: set<string>, pending: seq<Held>)
      requires |posts| <= |answers|
      modifies this`posts, this`history, this`wakes
      ensures PassOver(old(View()), answers, |old(posts)|) == Pass(history, wakes, failed, posts, pending)
    {
      ghost var s := View();
      failed, pending := {}, [];
      var n := |posts|;
      ghost var pass := PassOver(s, answers, 0);
      for i := 0 to n
        invariant |posts| == n == |s.posts| && forall k :: i <= k < n ==> posts[k] == s.posts[k]
        invariant pass == Pass(history, wakes, failed, posts[..i], pending) && pass == PassOver(s, answers, i)
      {
        failed, pending := Visit(i, answers[i], failed, pending, s, pass);
        pass := One(s, pass, s.posts[i], answers[i]);
      }
      assert posts[..n] == posts;
    }

    /** drain: one pass, then the file is rewritten unless nothing was delivered. */
    method DrainPosts(answers: seq<Answer>, saved: bool)
      requires Valid() && |posts| <= |answers|
      modifies this
      ensures View() == Drain(old(View()), answers, saved) && Valid()
    {
      ghost var s := View();
      var n := |posts|;
      var _, pending := PassLoop(answers);
      if |pending| != n && saved {
        file := Erase(pending);
        posts := pending;
      }
      assert View() == Drain(s, answers, saved);
      DrainKeeps(s, answers, saved);
    }

    /** One look of beginDelivery under the lock. */
    method TryBeginDelivery(conv: string, outside: bool) returns (opens: bool)
      requires Valid()
      modifies this
      ensures (View(), opens) == BeginDelivery(old(View()), conv, outside) && Valid()
    {
      QuietStep(View(), StepBeginDelivery(conv, outside));
      var waiting := HasPending(conv);
      opens := !waiting && !(outside || conv in active || conv in writes);
      if opens {
        active := active + {conv};
        AddWrite(conv);
      }
    }

    method HasPending(conv: string) returns (waiting: bool)
      ensures waiting == PendingFor(View(), conv)
    {
      for i := 0 to |posts|
        invariant forall k :: 0 <= k < i ==> !(posts[k].post.conv == conv && !posts[k].delivered)
      {
        if posts[i].post.conv == conv && !posts[i].delivered {
          return true;
        }
      }
      return false;
    }

    method AddWrite(conv: string)
      modifies this`writes, this`tokens, this`nextToken
      ensures View() == Reserve(old(View()), conv)
    {
      writes := writes[conv := (if conv in writes then writes[conv] else 0) + 1];
      tokens, nextToken := tokens[nextToken := conv], nextToken + 1;
    }

    method TryBeginSendNow(conv: string, tearingDown: bool, busy: bool) returns (opens: bool)
      requires Valid()
      modifies this
      ensures (View(), opens) == BeginSendNow(old(View()), conv, tearingDown, busy) && Valid()
    {
      QuietStep(View(), StepBeginSendNow(conv, tearingDown, busy));
      opens := !tearingDown && busy;
      if opens {
        AddWrite(conv);
      }
    }

    /** finishWrite for one open reservation. */
    method EndWrite(conv: string, ghost token: nat)
      requires Valid() && token in tokens && tokens[token] == conv
      modifies this
      ensures View() == FinishWrite(old(View()), token) && Valid()
    {
      QuietStep(View(), StepFinishWrite(token));
      GatedHolds(View(), conv, false);
      assert token in Reservations(tokens, conv);
      assert Writes(View(), conv) == |Reservations(tokens, conv)|;
      var left := writes[conv] - 1;
      writes := if left == 0 then writes - {conv} else writes[conv := left];
      tokens := tokens - {token};
    }

    method PublishBoundary(conv: string, isActive: bool)
      requires Valid()
      modifies this
      ensures View() == Apply(old(View()), StepBoundary(conv, isActive)) && Valid()
    {
      QuietStep(View(), StepBoundary(conv, isActive));
      active := if isActive then active + {conv} else active - {conv};
    }

    method StopAccepting()
      requires Valid()
      modifies this
      ensures View() == Apply(old(View()), StepStop) && Valid()
    {
      QuietStep(View(), StepStop);
      stopped := true;
    }
  }
}