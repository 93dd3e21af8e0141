/** What the drain of host posts delivers and announces: exactly which posts a pass completes, which stay in the outbox and
    which turns are woken. */
module ChannelOutcomes {
  import opened Utf8Split
  import opened ChannelDelivery

  /** The pass records all that is missing of post i: it is free when looked at, behind no failure of its conversation, and
      its own attempt does not fail. The state and the answers before the pass decide it. */
  predicate Delivers(s: State, answers: seq<Answer>, i: nat)
    requires i < |s.posts| <= |answers|
  {
    && !s.posts[i].delivered && !Holds(s, s.posts[i].post.conv, answers[i].outside)
    && !Blocked(s, answers, i, s.posts[i].post.conv) && !Fails(s, s.posts[i], answers[i])
  }

  /** The posts that are complete after and were not before. */
  function NewlyComplete(posts: seq<Held>, before: seq<Entry>, after: seq<Entry>): set<nat> {
    set i: nat | 0 <= i < |posts| && !Complete(before, posts[i].post) && Complete(after, posts[i].post)
  }

  /** The turns of the chosen ones among the first n posts, in outbox order. */
  function Turns(posts: seq<Held>, chosen: set<nat>, n: nat): seq<string>
    requires n <= |posts|
  {
    if n == 0 then [] else Turns(posts, chosen, n - 1) + if n - 1 in chosen then [posts[n - 1].post.turn] else []
  }

  // ---------------------------------------------------------------- one post

  /** An attempt announces a post exactly when it completes it, and completes it exactly when it does not fail. */
  lemma DeliverCompletes(history: seq<Entry>, p: Post, attempt: Attempt)
    requires Recorded(history, p) <= Plan(p)
    ensures var out := Deliver(history, p, attempt);
      && (out.ok <==> attempt.Appends? && attempt.budget >= |Missing(Plan(p), history)|)
      && (Complete(out.history, p) <==> Complete(history, p) || out.ok)
      && (out.wake <==> !Complete(history, p) && Complete(out.history, p))
  {
    MissingIsRest(history, p);
    DeliverExtends(history, p, attempt);
    var missing := Missing(Plan(p), history);
    if attempt.Appends? && attempt.budget < |missing| {
      AppendsExtend(history, p, attempt.budget);
      assert |Recorded(history + missing[..attempt.budget], p)| < |Plan(p)|;
    }
  }

  /** What the pass does at post i. */
  ghost predicate ActsAt(s: State, answers: seq<Answer>, i: nat)
    requires i < |s.posts| <= |answers|
  {
    var p, pass, next := s.posts[i].post, PassOver(s, answers, i), PassOver(s, answers, i + 1);
    && (Complete(next.history, p) <==> Complete(s.history, p) || Delivers(s, answers, i))
    && next.wakes == pass.wakes + (if !Complete(s.history, p) && Complete(next.history, p) then [p.turn] else [])
    && next.marked == pass.marked + [Held(p, s.posts[i].delivered || Delivers(s, answers, i))]
  }

  lemma OwnTurn(s: State, answers: seq<Answer>, i: nat)
    requires Inv(s) && i < |s.posts| <= |answers|
    ensures ActsAt(s, answers, i)
  {
    var h, pass := s.posts[i], PassOver(s, answers, i);
    UntouchedYet(s, answers, i);
    FailedIffBlocked(s, answers, i);
    PassKeeps(s, answers, i);
    assert Known(s.accepted, h.post);
    assert Complete(pass.history, h.post) <==> Complete(s.history, h.post);
    assert h.post.conv in pass.failed <==> Blocked(s, answers, i, h.post.conv);
    DeliverCompletes(pass.history, h.post, answers[i].attempt);
  }

  lemma LaterLeaves(s: State, answers: seq<Answer>, i: nat, k: nat)
    requires Inv(s) && i < k < |s.posts| <= |answers|
    ensures Unmoved(s, answers, k, s.posts[i].post)
  {
    assert InSequence(s.posts, i, k);
    HeldPostStep(s, answers, k, s.posts[i].post);
  }

  function RecordAfter(s: State, answers: seq<Answer>, q: Post, k: nat): seq<Entry>
    requires k <= |s.posts| <= |answers|
  {
    Recorded(PassOver(s, answers, k).history, q)
  }

  /** The pass moves the record no further. */
  predicate Rests(s: State, answers: seq<Answer>, q: Post, k: nat)
    requires k < |s.posts| <= |answers|
  {
    RecordAfter(s, answers, q, k + 1) == RecordAfter(s, answers, q, k)
  }

  lemma LaterRests(s: State, answers: seq<Answer>, i: nat, k: nat)
    requires Inv(s) && i < k < |s.posts| <= |answers|
    ensures Rests(s, answers, s.posts[i].post, k)
  {
    LaterLeaves(s, answers, i, k);
  }

  lemma {:induction false} SameFrom(records: seq<seq<Entry>>, m: nat, n: nat)
    requires m <= n < |records| && forall k :: m <= k < n ==> records[k] == records[k + 1]
    ensures records[n] == records[m]
    decreases n
  {
    if m < n {
      SameFrom(records, m, n - 1);
      var k := n - 1;
      assert records[k] == records[k + 1];
    }
  }

  lemma RestsBetween(s: State, answers: seq<Answer>, q: Post, m: nat, n: nat)
    requires m <= n <= |s.posts| <= |answers|
    requires forall k {:trigger Rests(s, answers, q, k)} :: m <= k < n ==> Rests(s, answers, q, k)
    ensures RecordAfter(s, answers, q, n) == RecordAfter(s, answers, q, m)
  {
    var records := seq(n + 1, k requires 0 <= k < n + 1 => RecordAfter(s, answers, q, k));
    forall k | m <= k < n ensures records[k] == records[k + 1] {
      assert Rests(s, answers, q, k);
    }
    SameFrom(records, m, n);
  }

  /** What the pass does later leaves the post as it is. */
  lemma RecordStays(s: State, answers: seq<Answer>, i: nat, n: nat)
    requires Inv(s) && i < n <= |s.posts| <= |answers|
    ensures RecordAfter(s, answers, s.posts[i].post, n) == RecordAfter(s, answers, s.posts[i].post, i + 1)
  {
    forall k | i < k < n ensures Rests(s, answers, s.posts[i].post, k) {
      LaterRests(s, answers, i, k);
    }
    RestsBetween(s, answers, s.posts[i].post, i + 1, n);
  }

  lemma SameRecord(a: seq<Entry>, b: seq<Entry>, p: Post)
    requires Recorded(a, p) == Recorded(b, p)
    ensures Complete(a, p) <==> Complete(b, p)
  {
  }

  lemma Afterwards(s: State, answers: seq<Answer>, i: nat, n: nat)
    requires Inv(s) && i < n <= |s.posts| <= |answers|
    ensures Complete(PassOver(s, answers, n).history, s.posts[i].post) <==> Complete(PassOver(s, answers, i + 1).history, s.posts[i].post)
  {
    RecordStays(s, answers, i, n);
    SameRecord(PassOver(s, answers, n).history, PassOver(s, answers, i + 1).history, s.posts[i].post);
  }

  // ---------------------------------------------------------------- a whole pass

  /** A pass completes exactly the posts it delivers. */
  lemma CompletesIff(s: State, answers: seq<Answer>, saved: bool, i: nat)
    requires Inv(s) && i < |s.posts| <= |answers|
    ensures Complete(Drain(s, answers, saved).history, s.posts[i].post)
            <==> Complete(s.history, s.posts[i].post) || Delivers(s, answers, i)
  {
    OwnTurn(s, answers, i);
    Afterwards(s, answers, i, |s.posts|);
  }

  ghost predicate WakesAt(s: State, answers: seq<Answer>, chosen: set<nat>, i: nat)
    requires i < |s.posts| <= |answers|
  {
    PassOver(s, answers, i + 1).wakes == PassOver(s, answers, i).wakes + if i in chosen then [s.posts[i].post.turn] else []
  }

  lemma {:induction false} WakesInTurn(s: State, answers: seq<Answer>, chosen: set<nat>, n: nat)
    requires n <= |s.posts| <= |answers| && forall i :: 0 <= i < n ==> WakesAt(s, answers, chosen, i)
    ensures PassOver(s, answers, n).wakes == s.wakes + Turns(s.posts, chosen, n)
  {
    if n == 0 {
      assert PassOver(s, answers, n).wakes == s.wakes;
    } else {
      WakesInTurn(s, answers, chosen, n - 1);
      assert WakesAt(s, answers, chosen, n - 1);
    }
  }

  lemma OwnWake(s: State, answers: seq<Answer>, i: nat, n: nat)
    requires Inv(s) && i < n <= |s.posts| <= |answers|
    ensures WakesAt(s, answers, NewlyComplete(s.posts, s.history, PassOver(s, answers, n).history), i)
  {
    OwnTurn(s, answers, i);
    Afterwards(s, answers, i, n);
  }

  lemma PassWakes(s: State, answers: seq<Answer>, n: nat)
    requires Inv(s) && n <= |s.posts| <= |answers|
    ensures var pass := PassOver(s, answers, n);
      pass.wakes == s.wakes + Turns(s.posts, NewlyComplete(s.posts, s.history, pass.history), n)
  {
    var chosen := NewlyComplete(s.posts, s.history, PassOver(s, answers, n).history);
    forall i | 0 <= i < n ensures WakesAt(s, answers, chosen, i) {
      OwnWake(s, answers, i, n);
    }
    WakesInTurn(s, answers, chosen, n);
  }

  /** A drain announces exactly the posts it completes, each once and in outbox order, whatever fails. */
  lemma DrainAnnounces(s: State, answers: seq<Answer>, saved: bool)
    requires Inv(s) && |s.posts| <= |answers|
    ensures var s' := Drain(s, answers, saved);
      s'.wakes == s.wakes + Turns(s.posts, NewlyComplete(s.posts, s.history, s'.history), |s.posts|)
  {
    PassWakes(s, answers, |s.posts|);
  }

  predicate MarkedAt(s: State, answers: seq<Answer>, marked: seq<Held>, i: nat)
    requires i < |s.posts| <= |answers| && i < |marked|
  {
    marked[i] == Held(s.posts[i].post, s.posts[i].delivered || Delivers(s, answers, i))
  }

  lemma MarkedNext(s: State, answers: seq<Answer>, n: nat, before: seq<Held>, marked: seq<Held>)
    requires n < |s.posts| <= |answers| && |before| == n
    requires marked == before + [Held(s.posts[n].post, s.posts[n].delivered || Delivers(s, answers, n))]
    requires forall i {:trigger MarkedAt(s, answers, before, i)} :: 0 <= i < n ==> MarkedAt(s, answers, before, i)
    ensures forall i {:trigger MarkedAt(s, answers, marked, i)} :: 0 <= i < n + 1 ==> MarkedAt(s, answers, marked, i)
  {
    forall i | 0 <= i < n + 1 ensures MarkedAt(s, answers, marked, i) {
      assert i < n ==> MarkedAt(s, answers, before, i);
    }
  }

  lemma {:induction false} MarkedAs(s: State, answers: seq<Answer>, n: nat)
    requires n <= |s.posts| <= |answers| && forall i :: 0 <= i < n ==> ActsAt(s, answers, i)
    ensures var marked := PassOver(s, answers, n).marked;
      |marked| == n && forall i {:trigger MarkedAt(s, answers, marked, i)} :: 0 <= i < n ==> MarkedAt(s, answers, marked, i)
  {
    if n == 0 {
      assert PassOver(s, answers, n).marked == [];
    } else {
      MarkedAs(s, answers, n - 1);
      assert ActsAt(s, answers, n - 1);
      MarkedNext(s, answers, n - 1, PassOver(s, answers, n - 1).marked, PassOver(s, answers, n).marked);
    }
  }

  /** After a drain whose save succeeds the outbox and the file hold exactly the posts that were neither delivered before
      nor by this pass; after one whose save fails they hold the same posts as before, with the delivered ones marked. */
  lemma DrainLeaves(s: State, answers: seq<Answer>, saved: bool, i: nat)
    requires Inv(s) && i < |s.posts| <= |answers|
    ensures var s' := Drain(s, answers, saved);
      var done := s.posts[i].delivered || Delivers(s, answers, i);
      && s'.file == Erase(s'.posts)
      && (saved ==> (Held(s.posts[i].post, false) in s'.posts <==> !done) && Held(s.posts[i].post, true) !in s'.posts)
      && (!saved ==> |s'.posts| == |s.posts| && s'.posts[i] == Held(s.posts[i].post, done))
  {
    var marked := PassOver(s, answers, |s.posts|).marked;
    forall k | 0 <= k < |s.posts| ensures ActsAt(s, answers, k) {
      OwnTurn(s, answers, k);
    }
    MarkedAs(s, answers, |s.posts|);
    assert MarkedAt(s, answers, marked, i);
    DrainShape(s, answers, saved);
    forall k | 0 <= k < |s.posts| ensures marked[k].post == s.posts[i].post <==> k == i {
      assert MarkedAt(s, answers, marked, k);
      assert k < i ==> InSequence(s.posts, k, i);
      assert i < k ==> InSequence(s.posts, i, k);
    }
    StaysIff(marked, i);
  }

  lemma StaysIff(marked: seq<Held>, i: nat)
    requires i < |marked| && forall k :: 0 <= k < |marked| ==> (marked[k].post == marked[i].post <==> k == i)
    ensures Held(marked[i].post, false) in Undelivered(marked) <==> !marked[i].delivered
    ensures Held(marked[i].post, true) !in Undelivered(marked)
  {
    UndeliveredMember(marked, Held(marked[i].post, false));
    UndeliveredMember(marked, Held(marked[i].post, true));
    assert marked[i] in marked;
  }

  lemma DrainShape(s: State, answers: seq<Answer>, saved: bool)
    requires Inv(s) && |s.posts| <= |answers|
    ensures var s', marked := Drain(s, answers, saved), PassOver(s, answers, |s.posts|).marked;
      s'.file == Erase(s'.posts) && s'.posts == if saved then Undelivered(marked) else marked
  {
    DrainKeeps(s, answers, saved);
    PassKeeps(s, answers, |s.posts|);
    AllPending(PassOver(s, answers, |s.posts|).marked);
  }

  lemma {:induction false} AllPending(marked: seq<Held>)
    ensures |Undelivered(marked)| <= |marked|
    ensures |Undelivered(marked)| == |marked| ==> Undelivered(marked) == marked
  {
    if marked != [] {
      AllPending(marked[..|marked| - 1]);
    }
  }

  // ---------------------------------------------------------------- over every run

  /** This step recorded the end of p and lost its announcement: the daemon died in the attempt at p. */
  predicate DiedAt(s: State, step: Step, p: Post) {
    && step.StepCrash? && step.n < |s.posts| <= |step.answers| && s.posts[step.n].post == p
    && !Complete(s.history, p) && Complete(Apply(s, step).history, p)
  }

  lemma {:induction false} InTurns(posts: seq<Held>, chosen: set<nat>, n: nat, i: nat)
    requires i < n <= |posts| && i in chosen
    ensures posts[i].post.turn in Turns(posts, chosen, n)
    decreases n
  {
    if i < n - 1 {
      InTurns(posts, chosen, n - 1, i);
    }
  }

  lemma InPosts(s: State, p: Post) returns (i: nat)
    requires Inv(s) && Known(s.accepted, p) && !Complete(s.history, p)
    ensures i < |s.posts| && s.posts[i].post == p
  {
    assert InOutbox(s.posts, p);
    i :| 0 <= i < |s.posts| && s.posts[i].post == p;
  }

  /** A step that completes a post announces it, or died in the attempt. */
  lemma CompletionAnnounced(s: State, step: Step, p: Post)
    requires Inv(s) && Known(s.accepted, p) && !Complete(s.history, p) && Complete(Apply(s, step).history, p)
    ensures p.turn in Apply(s, step).wakes || DiedAt(s, step, p)
  {
    var i := InPosts(s, p);
    match step {
      case StepDrain(answers, saved) =>
        DrainAnnounces(s, answers, saved);
        InTurns(s.posts, NewlyComplete(s.posts, s.history, Drain(s, answers, saved).history), |s.posts|, i);
      case StepCrash(answers, n, extra) => CrashAnnounces(s, answers, n, extra, i);
      case StepForeign(id) =>
        ForeignRecords(s.history, id, p);
      case _ =>
    }
  }

  lemma ForeignRecords(history: seq<Entry>, id: int, p: Post)
    ensures Recorded(history + [Foreign(id)], p) == Recorded(history, p)
  {
    RecordedAppend(history, [Foreign(id)], p);
    assert Recorded([Foreign(id)], p) == [];
  }

  lemma BeforeCrash(s: State, answers: seq<Answer>, n: nat, extra: nat, i: nat)
    requires Inv(s) && i < n <= |s.posts| <= |answers| && Complete(Crash(s, answers, n, extra).history, s.posts[i].post)
    ensures Complete(PassOver(s, answers, n).history, s.posts[i].post)
  {
    PassKeeps(s, answers, n);
    if n < |s.posts| {
      assert InSequence(s.posts, i, n);
      SameTurn(s.accepted, s.posts[i].post, s.posts[n].post);
      DeliverExtends(PassOver(s, answers, n).history, s.posts[n].post, Appends(extra));
    }
  }

  lemma BehindCrash(s: State, answers: seq<Answer>, n: nat, extra: nat, i: nat)
    requires Inv(s) && n < i < |s.posts| <= |answers|
    ensures Recorded(Crash(s, answers, n, extra).history, s.posts[i].post) == Recorded(s.history, s.posts[i].post)
  {
    PassKeeps(s, answers, n);
    assert InSequence(s.posts, n, i);
    SameTurn(s.accepted, s.posts[i].post, s.posts[n].post);
    DeliverExtends(PassOver(s, answers, n).history, s.posts[n].post, Appends(extra));
    forall j | 0 <= j < n ensures Shut(s, s.posts[j], answers[j], s.posts[i].post) {
      assert InSequence(s.posts, j, i);
    }
    HeldPostUnmoved(s, answers, n, s.posts[i].post);
  }

  lemma CrashAnnounces(s: State, answers: seq<Answer>, n: nat, extra: nat, i: nat)
    requires Inv(s) && n <= |s.posts| <= |answers| && i < |s.posts|
    requires !Complete(s.history, s.posts[i].post) && Complete(Crash(s, answers, n, extra).history, s.posts[i].post)
    ensures s.posts[i].post.turn in Crash(s, answers, n, extra).wakes || i == n
  {
    if i < n {
      BeforeCrash(s, answers, n, extra, i);
      PassWakes(s, answers, n);
      InTurns(s.posts, NewlyComplete(s.posts, s.history, PassOver(s, answers, n).history), n, i);
    } else if n < i {
      BehindCrash(s, answers, n, extra, i);
    }
  }

  /** The daemon died in the attempt that completed p, in step k of the run. */
  predicate DiedIn(steps: seq<Step>, k: nat, p: Post)
    requires k < |steps|
  {
    DiedAt(Run(INITIAL, steps[..k]), steps[k], p)
  }

  /** Over every run, a completely recorded post was announced, or the daemon died in the very attempt that completed it. */
  lemma {:induction false} CompleteIsAnnounced(steps: seq<Step>, p: Post)
    requires Known(Run(INITIAL, steps).accepted, p) && Complete(Run(INITIAL, steps).history, p)
    ensures p.turn in Run(INITIAL, steps).wakes || exists k :: 0 <= k < |steps| && DiedIn(steps, k, p)
  {
    if steps != [] {
      var n := |steps| - 1;
      var front := steps[..n];
      StepAnnounces(front, steps[n], p);
      if Known(Run(INITIAL, front).accepted, p) && Complete(Run(INITIAL, front).history, p) {
        CompleteIsAnnounced(front, p);
        if k :| 0 <= k < n && DiedIn(front, k, p) {
          assert front[..k] == steps[..k];
          assert DiedIn(steps, k, p);
        }
      } else if p.turn !in Run(INITIAL, steps).wakes {
        assert DiedIn(steps, n, p);
      }
    }
  }

  lemma StepAnnounces(front: seq<Step>, step: Step, p: Post)
    requires var s := Run(INITIAL, front); Known(Apply(s, step).accepted, p) && Complete(Apply(s, step).history, p)
    ensures var s := Run(INITIAL, front);
      && s.wakes <= Apply(s, step).wakes
      && ((Known(s.accepted, p) && Complete(s.history, p)) || p.turn in Apply(s, step).wakes || DiedAt(s, step, p))
  {
    var s := Run(INITIAL, front);
    RunKeeps(front);
    WakesStay(s, step);
    if !Known(s.accepted, p) {
      NewIsIncomplete(s, step, p);
    } else if !Complete(s.history, p) {
      CompletionAnnounced(s, step, p);
    }
  }

  lemma WakesStay(s: State, step: Step)
    requires Inv(s)
    ensures s.wakes <= Apply(s, step).wakes
  {
    match step {
      case StepDrain(answers, saved) =>
        if |s.posts| <= |answers| {
          PassWakes(s, answers, |s.posts|);
        }
      case StepCrash(answers, n, extra) =>
        if n <= |s.posts| <= |answers| {
          PassWakes(s, answers, n);
        }
      case _ =>
    }
  }

  lemma NewIsIncomplete(s: State, step: Step, p: Post)
    requires Inv(s) && !Known(s.accepted, p) && Known(Apply(s, step).accepted, p)
    ensures !Complete(Apply(s, step).history, p)
  {
    StepKeeps(s, step);
    forall q | Known(s.accepted, q) ensures q.turn != p.turn {
      assert q in s.accepted;
    }
    UnknownUnrecorded(s.accepted, s.history, p);
    PlanShape(p);
  }

  // ---------------------------------------------------------------- acceptance and the gate

  /** A post is taken on exactly when acceptance is open, its turn is new and the list was saved; it is then the last of the
      outbox and of the file. */
  lemma AcceptedIff(s: State, conv: string, turn: string, text: Bytes, saved: bool)
    requires Inv(s)
    ensures var (s', ok) := Accept(s, conv, turn, text, saved);
      && (ok <==> !s.stopped && saved && forall p :: p in s.accepted ==> p.turn != turn)
      && (!ok ==> s' == s)
      && (ok ==> var p := Post(|s.accepted|, conv, turn, text);
            s'.accepted == s.accepted + [p] && s'.posts == s.posts + [Held(p, false)] && s'.file == s.file + [p] && s'.history == s.history)
  {
  }

  /** Over every run the gate holds a conversation exactly while something outside does, its turn is published or one of its
      writes is still open. */
  lemma HeldIff(steps: seq<Step>, conv: string, outside: bool)
    ensures var s := Run(INITIAL, steps);
      Holds(s, conv, outside) <==> outside || conv in s.active || exists t :: t in s.tokens && s.tokens[t] == conv
  {
    RunKeeps(steps);
    var s := Run(INITIAL, steps);
    assert Writes(s, conv) == |Reservations(s.tokens, conv)|;
    if t :| t in s.tokens && s.tokens[t] == conv {
      assert t in Reservations(s.tokens, conv);
    }
    if conv in s.writes {
      var t :| t in Reservations(s.tokens, conv);
    }
  }

  /** An ordinary delivery opens its turn exactly when nothing holds the conversation and no undelivered post waits for it;
      then the turn is published and its write reserved. */
  lemma DeliveryOpensIff(s: State, conv: string, outside: bool)
    requires Inv(s)
    ensures var (s', ok) := BeginDelivery(s, conv, outside);
      && (ok <==> !Holds(s, conv, outside) && forall h :: h in s.posts && h.post.conv == conv ==> h.delivered)
      && (!ok ==> s' == s)
      && (ok ==> conv in s'.active && s'.tokens == s.tokens[s.nextToken := conv] && s.nextToken !in s.tokens
                 && s'.posts == s.posts && s'.history == s.history && Holds(s', conv, false))
  {
  }

  /** Finishing a write ends that reservation and no other. */
  lemma FinishesOne(s: State, token: nat, conv: string)
    requires Inv(s) && token in s.tokens
    ensures var s' := FinishWrite(s, token);
      && s'.tokens == s.tokens - {token} && s'.active == s.active && s'.posts == s.posts && s'.history == s.history
      && (Holds(s', conv, false) <==> conv in s.active || exists t :: t in s.tokens && t != token && s.tokens[t] == conv)
  {
    var s' := FinishWrite(s, token);
    FinishGate(s, token);
    assert Writes(s', conv) == |Reservations(s'.tokens, conv)|;
    if t :| t in s.tokens && t != token && s.tokens[t] == conv {
      assert t in Reservations(s'.tokens, conv);
    }
    if conv in s'.writes {
      var t :| t in Reservations(s'.tokens, conv);
      assert t in s.tokens && t != token && s.tokens[t] == conv;
    }
  }

  /** A send-now delivery reserves its write exactly for a busy conversation that is not being torn down, whatever waits. */
  lemma SendNowIff(s: State, conv: string, tearingDown: bool, busy: bool)
    requires Inv(s)
    ensures var (s', ok) := BeginSendNow(s, conv, tearingDown, busy);
      && (ok <==> busy && !tearingDown)
      && (!ok ==> s' == s)
      && (ok ==> s'.tokens == s.tokens[s.nextToken := conv] && s.nextToken !in s.tokens && s'.active == s.active
                 && s'.posts == s.posts && s'.history == s.history && Holds(s', conv, false))
  {
  }

  /** The step reloads the store after a crash. */
  predicate Reloads(s: State, step: Step) {
    step.StepCrash? && step.n <= |s.posts| <= |step.answers|
  }

  /** The step publishes the conversation's turn. */
  predicate Publishes(s: State, step: Step, conv: string) {
    || step == StepBoundary(conv, true)
    || (step.StepBeginDelivery? && step.conv == conv && BeginDelivery(s, conv, step.outside).1)
  }

  predicate Withdraws(s: State, step: Step, conv: string) {
    step == StepBoundary(conv, false) || Reloads(s, step)
  }

  lemma GateStep(s: State, step: Step, conv: string)
    ensures conv in Apply(s, step).active <==> Publishes(s, step, conv) || (conv in s.active && !Withdraws(s, step, conv))
    ensures Apply(s, step).stopped <==> step.StepStop? || (s.stopped && !Reloads(s, step))
  {
  }

  ghost predicate StoppedSince(trace: seq<State>, steps: seq<Step>, n: nat)
    requires |trace| == |steps| + 1 && n <= |steps|
  {
    exists k {:trigger steps[k]} ::
      0 <= k < n && steps[k].StepStop? && forall j {:trigger steps[j]} :: k < j < n ==> !Reloads(trace[j], steps[j])
  }

  ghost predicate PublishedSince(trace: seq<State>, steps: seq<Step>, n: nat, conv: string)
    requires |trace| == |steps| + 1 && n <= |steps|
  {
    exists k {:trigger steps[k]} ::
      0 <= k < n && Publishes(trace[k], steps[k], conv) && forall j {:trigger steps[j]} :: k < j < n ==> !Withdraws(trace[j], steps[j], conv)
  }

  ghost predicate GateMoves(trace: seq<State>, steps: seq<Step>, k: nat, conv: string)
    requires |trace| == |steps| + 1 && k < |steps|
  {
    && (conv in trace[k + 1].active <==>
          Publishes(trace[k], steps[k], conv) || (conv in trace[k].active && !Withdraws(trace[k], steps[k], conv)))
    && (trace[k + 1].stopped <==> steps[k].StepStop? || (trace[k].stopped && !Reloads(trace[k], steps[k])))
  }

  lemma {:induction false} GateChain(trace: seq<State>, steps: seq<Step>, n: nat, conv: string)
    requires |trace| == |steps| + 1 && n <= |steps| && conv !in trace[0].active && !trace[0].stopped
    requires forall k {:trigger GateMoves(trace, steps, k, conv)} :: 0 <= k < n ==> GateMoves(trace, steps, k, conv)
    ensures conv in trace[n].active <==> PublishedSince(trace, steps, n, conv)
    ensures trace[n].stopped <==> StoppedSince(trace, steps, n)
  {
    if n > 0 {
      GateChain(trace, steps, n - 1, conv);
      assert GateMoves(trace, steps, n - 1, conv);
    }
  }

  /** Over every run a conversation's turn counts as published exactly when something published it and nothing withdrew it
      since; and acceptance is sealed exactly when it was stopped and not reloaded since. */
  lemma PublishedIff(trace: seq<State>, steps: seq<Step>, n: nat, conv: string)
    requires IsRun(trace, steps) && n <= |steps|
    ensures conv in trace[n].active <==> PublishedSince(trace, steps, n, conv)
    ensures trace[n].stopped <==> StoppedSince(trace, steps, n)
  {
    forall k | 0 <= k < n ensures GateMoves(trace, steps, k, conv) {
      GateStep(trace[k], steps[k], conv);
    }
    GateChain(trace, steps, n, conv);
  }
}
