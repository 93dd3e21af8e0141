/** Which message each reply answers: the join of ReplyEvidence read off the entries, without the map of waiting messages. */
module ReplyJoin {
  import opened ReplyEvidence

  // ---------------------------------------------------------------- what an entry is about

  predicate Parallel(trace: seq<State>, entries: seq<Entry>) {
    |trace| == |entries| + 1
  }

  ghost predicate FedAt(trace: seq<State>, entries: seq<Entry>, n: nat)
    requires Parallel(trace, entries) && n < |entries|
  {
    && TurnsOk(trace[n]) && trace[n + 1] == Feed(trace[n], entries[n])
    && (if n == 0 then 0 else entries[n - 1].id) < entries[n].id
  }

  /** trace[n] is the evidence before entry n; ids ascend. */
  ghost predicate IsFeed(trace: seq<State>, entries: seq<Entry>) {
    && Parallel(trace, entries) && trace[0] == INITIAL
    && forall n {:trigger FedAt(trace, entries, n)} :: 0 <= n < |entries| ==> FedAt(trace, entries, n)
  }

  function SourceKey(r: State, src: Source): Key {
    KeyOf(r, src, "")
  }

  predicate References(fact: Fact) {
    fact.Main? && fact.kind == Interrupted && fact.opening != 0
  }

  /** The lifetime a fact acts on, |r.lives| for a new one; none for an interruption whose opening is unknown or belongs to
      another source or turn. */
  predicate ActsOn(r: State, fact: Fact, i: nat)
    requires TurnsOk(r) && fact.Main?
  {
    if References(fact) then
      && fact.opening in r.openings && i == r.openings[fact.opening]
      && r.lives[i].key.src == fact.src && r.lives[i].key.turn == fact.turn
    else
      var key := KeyOf(r, fact.src, fact.turn);
      i == if key in r.turns && fact.kind != Opened then r.turns[key] else |r.lives|
  }

  function LifeAt(r: State, i: nat): Life {
    if i < |r.lives| then r.lives[i] else Life(Key(Untagged, 0, ""), 0, 0, 0, false, [])
  }

  /** Lifetime i takes a waiting message at this fact: it opens, works without a message and before its end, or ends for the
      first time, opened and without a message. */
  predicate Takes(r: State, fact: Fact, i: nat)
    requires TurnsOk(r)
  {
    && fact.Main? && ActsOn(r, fact, i)
    && var life := LifeAt(r, i);
       if Terminal(fact.kind) then life.terminal == 0 && life.opening != 0 && life.user == 0
       else life.opening == 0 || (life.user == 0 && life.terminal == 0)
  }

  /** The current lifetime of its turn ends, opened, for the first time: what still waits is dropped. */
  predicate Drops(r: State, fact: Fact)
    requires TurnsOk(r)
  {
    && fact.Main? && Terminal(fact.kind)
    && var key := KeyOf(r, fact.src, fact.turn);
       && key in r.turns && ActsOn(r, fact, r.turns[key])
       && r.lives[r.turns[key]].terminal == 0 && r.lives[r.turns[key]].opening != 0
  }

  predicate Says(r: State, fact: Fact, source: Key) {
    fact.UserMessage? && SourceKey(r, fact.src) == source
  }

  /** After this fact no message heard before waits for the source any more. */
  ghost predicate Clears(r: State, fact: Fact, source: Key)
    requires TurnsOk(r)
  {
    || (fact.Boundary? && fact.logical)
    || (fact.Main? && SourceKey(r, fact.src) == source && (Drops(r, fact) || exists i :: Takes(r, fact, i)))
  }

  // ---------------------------------------------------------------- one entry

  /** A message that waits for a source that can still speak came after every opening of that source. */
  predicate Recent(r: State, s: Key, i: nat)
    requires s in r.pending && i < |r.lives|
  {
    r.lives[i].opening < r.now
    && (r.lives[i].key.src == s.src && (s.src.Untagged? ==> s.scope == r.scope) ==> r.lives[i].opening < r.pending[s])
  }

  ghost predicate PendingOk(r: State) {
    && (forall s, i {:trigger Recent(r, s, i)} :: s in r.pending && 0 <= i < |r.lives| ==> Recent(r, s, i))
    && (forall i :: 0 <= i < |r.lives| ==> r.lives[i].opening < r.now)
    && (forall s :: s in r.pending ==> 0 < r.pending[s] && s.turn == "" && s.scope <= r.scope && (s.src.Tagged? ==> s.scope == 0))
  }

  /** Afterwards the source's waiting message is the one just said, none, or the one before. */
  ghost predicate PendingMoves(r: State, r': State, e: Entry, s: Key)
    requires TurnsOk(r)
  {
    Pending(r', s) == if Says(r, e.fact, s) then e.id else if Clears(r, e.fact, s) then 0 else Pending(r, s)
  }

  /** Afterwards the lifetime has the message it takes, or the one before. */
  ghost predicate UserMoves(r: State, r': State, e: Entry, i: nat)
    requires TurnsOk(r)
  {
    LifeAt(r', i).user == if Takes(r, e.fact, i) then Pending(r, SourceKey(r, e.fact.src)) else LifeAt(r, i).user
  }

  /** r' differs from r in that lifetime i may have taken the source's waiting message and the source's may be gone. */
  predicate Moved(r: State, r': State, i: nat, source: Key, takes: bool, clears: bool, j: nat, s: Key) {
    && Pending(r', s) == (if s == source && clears then 0 else Pending(r, s))
    && LifeAt(r', j).user == (if j == i && takes then Pending(r, source) else LifeAt(r, j).user)
  }

  lemma OpenMoves(r: State, i: nat, source: Key, id: nat, j: nat, s: Key)
    requires i < |r.lives|
    ensures var r' := Open(r, i, source, id);
      Moved(r, r', i, source, true, true, j, s) && |r'.lives| == |r.lives| && r'.lives[i].terminal == r.lives[i].terminal
      && r'.lives[i].user == Pending(r, source) && Pending(r', source) == 0
  {
  }

  lemma SettleMoves(r: State, i: nat, source: Key, joins: bool, drops: bool, j: nat, s: Key)
    requires i < |r.lives|
    ensures var r' := Settle(r, i, source, joins, drops);
      Moved(r, r', i, source, joins, joins || drops, j, s) && |r'.lives| == |r.lives|
  {
  }

  lemma RecordMoves(r: State, i: nat, id: nat, hasText: bool, j: nat, s: Key)
    requires i < |r.lives|
    ensures Moved(r, RecordText(r, i, id, hasText), i, s, false, false, j, s)
  {
  }

  lemma WorkAloneMoves(r: State, i: nat, source: Key, id: nat, kind: Kind, j: nat, s: Key)
    requires i < |r.lives|
    ensures var takes := r.lives[i].user == 0 && r.lives[i].terminal == 0;
      Moved(r, Work(r, i, source, id, kind), i, source, takes, takes, j, s)
  {
    var takes := r.lives[i].user == 0 && r.lives[i].terminal == 0;
    SettleMoves(r, i, source, takes, false, j, s);
    var r1 := Settle(r, i, source, takes, false);
    if kind.Delta? {
      RecordMoves(r1, i, id, kind.hasText, j, s);
    }
  }

  lemma WorkMoves(r: State, i: nat, source: Key, id: nat, kind: Kind, j: nat, s: Key)
    requires i < |r.lives|
    ensures var r' := Work(if r.lives[i].opening == 0 then Open(r, i, source, id) else r, i, source, id, kind);
      var takes := r.lives[i].opening == 0 || (r.lives[i].user == 0 && r.lives[i].terminal == 0);
      Moved(r, r', i, source, takes, takes, j, s)
  {
    if r.lives[i].opening == 0 {
      OpenMoves(r, i, source, id, j, s);
      WorkAloneMoves(Open(r, i, source, id), i, source, id, kind, j, s);
    } else {
      WorkAloneMoves(r, i, source, id, kind, j, s);
    }
  }

  lemma EndMoves(r: State, i: nat, key: Key, id: nat, completed: bool, j: nat, s: Key)
    requires i < |r.lives|
    requires var source := key.(turn := ""); source in r.pending ==> r.lives[i].opening < r.pending[source]
    ensures var life, source := r.lives[i], key.(turn := "");
      var first := life.terminal == 0 && life.opening != 0;
      Moved(r, End(r, i, key, id, completed), i, source,
            first && life.user == 0, first && (life.user == 0 || (key in r.turns && r.turns[key] == i)), j, s)
  {
  }

  /** The target, taking and clearing of a fact, put together. */
  lemma ClearsAs(r: State, fact: Fact, i: nat, s: Key)
    requires TurnsOk(r) && fact.Main? && ActsOn(r, fact, i)
    ensures Clears(r, fact, s) <==> s == SourceKey(r, fact.src) && (Takes(r, fact, i) || Drops(r, fact))
  {
  }

  function TargetOf(r: State, fact: Fact): nat
    requires fact.Main?
  {
    var key := KeyOf(r, fact.src, fact.turn);
    if key in r.turns && fact.kind != Opened then r.turns[key] else |r.lives|
  }

  lemma SelectMoves(r: State, fact: Fact, j: nat)
    requires TurnsOk(r) && fact.Main?
    ensures var key := KeyOf(r, fact.src, fact.turn);
      var r1, i := Select(r, key, fact.kind), TargetOf(r, fact);
      && TurnsOk(r1) && key in r1.turns && r1.turns[key] == i < |r1.lives| && r1.pending == r.pending && r1.scope == r.scope
      && (i < |r.lives| ==> key in r.turns && r.turns[key] == i)
      && LifeAt(r1, i).terminal == LifeAt(r, i).terminal && LifeAt(r1, i).opening == LifeAt(r, i).opening
      && LifeAt(r1, j).user == LifeAt(r, j).user && LifeAt(r1, i).user == LifeAt(r, i).user
  {
    SelectTurns(r, KeyOf(r, fact.src, fact.turn), fact.kind);
  }

  lemma EndsMove(r: State, r1: State, fact: Fact, id: nat, j: nat, s: Key)
    requires Inv(r) && PendingOk(r) && fact.Main? && !References(fact) && Terminal(fact.kind)
    requires r1 == Select(r, KeyOf(r, fact.src, fact.turn), fact.kind) && TargetOf(r, fact) < |r1.lives|
    ensures var i, key := TargetOf(r, fact), KeyOf(r, fact.src, fact.turn);
      Moved(r, End(r1, i, key, id, fact.kind == TurnEnd), i, SourceKey(r, fact.src), Takes(r, fact, i), Takes(r, fact, i) || Drops(r, fact), j, s)
  {
    var i, key, source := TargetOf(r, fact), KeyOf(r, fact.src, fact.turn), SourceKey(r, fact.src);
    SelectMoves(r, fact, j);
    if source in r.pending && i < |r.lives| {
      assert Recent(r, source, i);
    }
    EndMoves(r1, i, key, id, fact.kind == TurnEnd, j, s);
    assert i < |r.lives| ==> Drops(r, fact) == (r.lives[i].terminal == 0 && r.lives[i].opening != 0);
    assert i == |r.lives| ==> !Takes(r, fact, i);
  }

  lemma SelectedMoves(r: State, fact: Fact, id: nat, j: nat, s: Key)
    requires Inv(r) && PendingOk(r) && fact.Main? && !References(fact)
    ensures var i := TargetOf(r, fact);
      Moved(r, FeedMain(r, id, fact), i, SourceKey(r, fact.src), Takes(r, fact, i), Takes(r, fact, i) || Drops(r, fact), j, s)
  {
    var key, i, source := KeyOf(r, fact.src, fact.turn), TargetOf(r, fact), SourceKey(r, fact.src);
    var r1 := Select(r, key, fact.kind);
    SelectMoves(r, fact, j);
    if Terminal(fact.kind) {
      EndsMove(r, r1, fact, id, j, s);
    } else {
      WorkMoves(r1, i, source, id, fact.kind, j, s);
    }
  }

  lemma ReferencedMoves(r: State, fact: Fact, id: nat, j: nat, s: Key)
    requires Inv(r) && PendingOk(r) && fact.Main? && References(fact)
    ensures var r' := FeedMain(r, id, fact);
      var i := if fact.opening in r.openings then r.openings[fact.opening] else 0;
      Moved(r, r', i, SourceKey(r, fact.src), Takes(r, fact, i), Takes(r, fact, i) || Drops(r, fact), j, s)
  {
    var key := KeyOf(r, fact.src, fact.turn);
    if fact.opening in r.openings {
      var i := r.openings[fact.opening];
      if r.lives[i].key.src == fact.src && r.lives[i].key.turn == fact.turn {
        var source := key.(turn := "");
        assert source in r.pending ==> Recent(r, source, i);
        EndMoves(r, i, key, id, false, j, s);
      }
    }
  }

  function TargetIn(r: State, fact: Fact): nat
    requires fact.Main?
  {
    if !References(fact) then TargetOf(r, fact) else if fact.opening in r.openings then r.openings[fact.opening] else 0
  }

  lemma StampOk(r: State, now: nat)
    requires Inv(r) && PendingOk(r) && r.now <= now
    ensures var r' := r.(now := now); Inv(r') && PendingOk(r')
  {
    ClockKeeps(r, now);
    forall s, i | s in r.pending && 0 <= i < |r.lives| ensures Recent(r.(now := now), s, i) {
      assert Recent(r, s, i);
    }
  }

  predicate MovedBy(r: State, r': State, fact: Fact, j: nat, s: Key)
    requires TurnsOk(r) && fact.Main?
  {
    var takes := Takes(r, fact, TargetIn(r, fact));
    Moved(r, r', TargetIn(r, fact), SourceKey(r, fact.src), takes, takes || Drops(r, fact), j, s)
  }

  lemma StampSame(r: State, r1: State, fact: Fact, r': State, j: nat, s: Key)
    requires TurnsOk(r) && fact.Main? && r1 == r.(now := r1.now) && TurnsOk(r1)
    ensures MovedBy(r1, r', fact, j, s) ==> MovedBy(r, r', fact, j, s)
  {
  }

  lemma MovesOn(r: State, r': State, e: Entry, s: Key, j: nat)
    requires TurnsOk(r) && e.fact.Main? && MovedBy(r, r', e.fact, j, s)
    ensures PendingMoves(r, r', e, s) && UserMoves(r, r', e, j)
  {
    if exists i :: ActsOn(r, e.fact, i) {
      ClearsAs(r, e.fact, TargetIn(r, e.fact), s);
    }
  }

  lemma FactMoves(r: State, r': State, id: nat, fact: Fact, j: nat, s: Key)
    requires Inv(r) && PendingOk(r) && fact.Main? && r' == FeedMain(r, id, fact)
    ensures MovedBy(r, r', fact, j, s)
  {
    if References(fact) {
      ReferencedMoves(r, fact, id, j, s);
    } else {
      SelectedMoves(r, fact, id, j, s);
    }
  }

  lemma OtherEntryMoves(r: State, r1: State, r': State, e: Entry, s: Key, j: nat)
    requires TurnsOk(r) && !e.fact.Main? && r1 == r.(now := e.id + 1)
    requires r' == FeedOther(r1, e.id, e.fact)
    ensures PendingMoves(r, r', e, s) && UserMoves(r, r', e, j)
  {
    match e.fact {
      case Boundary(restart, logical) =>
      case UserMessage(src) => assert KeyOf(r1, src, "") == SourceKey(r, src);
      case Ignored =>
    }
  }

  lemma FeedIs(r: State, e: Entry)
    requires TurnsOk(r) && TurnsOk(r.(now := e.id + 1))
    ensures Feed(r, e) == var r1 := r.(now := e.id + 1); if e.fact.Main? then FeedMain(r1, e.id, e.fact) else FeedOther(r1, e.id, e.fact)
  {
  }

  lemma MainEntryMoves(r: State, e: Entry, s: Key, j: nat)
    requires Inv(r) && PendingOk(r) && r.now <= e.id && e.fact.Main?
    ensures MovedBy(r, Feed(r, e), e.fact, j, s)
  {
    var r1 := r.(now := e.id + 1);
    StampOk(r, e.id + 1);
    FeedIs(r, e);
    FactMoves(r1, Feed(r, e), e.id, e.fact, j, s);
    StampSame(r, r1, e.fact, Feed(r, e), j, s);
  }

  lemma EntryMoves(r: State, e: Entry, s: Key, i: nat)
    requires Inv(r) && PendingOk(r) && r.now <= e.id
    ensures PendingMoves(r, Feed(r, e), e, s) && UserMoves(r, Feed(r, e), e, i)
  {
    if e.fact.Main? {
      MainEntryMoves(r, e, s, i);
      MovesOn(r, Feed(r, e), e, s, i);
    } else {
      StampOk(r, e.id + 1);
      FeedIs(r, e);
      OtherEntryMoves(r, r.(now := e.id + 1), Feed(r, e), e, s, i);
    }
  }

  // ---------------------------------------------------------------- the waiting messages stay recent

  /** The entry opens lifetime i. */
  predicate Opens(r: State, fact: Fact, i: nat)
    requires TurnsOk(r)
  {
    fact.Main? && !Terminal(fact.kind) && ActsOn(r, fact, i) && LifeAt(r, i).opening == 0
  }

  predicate OpenedBy(r: State, r': State, id: nat, fact: Fact, j: nat)
    requires TurnsOk(r)
  {
    && LifeAt(r', j).opening == (if Opens(r, fact, j) then id else LifeAt(r, j).opening)
    && (Opens(r, fact, j) ==> LifeAt(r', j).key.src == fact.src)
    && (j < |r.lives| ==> LifeAt(r', j).key == LifeAt(r, j).key)
  }

  lemma OpenOnly(r: State, i: nat, source: Key, id: nat, j: nat)
    requires i < |r.lives|
    ensures var life, life' := LifeAt(r, j), LifeAt(Open(r, i, source, id), j);
      life' == life.(user := life'.user, opening := if j == i then id else life.opening)
  {
  }

  lemma SettleOnly(r: State, i: nat, source: Key, joins: bool, drops: bool, j: nat)
    requires i < |r.lives|
    ensures var life, life' := LifeAt(r, j), LifeAt(Settle(r, i, source, joins, drops), j); life' == life.(user := life'.user)
  {
  }

  lemma RecordOnly(r: State, i: nat, id: nat, hasText: bool, j: nat)
    requires i < |r.lives|
    ensures LifeAt(RecordText(r, i, id, hasText), j)
         == LifeAt(r, j).(deltas := LifeAt(r, j).deltas + if j == i && hasText then [id] else [])
  {
  }

  lemma WorkAloneOnly(r: State, i: nat, source: Key, id: nat, kind: Kind, j: nat)
    requires i < |r.lives|
    ensures var life, life' := LifeAt(r, j), LifeAt(Work(r, i, source, id, kind), j);
      life' == life.(user := life'.user, deltas := life.deltas + if j == i && kind == Delta(true) then [id] else [])
  {
    var joins := r.lives[i].user == 0 && r.lives[i].terminal == 0;
    SettleOnly(r, i, source, joins, false, j);
    if kind.Delta? {
      RecordOnly(Settle(r, i, source, joins, false), i, id, kind.hasText, j);
    }
  }

  /** Work fills in the opening, the message and the text of its own lifetime. */
  lemma WorkOnly(r: State, i: nat, source: Key, id: nat, kind: Kind, j: nat)
    requires i < |r.lives|
    ensures var r' := Work(if r.lives[i].opening == 0 then Open(r, i, source, id) else r, i, source, id, kind);
      var life, life' := LifeAt(r, j), LifeAt(r', j);
      life' == life.(user := life'.user, opening := if j == i && life.opening == 0 then id else life.opening,
                     deltas := life.deltas + if j == i && kind == Delta(true) then [id] else [])
  {
    if r.lives[i].opening == 0 {
      OpenOnly(r, i, source, id, j);
      WorkAloneOnly(Open(r, i, source, id), i, source, id, kind, j);
    } else {
      WorkAloneOnly(r, i, source, id, kind, j);
    }
  }

  lemma EndOpens(r: State, i: nat, key: Key, id: nat, completed: bool, j: nat)
    requires i < |r.lives|
    ensures var r' := End(r, i, key, id, completed); LifeAt(r', j).opening == LifeAt(r, j).opening && LifeAt(r', j).key == LifeAt(r, j).key
  {
  }

  lemma SelectOpens(r: State, fact: Fact, j: nat)
    requires TurnsOk(r) && fact.Main?
    ensures var key := KeyOf(r, fact.src, fact.turn);
      var r1 := Select(r, key, fact.kind);
      && LifeAt(r1, j).opening == LifeAt(r, j).opening && (j < |r.lives| ==> LifeAt(r1, j).key == LifeAt(r, j).key)
      && LifeAt(r1, TargetOf(r, fact)).key == key
  {
  }

  lemma FactOpens(r: State, r': State, id: nat, fact: Fact, j: nat)
    requires TurnsOk(r) && fact.Main? && r' == FeedMain(r, id, fact)
    ensures OpenedBy(r, r', id, fact, j)
  {
    var key := KeyOf(r, fact.src, fact.turn);
    if References(fact) {
      if fact.opening in r.openings {
        EndOpens(r, r.openings[fact.opening], key, id, false, j);
      }
    } else {
      var r1, i := Select(r, key, fact.kind), TargetOf(r, fact);
      SelectMoves(r, fact, j);
      SelectOpens(r, fact, j);
      if Terminal(fact.kind) {
        EndOpens(r1, i, key, id, fact.kind == TurnEnd, j);
      } else {
        WorkOnly(r1, i, key.(turn := ""), id, fact.kind, j);
      }
    }
  }

  lemma StampOpens(r: State, r1: State, r': State, id: nat, fact: Fact, j: nat)
    requires TurnsOk(r) && r1 == r.(now := r1.now) && TurnsOk(r1) && OpenedBy(r1, r', id, fact, j)
    ensures OpenedBy(r, r', id, fact, j)
  {
  }

  lemma EntryOpens(r: State, e: Entry, j: nat)
    requires Inv(r) && PendingOk(r) && r.now <= e.id
    ensures OpenedBy(r, Feed(r, e), e.id, e.fact, j)
  {
    var r1 := r.(now := e.id + 1);
    StampOk(r, e.id + 1);
    FeedIs(r, e);
    if e.fact.Main? {
      FactOpens(r1, Feed(r, e), e.id, e.fact, j);
      StampOpens(r, r1, Feed(r, e), e.id, e.fact, j);
    }
  }

  lemma EndScope(r: State, i: nat, key: Key, id: nat, completed: bool)
    requires i < |r.lives|
    ensures End(r, i, key, id, completed).scope == r.scope
  {
  }

  lemma WorkAloneScope(r: State, i: nat, source: Key, id: nat, kind: Kind)
    requires i < |r.lives|
    ensures Work(r, i, source, id, kind).scope == r.scope
  {
  }

  lemma WorkScope(r: State, i: nat, source: Key, id: nat, kind: Kind)
    requires i < |r.lives|
    ensures Work(if r.lives[i].opening == 0 then Open(r, i, source, id) else r, i, source, id, kind).scope == r.scope
  {
    WorkAloneScope(if r.lives[i].opening == 0 then Open(r, i, source, id) else r, i, source, id, kind);
  }

  lemma FactScope(r: State, id: nat, fact: Fact)
    requires TurnsOk(r) && fact.Main?
    ensures FeedMain(r, id, fact).scope == r.scope
  {
    var key := KeyOf(r, fact.src, fact.turn);
    if References(fact) {
      if fact.opening in r.openings {
        EndScope(r, r.openings[fact.opening], key, id, false);
      }
    } else {
      var r1, i := Select(r, key, fact.kind), TargetOf(r, fact);
      SelectMoves(r, fact, 0);
      if Terminal(fact.kind) {
        EndScope(r1, i, key, id, fact.kind == TurnEnd);
      } else {
        WorkScope(r1, i, key.(turn := ""), id, fact.kind);
      }
    }
  }

  lemma ScopeMoves(r: State, e: Entry)
    requires Inv(r) && PendingOk(r) && r.now <= e.id
    ensures Feed(r, e).scope == r.scope + if e.fact.Boundary? && !e.fact.restart then 1 else 0
  {
    StampOk(r, e.id + 1);
    FeedIs(r, e);
    if e.fact.Main? {
      FactScope(r.(now := e.id + 1), e.id, e.fact);
    }
  }

  /** Moved on, a waiting message is still more recent than every opening of its source. */
  lemma RecentMoves(r: State, r': State, e: Entry, s: Key, i: nat)
    requires TurnsOk(r) && PendingOk(r) && r.now <= e.id && 0 < e.id && r'.now == e.id + 1
    requires r'.scope == r.scope + if e.fact.Boundary? && !e.fact.restart then 1 else 0
    requires PendingMoves(r, r', e, s) && OpenedBy(r, r', e.id, e.fact, i)
    requires s in r'.pending && 0 < r'.pending[s] && i < |r'.lives| && s.turn == "" && (s.src.Tagged? ==> s.scope == 0)
    ensures Recent(r', s, i)
  {
    if s in r.pending && i < |r.lives| {
      assert Recent(r, s, i);
    }
    if Opens(r, e.fact, i) && !Says(r, e.fact, s) {
      assert Takes(r, e.fact, i);
      assert s != SourceKey(r, e.fact.src);
    }
  }

  lemma KeysMove(r: State, r': State, e: Entry, s: Key)
    requires TurnsOk(r) && PendingOk(r) && 0 < e.id && PendingMoves(r, r', e, s)
    requires r'.scope == r.scope + if e.fact.Boundary? && !e.fact.restart then 1 else 0
    requires s in r'.pending && 0 < r'.pending[s]
    ensures s.turn == "" && s.scope <= r'.scope && (s.src.Tagged? ==> s.scope == 0)
  {
  }

  lemma EntryOk(r: State, e: Entry)
    requires Inv(r) && PendingOk(r) && r.now <= e.id && 0 < e.id
    ensures Inv(Feed(r, e)) && PendingOk(Feed(r, e))
  {
    var r' := Feed(r, e);
    FeedKeeps(r, e);
    ScopeMoves(r, e);
    forall i | 0 <= i < |r'.lives| ensures r'.lives[i].opening < r'.now {
      EntryOpens(r, e, i);
    }
    forall s | s in r'.pending ensures 0 < r'.pending[s] && s.turn == "" && s.scope <= r'.scope && (s.src.Tagged? ==> s.scope == 0) {
      EntryMoves(r, e, s, 0);
      assert WaitOk(r', s);
      KeysMove(r, r', e, s);
    }
    forall s, i | s in r'.pending && 0 <= i < |r'.lives| ensures Recent(r', s, i) {
      EntryMoves(r, e, s, i);
      EntryOpens(r, e, i);
      RecentMoves(r, r', e, s, i);
    }
  }

  // ---------------------------------------------------------------- terminals and text

  predicate Hits(r: State, fact: Fact, j: nat)
    requires TurnsOk(r)
  {
    fact.Main? && ActsOn(r, fact, j)
  }

  predicate EndsNow(r: State, fact: Fact, j: nat)
    requires TurnsOk(r)
  {
    Hits(r, fact, j) && Terminal(fact.kind) && LifeAt(r, j).terminal == 0
  }

  /** The first terminal counts, and each non-empty delta is recorded. */
  predicate FilledBy(r: State, r': State, id: nat, fact: Fact, j: nat)
    requires TurnsOk(r)
  {
    && LifeAt(r', j).terminal == (if EndsNow(r, fact, j) then id else LifeAt(r, j).terminal)
    && LifeAt(r', j).completed == (if EndsNow(r, fact, j) then fact.kind == TurnEnd else LifeAt(r, j).completed)
    && LifeAt(r', j).deltas == LifeAt(r, j).deltas + if Hits(r, fact, j) && fact.kind == Delta(true) then [id] else []
  }

  lemma EndFills(r: State, i: nat, key: Key, id: nat, completed: bool, j: nat)
    requires i < |r.lives|
    ensures var r', ends := End(r, i, key, id, completed), j == i && r.lives[i].terminal == 0;
      && LifeAt(r', j).terminal == (if ends then id else LifeAt(r, j).terminal)
      && LifeAt(r', j).completed == (if ends then completed else LifeAt(r, j).completed)
      && LifeAt(r', j).deltas == LifeAt(r, j).deltas
  {
  }

  lemma SelectFills(r: State, fact: Fact, j: nat)
    requires TurnsOk(r) && fact.Main?
    ensures var r1 := Select(r, KeyOf(r, fact.src, fact.turn), fact.kind);
      && LifeAt(r1, j).terminal == LifeAt(r, j).terminal && LifeAt(r1, j).completed == LifeAt(r, j).completed
      && LifeAt(r1, j).deltas == LifeAt(r, j).deltas
  {
  }

  lemma FactFills(r: State, r': State, id: nat, fact: Fact, j: nat)
    requires TurnsOk(r) && fact.Main? && r' == FeedMain(r, id, fact)
    ensures FilledBy(r, r', id, fact, j)
  {
    var key := KeyOf(r, fact.src, fact.turn);
    if References(fact) {
      if fact.opening in r.openings {
        EndFills(r, r.openings[fact.opening], key, id, false, j);
      }
    } else {
      var r1, i := Select(r, key, fact.kind), TargetOf(r, fact);
      SelectMoves(r, fact, j);
      SelectFills(r, fact, j);
      if Terminal(fact.kind) {
        EndFills(r1, i, key, id, fact.kind == TurnEnd, j);
      } else {
        WorkOnly(r1, i, key.(turn := ""), id, fact.kind, j);
      }
    }
  }

  lemma StampFills(r: State, r1: State, r': State, id: nat, fact: Fact, j: nat)
    requires TurnsOk(r) && r1 == r.(now := r1.now) && TurnsOk(r1) && FilledBy(r1, r', id, fact, j)
    ensures FilledBy(r, r', id, fact, j)
  {
  }

  lemma EntryFills(r: State, e: Entry, j: nat)
    requires Inv(r) && PendingOk(r) && r.now <= e.id
    ensures FilledBy(r, Feed(r, e), e.id, e.fact, j)
  {
    var r1 := r.(now := e.id + 1);
    StampOk(r, e.id + 1);
    FeedIs(r, e);
    if e.fact.Main? {
      FactFills(r1, Feed(r, e), e.id, e.fact, j);
      StampFills(r, r1, Feed(r, e), e.id, e.fact, j);
    }
  }

  // ---------------------------------------------------------------- which lifetime a row belongs to

  lemma EndTexts(r: State, i: nat, key: Key, id: nat, completed: bool)
    requires i < |r.lives|
    ensures End(r, i, key, id, completed).text == r.text
  {
  }

  lemma WorkAloneTexts(r: State, i: nat, source: Key, id: nat, kind: Kind)
    requires i < |r.lives|
    ensures Work(r, i, source, id, kind).text == if kind.Delta? then r.text[id := i] else r.text
  {
  }

  lemma WorkTexts(r: State, i: nat, source: Key, id: nat, kind: Kind)
    requires i < |r.lives|
    ensures Work(if r.lives[i].opening == 0 then Open(r, i, source, id) else r, i, source, id, kind).text
         == if kind.Delta? then r.text[id := i] else r.text
  {
    WorkAloneTexts(if r.lives[i].opening == 0 then Open(r, i, source, id) else r, i, source, id, kind);
  }

  lemma FactTexts(r: State, id: nat, fact: Fact)
    requires TurnsOk(r) && fact.Main?
    ensures FeedMain(r, id, fact).text == if fact.kind.Delta? then r.text[id := TargetOf(r, fact)] else r.text
  {
    var key := KeyOf(r, fact.src, fact.turn);
    if References(fact) {
      if fact.opening in r.openings {
        EndTexts(r, r.openings[fact.opening], key, id, false);
      }
    } else {
      var r1, i := Select(r, key, fact.kind), TargetOf(r, fact);
      SelectMoves(r, fact, 0);
      if Terminal(fact.kind) {
        EndTexts(r1, i, key, id, fact.kind == TurnEnd);
      } else {
        WorkTexts(r1, i, key.(turn := ""), id, fact.kind);
      }
    }
  }

  lemma EntryTexts(r: State, e: Entry)
    requires Inv(r) && PendingOk(r) && r.now <= e.id
    ensures Feed(r, e).text == if e.fact.Main? && e.fact.kind.Delta? then r.text[e.id := TargetOf(r, e.fact)] else r.text
  {
    StampOk(r, e.id + 1);
    FeedIs(r, e);
    if e.fact.Main? {
      FactTexts(r.(now := e.id + 1), e.id, e.fact);
    }
  }

  // ---------------------------------------------------------------- which lifetime an entry finds

  /** Lifetime i is indexed: its key finds it or a later one, and its opening finds it. */
  predicate IndexedLife(r: State, i: nat)
    requires i < |r.lives|
  {
    var life := r.lives[i];
    && life.key in r.turns && i <= r.turns[life.key]
    && (life.opening != 0 ==> life.opening in r.openings && r.openings[life.opening] == i)
  }

  /** A key finds its newest lifetime, and an opening the lifetime it opened. */
  ghost predicate Indexed(r: State) {
    && TurnsOk(r)
    && (forall i {:trigger IndexedLife(r, i)} :: 0 <= i < |r.lives| ==> IndexedLife(r, i))
    && (forall o :: o in r.openings ==> 0 < o < r.now && r.lives[r.openings[o]].opening == o)
  }

  /** The indexes after a fact. */
  predicate IndexedBy(r: State, r': State, id: nat, fact: Fact)
    requires TurnsOk(r) && fact.Main?
  {
    var i := TargetOf(r, fact);
    if References(fact) then |r'.lives| == |r.lives| && r'.turns == r.turns && r'.openings == r.openings
    else
      && |r'.lives| == (if i < |r.lives| then |r.lives| else |r.lives| + 1)
      && r'.turns == (if i < |r.lives| then r.turns else r.turns[KeyOf(r, fact.src, fact.turn) := i])
      && r'.openings == (if Opens(r, fact, i) then r.openings[id := i] else r.openings)
  }

  lemma EndIndexes(r: State, i: nat, key: Key, id: nat, completed: bool)
    requires i < |r.lives|
    ensures var r' := End(r, i, key, id, completed); |r'.lives| == |r.lives| && r'.turns == r.turns && r'.openings == r.openings
  {
  }

  predicate SameIndexes(r: State, r': State) {
    |r'.lives| == |r.lives| && r'.turns == r.turns && r'.openings == r.openings
  }

  lemma SettleIndexes(r: State, i: nat, source: Key, joins: bool, drops: bool)
    requires i < |r.lives|
    ensures SameIndexes(r, Settle(r, i, source, joins, drops))
  {
  }

  lemma RecordIndexes(r: State, i: nat, id: nat, hasText: bool)
    requires i < |r.lives|
    ensures SameIndexes(r, RecordText(r, i, id, hasText))
  {
  }

  lemma WorkAloneIndexes(r: State, i: nat, source: Key, id: nat, kind: Kind)
    requires i < |r.lives|
    ensures SameIndexes(r, Work(r, i, source, id, kind))
  {
    var joins := r.lives[i].user == 0 && r.lives[i].terminal == 0;
    SettleIndexes(r, i, source, joins, false);
    if kind.Delta? {
      RecordIndexes(Settle(r, i, source, joins, false), i, id, kind.hasText);
    }
  }

  lemma WorkIndexes(r: State, i: nat, source: Key, id: nat, kind: Kind)
    requires i < |r.lives|
    ensures var r' := Work(if r.lives[i].opening == 0 then Open(r, i, source, id) else r, i, source, id, kind);
      && |r'.lives| == |r.lives| && r'.turns == r.turns
      && r'.openings == (if r.lives[i].opening == 0 then r.openings[id := i] else r.openings)
  {
    WorkAloneIndexes(if r.lives[i].opening == 0 then Open(r, i, source, id) else r, i, source, id, kind);
  }

  lemma SelectIndexes(r: State, fact: Fact)
    requires TurnsOk(r) && fact.Main?
    ensures var key, i := KeyOf(r, fact.src, fact.turn), TargetOf(r, fact);
      var r1 := Select(r, key, fact.kind);
      && |r1.lives| == (if i < |r.lives| then |r.lives| else |r.lives| + 1) && i < |r1.lives| && r1.openings == r.openings
      && r1.turns == (if i < |r.lives| then r.turns else r.turns[key := i]) && r1.lives[i].opening == LifeAt(r, i).opening
      && TurnsOk(r1) && key in r1.turns && r1.turns[key] == i
  {
    SelectTurns(r, KeyOf(r, fact.src, fact.turn), fact.kind);
  }

  lemma SelectedIndexes(r: State, fact: Fact, id: nat)
    requires TurnsOk(r) && fact.Main? && !References(fact)
    ensures IndexedBy(r, FeedMain(r, id, fact), id, fact)
  {
    var key, i := KeyOf(r, fact.src, fact.turn), TargetOf(r, fact);
    var r1 := Select(r, key, fact.kind);
    SelectIndexes(r, fact);
    assert FeedMain(r, id, fact) == FeedSelected(r1, key, id, fact.kind);
    if Terminal(fact.kind) {
      EndIndexes(r1, i, key, id, fact.kind == TurnEnd);
    } else {
      WorkIndexes(r1, i, key.(turn := ""), id, fact.kind);
    }
  }

  lemma FactIndexes(r: State, r': State, id: nat, fact: Fact)
    requires TurnsOk(r) && fact.Main? && r' == FeedMain(r, id, fact)
    ensures IndexedBy(r, r', id, fact)
  {
    if References(fact) {
      if fact.opening in r.openings {
        EndIndexes(r, r.openings[fact.opening], KeyOf(r, fact.src, fact.turn), id, false);
      }
    } else {
      SelectedIndexes(r, fact, id);
    }
  }

  lemma NewLifeKey(r: State, r': State, id: nat, fact: Fact)
    requires TurnsOk(r) && fact.Main? && !References(fact) && r' == FeedMain(r, id, fact) && TargetOf(r, fact) == |r.lives|
    ensures LifeAt(r', |r.lives|).key == KeyOf(r, fact.src, fact.turn)
  {
    var key := KeyOf(r, fact.src, fact.turn);
    var r1, i := Select(r, key, fact.kind), TargetOf(r, fact);
    SelectMoves(r, fact, i);
    SelectOpens(r, fact, i);
    if Terminal(fact.kind) {
      EndOpens(r1, i, key, id, fact.kind == TurnEnd, i);
    } else {
      WorkOnly(r1, i, key.(turn := ""), id, fact.kind, i);
    }
  }

  lemma IndexMoves(r: State, r': State, id: nat, fact: Fact)
    requires Indexed(r) && fact.Main? && IndexedBy(r, r', id, fact) && TurnsOk(r')
    requires forall j :: OpenedBy(r, r', id, fact, j)
    requires !References(fact) && TargetOf(r, fact) == |r.lives| ==> LifeAt(r', |r.lives|).key == KeyOf(r, fact.src, fact.turn)
    requires forall o :: o in r.openings ==> o < id
    requires id < r'.now && r.now <= r'.now && 0 < id
    ensures Indexed(r')
  {
    forall j | 0 <= j < |r'.lives| ensures IndexedLife(r', j) {
      assert OpenedBy(r, r', id, fact, j);
      assert j < |r.lives| ==> IndexedLife(r, j);
    }
    forall o | o in r'.openings ensures 0 < o < r'.now && r'.lives[r'.openings[o]].opening == o {
      assert OpenedBy(r, r', id, fact, r'.openings[o]);
    }
  }

  lemma StampIndexed(r: State, r': State)
    requires Indexed(r) && r'.turns == r.turns && r'.openings == r.openings && r'.lives == r.lives && r.now <= r'.now
    ensures Indexed(r')
  {
    forall i | 0 <= i < |r'.lives| ensures IndexedLife(r', i) {
      assert IndexedLife(r, i);
    }
  }

  lemma OtherIndexed(r: State, e: Entry)
    requires !e.fact.Main?
    ensures var r' := FeedOther(r, e.id, e.fact); r'.turns == r.turns && r'.openings == r.openings && r'.lives == r.lives && r'.now == r.now
  {
  }

  lemma EntryIndexed(r: State, e: Entry)
    requires Inv(r) && PendingOk(r) && Indexed(r) && r.now <= e.id && 0 < e.id
    ensures Indexed(Feed(r, e))
  {
    var r1, r' := r.(now := e.id + 1), Feed(r, e);
    StampOk(r, e.id + 1);
    StampIndexed(r, r1);
    FeedKeeps(r, e);
    FeedIs(r, e);
    if e.fact.Main? {
      FactIndexes(r1, r', e.id, e.fact);
      forall j ensures OpenedBy(r1, r', e.id, e.fact, j) {
        FactOpens(r1, r', e.id, e.fact, j);
      }
      if !References(e.fact) && TargetOf(r1, e.fact) == |r1.lives| {
        NewLifeKey(r1, r', e.id, e.fact);
      }
      IndexMoves(r1, r', e.id, e.fact);
    } else {
      OtherIndexed(r1, e);
      StampIndexed(r1, r');
    }
  }

  // ---------------------------------------------------------------- theorems over every history

  lemma {:induction false} TraceOk(trace: seq<State>, entries: seq<Entry>, n: nat)
    requires IsFeed(trace, entries) && n <= |entries|
    ensures Inv(trace[n]) && PendingOk(trace[n])
    ensures trace[n].now == if n == 0 then 1 else entries[n - 1].id + 1
    ensures n < |entries| ==> FedAt(trace, entries, n) && trace[n].now <= entries[n].id
  {
    assert n < |entries| ==> FedAt(trace, entries, n);
    if n == 0 {
      InitialInv();
    } else {
      TraceOk(trace, entries, n - 1);
      EntryOk(trace[n - 1], entries[n - 1]);
    }
  }

  /** Over every history, a key's facts find its newest lifetime, and an opening finds the lifetime it opened. */
  lemma {:induction false} FindsNewest(trace: seq<State>, entries: seq<Entry>, n: nat)
    requires IsFeed(trace, entries) && n <= |entries|
    ensures Indexed(trace[n])
  {
    if n > 0 {
      FindsNewest(trace, entries, n - 1);
      TraceOk(trace, entries, n - 1);
      EntryIndexed(trace[n - 1], entries[n - 1]);
    }
  }

  predicate SaysAt(trace: seq<State>, entries: seq<Entry>, k: nat, s: Key)
    requires Parallel(trace, entries) && k < |entries|
  {
    Says(trace[k], entries[k].fact, s)
  }

  ghost predicate ClearsAt(trace: seq<State>, entries: seq<Entry>, k: nat, s: Key)
    requires Parallel(trace, entries) && k < |entries|
  {
    TurnsOk(trace[k]) && Clears(trace[k], entries[k].fact, s)
  }

  /** The message of entry m is the one the source waits with before entry n: its latest, and nothing since cleared it. */
  ghost predicate Offered(trace: seq<State>, entries: seq<Entry>, m: nat, n: nat, s: Key)
    requires Parallel(trace, entries) && n <= |entries|
  {
    && m < n && SaysAt(trace, entries, m, s)
    && forall j :: m < j < n ==> !SaysAt(trace, entries, j, s) && !ClearsAt(trace, entries, j, s)
  }

  ghost predicate OfferedId(trace: seq<State>, entries: seq<Entry>, n: nat, s: Key, id: nat)
    requires Parallel(trace, entries) && n <= |entries|
  {
    exists m: nat :: Offered(trace, entries, m, n, s) && entries[m].id == id
  }

  lemma OfferedNext(trace: seq<State>, entries: seq<Entry>, n: nat, s: Key, id: nat)
    requires Parallel(trace, entries) && 0 < n <= |entries|
    ensures OfferedId(trace, entries, n, s, id) <==>
      if SaysAt(trace, entries, n - 1, s) then entries[n - 1].id == id
      else !ClearsAt(trace, entries, n - 1, s) && OfferedId(trace, entries, n - 1, s, id)
  {
    if m: nat :| Offered(trace, entries, m, n, s) && entries[m].id == id {
      if m < n - 1 {
        assert Offered(trace, entries, m, n - 1, s);
      }
    }
    if SaysAt(trace, entries, n - 1, s) {
      assert Offered(trace, entries, n - 1, n, s);
    } else if m: nat :| Offered(trace, entries, m, n - 1, s) && entries[m].id == id && !ClearsAt(trace, entries, n - 1, s) {
      assert Offered(trace, entries, m, n, s);
    }
  }

  lemma PendingNext(trace: seq<State>, entries: seq<Entry>, n: nat, s: Key)
    requires IsFeed(trace, entries) && n < |entries|
    ensures Pending(trace[n + 1], s) ==
      if SaysAt(trace, entries, n, s) then entries[n].id else if ClearsAt(trace, entries, n, s) then 0 else Pending(trace[n], s)
  {
    TraceOk(trace, entries, n);
    EntryMoves(trace[n], entries[n], s, 0);
  }

  /** What waits for a source is its latest message that nothing cleared since. */
  lemma {:induction false} WaitsIff(trace: seq<State>, entries: seq<Entry>, n: nat, s: Key, id: nat)
    requires IsFeed(trace, entries) && n <= |entries| && id != 0
    ensures Pending(trace[n], s) == id <==> OfferedId(trace, entries, n, s, id)
  {
    if n > 0 {
      WaitsIff(trace, entries, n - 1, s, id);
      PendingNext(trace, entries, n - 1, s);
      OfferedNext(trace, entries, n, s, id);
    }
  }

  /** At entry k lifetime i takes what waits, and that is message id. */
  ghost predicate TakesAt(trace: seq<State>, entries: seq<Entry>, k: nat, i: nat, id: nat)
    requires Parallel(trace, entries) && k < |entries|
  {
    && TurnsOk(trace[k]) && Takes(trace[k], entries[k].fact, i)
    && OfferedId(trace, entries, k, SourceKey(trace[k], entries[k].fact.src), id)
  }

  ghost predicate UserNext(trace: seq<State>, entries: seq<Entry>, k: nat, i: nat, id: nat)
    requires Parallel(trace, entries) && k < |entries|
  {
    LifeAt(trace[k + 1], i).user == id <==> TakesAt(trace, entries, k, i, id) || LifeAt(trace[k], i).user == id
  }

  lemma UserStep(trace: seq<State>, entries: seq<Entry>, k: nat, i: nat, id: nat)
    requires IsFeed(trace, entries) && k < |entries| && id != 0
    ensures UserNext(trace, entries, k, i, id)
  {
    TraceOk(trace, entries, k);
    EntryMoves(trace[k], entries[k], Key(Untagged, 0, ""), i);
    if Takes(trace[k], entries[k].fact, i) {
      assert i < |trace[k].lives| ==> LifeOk(trace[k], i);
      WaitsIff(trace, entries, k, SourceKey(trace[k], entries[k].fact.src), id);
    }
  }

  lemma {:induction false} UserChain(trace: seq<State>, entries: seq<Entry>, n: nat, i: nat, id: nat)
    requires Parallel(trace, entries) && n <= |entries| && id != 0 && trace[0] == INITIAL
    requires forall k {:trigger UserNext(trace, entries, k, i, id)} :: 0 <= k < n ==> UserNext(trace, entries, k, i, id)
    ensures LifeAt(trace[n], i).user == id <==> exists k :: 0 <= k < n && TakesAt(trace, entries, k, i, id)
  {
    if n > 0 {
      UserChain(trace, entries, n - 1, i, id);
      assert UserNext(trace, entries, n - 1, i, id);
    }
  }

  /** Over every history, a lifetime answers exactly the message that waited when it opened, or failing that the one that
      waited when its own work or its terminal first found one: the latest of the source, with no logical replacement and
      nothing that took or dropped it in between. */
  lemma AnswersIff(trace: seq<State>, entries: seq<Entry>, n: nat, i: nat, id: nat)
    requires IsFeed(trace, entries) && n <= |entries| && id != 0
    ensures LifeAt(trace[n], i).user == id <==> exists k :: 0 <= k < n && TakesAt(trace, entries, k, i, id)
  {
    forall k | 0 <= k < n ensures UserNext(trace, entries, k, i, id) {
      UserStep(trace, entries, k, i, id);
    }
    UserChain(trace, entries, n, i, id);
  }

  /** In particular, a message directly followed by an opening of its source is that lifetime's message, whatever follows. */
  lemma MessageThenOpening(trace: seq<State>, entries: seq<Entry>, n: nat, src: Source, turn: string)
    requires IsFeed(trace, entries) && n + 1 < |entries|
    requires entries[n].fact == UserMessage(src) && entries[n + 1].fact == Main(Opened, src, turn, 0)
    ensures LifeAt(trace[|entries|], |trace[n + 1].lives|).user == entries[n].id
  {
    var i, id, s := |trace[n + 1].lives|, entries[n].id, SourceKey(trace[n], src);
    TraceOk(trace, entries, n);
    TraceOk(trace, entries, n + 1);
    ScopeMoves(trace[n], entries[n]);
    assert Offered(trace, entries, n, n + 1, s);
    assert Takes(trace[n + 1], entries[n + 1].fact, i);
    assert TakesAt(trace, entries, n + 1, i, id);
    AnswersIff(trace, entries, |entries|, i, id);
  }

  ghost predicate EndsAt(trace: seq<State>, entries: seq<Entry>, k: nat, i: nat)
    requires Parallel(trace, entries) && k < |entries|
  {
    TurnsOk(trace[k]) && EndsNow(trace[k], entries[k].fact, i)
  }

  ghost predicate EndNext(trace: seq<State>, entries: seq<Entry>, k: nat, i: nat)
    requires Parallel(trace, entries) && k < |entries|
  {
    var life, life' := LifeAt(trace[k], i), LifeAt(trace[k + 1], i);
    && entries[k].id != 0
    && if EndsAt(trace, entries, k, i)
       then life.terminal == 0 && life'.terminal == entries[k].id && life'.completed == EndOf(entries[k].fact)
       else life'.terminal == life.terminal && life'.completed == life.completed
  }

  predicate EndOf(fact: Fact) {
    fact.Main? && fact.kind == TurnEnd
  }

  lemma EndStep(trace: seq<State>, entries: seq<Entry>, k: nat, i: nat)
    requires IsFeed(trace, entries) && k < |entries|
    ensures EndNext(trace, entries, k, i)
  {
    TraceOk(trace, entries, k);
    EntryFills(trace[k], entries[k], i);
  }

  /** Entry k alone ended the lifetime, and its terminal and verdict say so before entry n. */
  ghost predicate EndedBy(trace: seq<State>, entries: seq<Entry>, n: nat, i: nat, k: nat)
    requires Parallel(trace, entries) && k < n <= |entries|
  {
    && EndsAt(trace, entries, k, i) && LifeAt(trace[n], i).terminal == entries[k].id
    && LifeAt(trace[n], i).completed == EndOf(entries[k].fact)
    && forall j :: 0 <= j < n && EndsAt(trace, entries, j, i) ==> j == k
  }

  lemma {:induction false} EndChain(trace: seq<State>, entries: seq<Entry>, n: nat, i: nat)
    requires Parallel(trace, entries) && n <= |entries| && trace[0] == INITIAL
    requires forall k {:trigger EndNext(trace, entries, k, i)} :: 0 <= k < n ==> EndNext(trace, entries, k, i)
    ensures LifeAt(trace[n], i).terminal == 0 ==> !LifeAt(trace[n], i).completed && forall k :: 0 <= k < n ==> !EndsAt(trace, entries, k, i)
    ensures LifeAt(trace[n], i).terminal != 0 ==> exists k :: 0 <= k < n && EndedBy(trace, entries, n, i, k)
  {
    if n > 0 {
      var m := n - 1;
      EndChain(trace, entries, m, i);
      assert EndNext(trace, entries, m, i);
      if EndsAt(trace, entries, m, i) {
        assert EndedBy(trace, entries, n, i, m);
      } else if k :| 0 <= k < m && EndedBy(trace, entries, m, i, k) {
        assert EndedBy(trace, entries, n, i, k);
      }
    }
  }

  /** Over every history, a lifetime has a terminal exactly when some end or interruption acts on it; the first one is its
      terminal, and the lifetime is completed exactly when that is an end. */
  lemma EndsIff(trace: seq<State>, entries: seq<Entry>, n: nat, i: nat)
    requires IsFeed(trace, entries) && n <= |entries|
    ensures LifeAt(trace[n], i).terminal == 0 ==> !LifeAt(trace[n], i).completed && forall k :: 0 <= k < n ==> !EndsAt(trace, entries, k, i)
    ensures LifeAt(trace[n], i).terminal != 0 ==> exists k :: 0 <= k < n && EndedBy(trace, entries, n, i, k)
  {
    forall k | 0 <= k < n ensures EndNext(trace, entries, k, i) {
      EndStep(trace, entries, k, i);
    }
    EndChain(trace, entries, n, i);
  }

  predicate SpeaksAt(trace: seq<State>, entries: seq<Entry>, k: nat, i: nat)
    requires Parallel(trace, entries) && k < |entries|
  {
    TurnsOk(trace[k]) && Hits(trace[k], entries[k].fact, i) && entries[k].fact.kind == Delta(true)
  }

  /** The ids of the non-empty deltas that act on lifetime i, in order. */
  function DeltasOf(trace: seq<State>, entries: seq<Entry>, n: nat, i: nat): seq<nat>
    requires Parallel(trace, entries) && n <= |entries|
  {
    if n == 0 then []
    else DeltasOf(trace, entries, n - 1, i) + if SpeaksAt(trace, entries, n - 1, i) then [entries[n - 1].id] else []
  }

  lemma DeltaStep(trace: seq<State>, entries: seq<Entry>, k: nat, i: nat)
    requires IsFeed(trace, entries) && k < |entries|
    ensures LifeAt(trace[k + 1], i).deltas == LifeAt(trace[k], i).deltas + if SpeaksAt(trace, entries, k, i) then [entries[k].id] else []
  {
    TraceOk(trace, entries, k);
    EntryFills(trace[k], entries[k], i);
  }

  /** Over every history, a lifetime's text is exactly the non-empty deltas that act on it, in order. */
  lemma {:induction false} DeltasAre(trace: seq<State>, entries: seq<Entry>, n: nat, i: nat)
    requires IsFeed(trace, entries) && n <= |entries|
    ensures LifeAt(trace[n], i).deltas == DeltasOf(trace, entries, n, i)
  {
    if n > 0 {
      DeltasAre(trace, entries, n - 1, i);
      DeltaStep(trace, entries, n - 1, i);
    }
  }

  ghost predicate WritesAt(trace: seq<State>, entries: seq<Entry>, k: nat, i: nat)
    requires Parallel(trace, entries) && k < |entries|
  {
    TurnsOk(trace[k]) && Hits(trace[k], entries[k].fact, i) && entries[k].fact.kind.Delta?
  }

  /** Over every history, a row that a delta created belongs to the lifetime the delta acted on. */
  lemma {:induction false} TextsIff(trace: seq<State>, entries: seq<Entry>, n: nat, d: nat, i: nat)
    requires IsFeed(trace, entries) && n <= |entries|
    ensures d in trace[n].text && trace[n].text[d] == i <==> exists k :: 0 <= k < n && WritesAt(trace, entries, k, i) && entries[k].id == d
  {
    if n > 0 {
      var k := n - 1;
      TextsIff(trace, entries, k, d, i);
      TraceOk(trace, entries, k);
      EntryTexts(trace[k], entries[k]);
      OlderIds(trace, entries, k);
      assert WritesAt(trace, entries, k, i) <==>
        entries[k].fact.Main? && entries[k].fact.kind.Delta? && i == TargetOf(trace[k], entries[k].fact);
    }
  }

  lemma OlderIds(trace: seq<State>, entries: seq<Entry>, n: nat)
    requires IsFeed(trace, entries) && n < |entries|
    ensures forall k :: 0 <= k < n ==> entries[k].id < entries[n].id
  {
    forall k | 0 <= k < n ensures entries[k].id < entries[n].id {
      IdsAscend(trace, entries, k, n);
    }
  }

  lemma {:induction false} IdsAscend(trace: seq<State>, entries: seq<Entry>, m: nat, n: nat)
    requires IsFeed(trace, entries) && m < n < |entries|
    ensures entries[m].id < entries[n].id
    decreases n
  {
    assert FedAt(trace, entries, n);
    if m < n - 1 {
      IdsAscend(trace, entries, m, n - 1);
    }
  }

  lemma RestAscends(trace: seq<State>, entries: seq<Entry>, n: nat)
    requires IsFeed(trace, entries) && n <= |entries|
    ensures Ascending(entries[n..], trace[n].now)
  {
    TraceOk(trace, entries, n);
    forall i, j | n <= i < j < |entries| ensures entries[i].id < entries[j].id {
      IdsAscend(trace, entries, i, j);
    }
    if n < |entries| {
      forall j | n <= j < |entries| ensures trace[n].now <= entries[j].id && 0 < entries[j].id {
        assert n < j ==> entries[n].id < entries[j].id;
      }
    }
  }

  lemma FeedNone(r: State)
    requires Inv(r)
    ensures FeedAll(r, []) == r
  {
  }

  lemma FeedFirst(r: State, r': State, entries: seq<Entry>, n: nat)
    requires Inv(r) && n < |entries| && Ascending(entries[n..], r.now) && r' == Feed(r, entries[n])
    requires Inv(r') && Ascending(entries[n + 1..], r'.now)
    ensures FeedAll(r, entries[n..]) == FeedAll(r', entries[n + 1..])
  {
    FeedOneMore(r, entries, n);
  }

  ghost predicate Ready(trace: seq<State>, entries: seq<Entry>, k: nat)
    requires Parallel(trace, entries) && k <= |entries|
  {
    Inv(trace[k]) && Ascending(entries[k..], trace[k].now)
  }

  ghost predicate NextFed(trace: seq<State>, entries: seq<Entry>, k: nat)
    requires Parallel(trace, entries) && k < |entries|
  {
    Ready(trace, entries, k) && Ready(trace, entries, k + 1) && FeedAll(trace[k], entries[k..]) == FeedAll(trace[k + 1], entries[k + 1..])
  }

  lemma ReadyAt(trace: seq<State>, entries: seq<Entry>, k: nat)
    requires IsFeed(trace, entries) && k <= |entries|
    ensures Ready(trace, entries, k)
  {
    TraceOk(trace, entries, k);
    RestAscends(trace, entries, k);
  }

  lemma ReadyNext(trace: seq<State>, entries: seq<Entry>, k: nat)
    requires Parallel(trace, entries) && k < |entries| && FedAt(trace, entries, k)
    requires Ready(trace, entries, k) && Ready(trace, entries, k + 1)
    ensures NextFed(trace, entries, k)
  {
    FeedFirst(trace[k], trace[k + 1], entries, k);
  }

  lemma NextFedAt(trace: seq<State>, entries: seq<Entry>, k: nat)
    requires IsFeed(trace, entries) && k < |entries|
    ensures NextFed(trace, entries, k)
  {
    ReadyAt(trace, entries, k);
    ReadyAt(trace, entries, k + 1);
    assert FedAt(trace, entries, k);
    ReadyNext(trace, entries, k);
  }

  lemma {:induction false} FedChain(trace: seq<State>, entries: seq<Entry>, n: nat)
    requires Parallel(trace, entries) && n <= |entries| && Ready(trace, entries, |entries|)
    requires forall k {:trigger NextFed(trace, entries, k)} :: 0 <= k < |entries| ==> NextFed(trace, entries, k)
    ensures Ready(trace, entries, n) && FeedAll(trace[n], entries[n..]) == trace[|entries|]
    decreases |entries| - n
  {
    if n < |entries| {
      assert NextFed(trace, entries, n);
      FedChain(trace, entries, n + 1);
    } else {
      assert entries[n..] == [];
      FeedNone(trace[n]);
    }
  }

  /** The last state of the trace is the evidence of the whole history. */
  lemma TraceIsFeedAll(trace: seq<State>, entries: seq<Entry>)
    requires IsFeed(trace, entries)
    ensures Ready(trace, entries, 0) && FeedAll(INITIAL, entries) == trace[|entries|]
  {
    forall k | 0 <= k < |entries| ensures NextFed(trace, entries, k) {
      NextFedAt(trace, entries, k);
    }
    ReadyAt(trace, entries, |entries|);
    FedChain(trace, entries, 0);
    assert entries[0..] == entries;
  }
}
