/** Joining recorded replies to the user messages they answer, and the text boundary of each exported reply row.
    History ids are positive and increase; 0 stands for no id, as in the recorded data. */
module ReplyEvidence {

  /** Who produced an entry: a recorded session, or nothing recorded. */
  datatype Source = Tagged(session: nat) | Untagged

  /** scope distinguishes untagged entries only; turn is empty in a key that names a source. */
  datatype Key = Key(src: Source, scope: nat, turn: string)

  datatype Life = Life(key: Key, opening: nat, user: nat, terminal: nat, completed: bool, deltas: seq<nat>)

  datatype Kind = Opened | Interrupted | TurnEnd | Delta(hasText: bool) | Tool

  /** One history entry as the join reads it. Main is a valid fact that belongs to no child. */
  datatype Fact =
    | Boundary(restart: bool, logical: bool)
    | UserMessage(src: Source)
    | Main(kind: Kind, src: Source, turn: string, opening: nat)    // opening: the referenced opening entry, 0 if none
    | Ignored

  datatype Entry = Entry(id: nat, fact: Fact)

  /** heard records every user message by id; now bounds all ids seen. Lifetimes are numbered as they appear. */
  datatype State = State(scope: nat, lives: seq<Life>, turns: map<Key, nat>, openings: map<nat, nat>,
                         pending: map<Key, nat>, text: map<nat, nat>, heard: map<nat, Key>, now: nat)

  const INITIAL: State := State(0, [], map[], map[], map[], map[], map[], 1)

  function KeyOf(r: State, src: Source, turn: string): Key {
    Key(src, if src.Untagged? then r.scope else 0, turn)
  }

  function Pending(r: State, source: Key): nat {
    if source in r.pending then r.pending[source] else 0
  }

  function PutLife(r: State, i: nat, life: Life): State
    requires i < |r.lives|
  {
    r.(lives := r.lives[i := life])
  }

  /** The lifetime takes the source's waiting message, if there is one. */
  function Join(r: State, i: nat, source: Key): State
    requires i < |r.lives|
  {
    PutLife(r, i, r.lives[i].(user := Pending(r, source))).(pending := r.pending - {source})
  }

  function Open(r: State, i: nat, source: Key, id: nat): (r': State)
    requires i < |r.lives|
    ensures r'.now == r.now
  {
    Join(PutLife(r, i, r.lives[i].(opening := id)), i, source).(openings := r.openings[id := i])
  }

  /** Joins the waiting message if asked to, and drops whatever still waits if asked to. */
  function Settle(r: State, i: nat, source: Key, joins: bool, drops: bool): (r': State)
    requires i < |r.lives|
    ensures r'.now == r.now
  {
    var r1 := if joins then Join(r, i, source) else r;
    if drops then r1.(pending := r1.pending - {source}) else r1
  }

  /** The first terminal decides; a message that waited since the opening is joined late. */
  function End(r: State, i: nat, key: Key, id: nat, completed: bool): (r': State)
    requires i < |r.lives|
    ensures r'.now == r.now
  {
    var source, life := key.(turn := ""), r.lives[i];
    if life.terminal != 0 then r
    else
      Settle(PutLife(r, i, life.(terminal := id, completed := completed)), i, source,
             life.opening != 0 && life.user == 0 && Pending(r, source) > life.opening,
             life.opening != 0 && key in r.turns && r.turns[key] == i)
  }

  function RecordText(r: State, i: nat, id: nat, hasText: bool): (r': State)
    requires i < |r.lives|
    ensures r'.now == r.now
  {
    var r1 := r.(text := r.text[id := i]);
    if hasText then PutLife(r1, i, r1.lives[i].(deltas := r1.lives[i].deltas + [id])) else r1
  }

  function Work(r: State, i: nat, source: Key, id: nat, kind: Kind): (r': State)
    requires i < |r.lives|
    ensures r'.now == r.now
  {
    var r1 := Settle(r, i, source, r.lives[i].user == 0 && r.lives[i].terminal == 0, false);
    if kind.Delta? then RecordText(r1, i, id, kind.hasText) else r1
  }

  function Terminal(kind: Kind): bool {
    kind == TurnEnd || kind == Interrupted
  }

  /** The lifetime of the key, a new one for an opening or an unknown key. */
  function Select(r: State, key: Key, kind: Kind): State {
    if key in r.turns && kind != Opened then r
    else r.(lives := r.lives + [Life(key, 0, 0, 0, false, [])], turns := r.turns[key := |r.lives|])
  }

  /** An interruption that names its opening ends exactly that lifetime, if source and turn agree. */
  function FeedReferenced(r: State, key: Key, id: nat, opening: nat): (r': State)
    requires TurnsOk(r)
    ensures r'.now == r.now
  {
    if opening !in r.openings then r
    else
      var i := r.openings[opening];
      var known := r.lives[i].key;
      if known.src != key.src || known.turn != key.turn then r else End(r, i, key, id, false)
  }

  /** Any other fact acts on its key's lifetime. */
  function FeedSelected(r: State, key: Key, id: nat, kind: Kind): (r': State)
    requires TurnsOk(r) && key in r.turns
    ensures r'.now == r.now
  {
    var i, source := r.turns[key], key.(turn := "");
    if Terminal(kind) then End(r, i, key, id, kind == TurnEnd)
    else Work(if r.lives[i].opening == 0 then Open(r, i, source, id) else r, i, source, id, kind)
  }

  function FeedMain(r: State, id: nat, fact: Fact): (r': State)
    requires fact.Main? && TurnsOk(r)
    ensures r'.now == r.now
  {
    var key := KeyOf(r, fact.src, fact.turn);
    if fact.kind == Interrupted && fact.opening != 0 then FeedReferenced(r, key, id, fact.opening)
    else FeedSelected(Select(r, key, fact.kind), key, id, fact.kind)
  }

  /** Boundaries and user messages. */
  function FeedOther(r: State, id: nat, fact: Fact): (r': State)
    ensures r'.now == r.now
  {
    match fact
    case Boundary(restart, logical) =>
      r.(scope := if restart then r.scope else r.scope + 1, pending := if logical then map[] else r.pending)
    case UserMessage(src) =>
      var source := KeyOf(r, src, "");
      r.(pending := r.pending[source := id], heard := r.heard[id := source])
    case _ => r
  }

  function Feed(r: State, e: Entry): (r': State)
    requires TurnsOk(r)
    ensures r'.now == e.id + 1
  {
    var r1 := r.(now := e.id + 1);
    if e.fact.Main? then FeedMain(r1, e.id, e.fact) else FeedOther(r1, e.id, e.fact)
  }

  lemma StampKeepsTurns(r: State, now: nat)
    requires TurnsOk(r)
    ensures TurnsOk(r.(now := now))
  {
  }

  // ---------------------------------------------------------------- invariant

  predicate TurnsOk(r: State) {
    && (forall k :: k in r.turns ==> r.turns[k] < |r.lives| && r.lives[r.turns[k]].key == k)
    && (forall o :: o in r.openings ==> r.openings[o] < |r.lives|)
  }

  predicate LifeOk(r: State, i: nat)
    requires i < |r.lives|
  {
    var life := r.lives[i];
    && (life.opening == 0 ==> life.user == 0)
    && (life.user != 0 ==> life.user in r.heard && r.heard[life.user].src == life.key.src)
    && (forall d :: d in life.deltas ==> d < r.now && d in r.text && r.text[d] == i)
    && (forall a, b :: 0 <= a < b < |life.deltas| ==> life.deltas[a] < life.deltas[b])
  }

  /** Nobody took the message and it waits for nobody else. */
  predicate WaitOk(r: State, s: Key)
    requires s in r.pending
  {
    && r.pending[s] in r.heard && r.heard[r.pending[s]] == s
    && (forall i :: 0 <= i < |r.lives| ==> r.lives[i].user != r.pending[s])
  }

  predicate Apart(r: State, i: nat, j: nat)
    requires i < |r.lives| && j < |r.lives|
  {
    r.lives[i].user == 0 || r.lives[i].user != r.lives[j].user
  }

  ghost predicate Inv(r: State) {
    && TurnsOk(r)
    && (forall m :: m in r.heard ==> 0 < m < r.now)
    && (forall d :: d in r.text ==> d < r.now && r.text[d] < |r.lives|)
    && (forall i :: 0 <= i < |r.lives| ==> LifeOk(r, i))
    && (forall i, j :: 0 <= i < |r.lives| && 0 <= j < |r.lives| && i != j ==> Apart(r, i, j))
    && (forall s :: s in r.pending ==> WaitOk(r, s))
  }

  // ---------------------------------------------------------------- what a step may do

  predicate LifeLater(a: Life, b: Life) {
    && b.key == a.key
    && (a.opening != 0 ==> b.opening == a.opening)
    && (a.user != 0 ==> b.user == a.user)
    && (a.terminal != 0 ==> b.terminal == a.terminal && b.completed == a.completed)
    && a.deltas <= b.deltas
  }

  predicate Waits(r: State, m: nat) {
    exists s :: s in r.pending && r.pending[s] == m
  }

  predicate Joined(r: State, m: nat) {
    exists i :: 0 <= i < |r.lives| && r.lives[i].user == m
  }

  /** Lifetimes only fill in, and only a waiting message is ever joined or kept waiting. */
  ghost predicate Later(r: State, r': State) {
    && |r.lives| <= |r'.lives|
    && (forall i :: 0 <= i < |r.lives| ==> LifeLater(r.lives[i], r'.lives[i]))
    && (forall m :: m in r.heard ==> m in r'.heard && r'.heard[m] == r.heard[m])
    && (forall m :: m in r.heard && !Waits(r, m) ==> !Waits(r', m) && (Joined(r', m) ==> Joined(r, m)))
  }

  /** One lifetime is rewritten without touching its user or its text. */
  lemma PutKeeps(r: State, i: nat, life: Life)
    requires Inv(r) && i < |r.lives|
    requires life.user == r.lives[i].user && life.key == r.lives[i].key && life.deltas == r.lives[i].deltas
    requires life.opening == 0 ==> life.user == 0
    requires r.lives[i].opening != 0 ==> life.opening == r.lives[i].opening
    requires r.lives[i].terminal != 0 ==> life.terminal == r.lives[i].terminal && life.completed == r.lives[i].completed
    ensures Inv(PutLife(r, i, life)) && Later(r, PutLife(r, i, life))
  {
    var r' := PutLife(r, i, life);
    forall j | 0 <= j < |r'.lives| ensures LifeOk(r', j) && r'.lives[j].user == r.lives[j].user {
      assert LifeOk(r, j);
    }
    forall a, b | 0 <= a < |r'.lives| && 0 <= b < |r'.lives| && a != b ensures Apart(r', a, b) {
      assert Apart(r, a, b);
    }
    forall s | s in r'.pending ensures WaitOk(r', s) {
      assert WaitOk(r, s);
    }
    forall m | m in r.heard && !Waits(r, m) ensures !Waits(r', m) && (Joined(r', m) ==> Joined(r, m)) {
      if Joined(r', m) {
        var j :| 0 <= j < |r'.lives| && r'.lives[j].user == m;
        assert r.lives[j].user == m;
      }
    }
  }

  lemma DropKeeps(r: State, source: Key)
    requires Inv(r)
    ensures var r' := r.(pending := r.pending - {source}); Inv(r') && Later(r, r')
  {
    var r' := r.(pending := r.pending - {source});
    forall s | s in r'.pending ensures WaitOk(r', s) {
      assert WaitOk(r, s);
    }
    forall j | 0 <= j < |r'.lives| ensures LifeOk(r', j) {
      assert LifeOk(r, j);
    }
    forall a, b | 0 <= a < |r'.lives| && 0 <= b < |r'.lives| && a != b ensures Apart(r', a, b) {
      assert Apart(r, a, b);
    }
    forall m | !Waits(r, m) ensures !Waits(r', m) {
    }
  }

  /** A waiting message joins an open lifetime that has none; it then waits no more. */
  lemma JoinKeeps(r: State, i: nat, source: Key)
    requires Inv(r) && i < |r.lives| && r.lives[i].user == 0 && r.lives[i].opening != 0
    requires source.src == r.lives[i].key.src
    ensures Inv(Join(r, i, source)) && Later(r, Join(r, i, source))
  {
    var r', m := Join(r, i, source), Pending(r, source);
    if source in r.pending {
      assert WaitOk(r, source);
      forall s | s in r.pending && s != source ensures r.pending[s] != m {
        assert WaitOk(r, s);
      }
    }
    forall j | 0 <= j < |r'.lives| ensures LifeOk(r', j) {
      assert LifeOk(r, j);
    }
    forall a, b | 0 <= a < |r'.lives| && 0 <= b < |r'.lives| && a != b ensures Apart(r', a, b) {
      assert Apart(r, a, b);
    }
    forall s | s in r'.pending ensures WaitOk(r', s) {
      assert WaitOk(r, s);
    }
    JoinLater(r, i, source);
  }

  lemma JoinLater(r: State, i: nat, source: Key)
    requires i < |r.lives| && r.lives[i].user == 0 && forall m :: m in r.heard ==> 0 < m
    ensures Later(r, Join(r, i, source))
  {
    var r' := Join(r, i, source);
    forall m | m in r.heard && !Waits(r, m) ensures !Waits(r', m) && (Joined(r', m) ==> Joined(r, m)) {
      assert source in r.pending ==> r.pending[source] != m;
      if Joined(r', m) {
        var j :| 0 <= j < |r'.lives| && r'.lives[j].user == m;
        assert r.lives[j].user == m;
      }
    }
  }

  lemma LaterTrans(a: State, b: State, c: State)
    requires Later(a, b) && Later(b, c)
    ensures Later(a, c)
  {
    forall i | 0 <= i < |a.lives| ensures LifeLater(a.lives[i], c.lives[i]) {
      assert LifeLater(a.lives[i], b.lives[i]) && LifeLater(b.lives[i], c.lives[i]);
    }
  }

  function WithNew(r: State, key: Key): State {
    r.(lives := r.lives + [Life(key, 0, 0, 0, false, [])], turns := r.turns[key := |r.lives|])
  }

  lemma NewLater(r: State, key: Key)
    requires forall m :: m in r.heard ==> 0 < m
    ensures Later(r, WithNew(r, key))
  {
    var r' := WithNew(r, key);
    forall m | m in r.heard && !Waits(r, m) ensures !Waits(r', m) && (Joined(r', m) ==> Joined(r, m)) {
      if Joined(r', m) {
        var j :| 0 <= j < |r'.lives| && r'.lives[j].user == m;
        assert j < |r.lives| && r.lives[j].user == m;
      }
    }
  }

  lemma NewKeeps(r: State, key: Key)
    requires Inv(r)
    ensures Inv(WithNew(r, key))
  {
    var r' := WithNew(r, key);
    forall j | 0 <= j < |r'.lives| ensures LifeOk(r', j) {
      if j < |r.lives| {
        assert LifeOk(r, j);
      }
    }
    forall a, b | 0 <= a < |r'.lives| && 0 <= b < |r'.lives| && a != b ensures Apart(r', a, b) {
      if a < |r.lives| && b < |r.lives| {
        assert Apart(r, a, b);
      }
    }
    forall s | s in r'.pending ensures WaitOk(r', s) {
      assert WaitOk(r, s);
    }
  }

  lemma SelectKeeps(r: State, key: Key, kind: Kind)
    requires Inv(r)
    ensures var r' := Select(r, key, kind);
      Inv(r') && Later(r, r') && key in r'.turns
  {
    if !(key in r.turns && kind != Opened) {
      NewKeeps(r, key);
      NewLater(r, key);
    }
  }

  lemma OpenKeeps(r: State, i: nat, source: Key, id: nat)
    requires Inv(r) && i < |r.lives| && r.lives[i].opening == 0 && id > 0 && source.src == r.lives[i].key.src
    ensures Inv(Open(r, i, source, id)) && Later(r, Open(r, i, source, id))
  {
    assert LifeOk(r, i);
    var r1 := PutLife(r, i, r.lives[i].(opening := id));
    PutKeeps(r, i, r.lives[i].(opening := id));
    JoinKeeps(r1, i, source);
    var r2 := Join(r1, i, source);
    LaterTrans(r, r1, r2);
    OpeningsKeep(r2, i, id);
    LaterTrans(r, r2, Open(r, i, source, id));
  }

  lemma OpeningsKeep(r: State, i: nat, id: nat)
    requires Inv(r) && i < |r.lives|
    ensures var r' := r.(openings := r.openings[id := i]); Inv(r') && Later(r, r')
  {
    var r' := r.(openings := r.openings[id := i]);
    forall j | 0 <= j < |r'.lives| ensures LifeOk(r', j) {
      assert LifeOk(r, j);
    }
    forall a, b | 0 <= a < |r'.lives| && 0 <= b < |r'.lives| && a != b ensures Apart(r', a, b) {
      assert Apart(r, a, b);
    }
    forall s | s in r'.pending ensures WaitOk(r', s) {
      assert WaitOk(r, s);
    }
    forall m ensures (Waits(r', m) <==> Waits(r, m)) && (Joined(r', m) <==> Joined(r, m)) {
    }
  }

  lemma LaterSelf(r: State)
    ensures Later(r, r)
  {
  }

  lemma SettleKeeps(r: State, i: nat, source: Key, joins: bool, drops: bool)
    requires Inv(r) && i < |r.lives| && source.src == r.lives[i].key.src
    requires joins ==> r.lives[i].user == 0 && r.lives[i].opening != 0
    ensures Inv(Settle(r, i, source, joins, drops)) && Later(r, Settle(r, i, source, joins, drops))
  {
    LaterSelf(r);
    if joins {
      JoinKeeps(r, i, source);
    }
    var r1 := if joins then Join(r, i, source) else r;
    DropKeeps(r1, source);
    LaterTrans(r, r1, r1.(pending := r1.pending - {source}));
  }

  lemma EndKeeps(r: State, i: nat, key: Key, id: nat, completed: bool)
    requires Inv(r) && i < |r.lives| && key.src == r.lives[i].key.src
    ensures Inv(End(r, i, key, id, completed)) && Later(r, End(r, i, key, id, completed))
  {
    var life, source := r.lives[i], key.(turn := "");
    LaterSelf(r);
    if life.terminal == 0 {
      assert LifeOk(r, i);
      var r1 := PutLife(r, i, life.(terminal := id, completed := completed));
      PutKeeps(r, i, life.(terminal := id, completed := completed));
      var joins := life.opening != 0 && life.user == 0 && Pending(r, source) > life.opening;
      var drops := life.opening != 0 && key in r.turns && r.turns[key] == i;
      SettleKeeps(r1, i, source, joins, drops);
      LaterTrans(r, r1, Settle(r1, i, source, joins, drops));
    }
  }

  lemma TextLife(r: State, r': State, i: nat, id: nat, j: nat)
    requires i < |r.lives| && j < |r.lives| && LifeOk(r, j) && id < r.now && forall d :: d in r.text ==> d < id
    requires r'.now == r.now && r'.heard == r.heard && r'.text == r.text[id := i] && |r'.lives| == |r.lives|
    requires r'.lives[j] == r.lives[j] || (j == i && r'.lives[j] == r.lives[j].(deltas := r.lives[j].deltas + [id]))
    ensures LifeOk(r', j)
  {
    var before, after := r.lives[j].deltas, r'.lives[j].deltas;
    forall d | d in after ensures d < r'.now && d in r'.text && r'.text[d] == j {
      if d !in before {
        assert d == id && j == i;
      }
    }
    forall a, b | 0 <= a < b < |after| ensures after[a] < after[b] {
      assert a < |before| && before[a] in before;
    }
  }

  /** Recording the delta: the newest id goes to the end of its lifetime's list. */
  lemma TextKeeps(r: State, i: nat, id: nat, hasText: bool)
    requires Inv(r) && i < |r.lives| && id < r.now && forall d :: d in r.text ==> d < id
    ensures Inv(RecordText(r, i, id, hasText)) && Later(r, RecordText(r, i, id, hasText))
  {
    var r' := RecordText(r, i, id, hasText);
    forall j | 0 <= j < |r'.lives| ensures LifeOk(r', j) {
      TextLife(r, r', i, id, j);
    }
    forall a, b | 0 <= a < |r'.lives| && 0 <= b < |r'.lives| && a != b ensures Apart(r', a, b) {
      assert Apart(r, a, b);
    }
    forall s | s in r'.pending ensures WaitOk(r', s) {
      assert WaitOk(r, s);
    }
    forall m ensures (Waits(r', m) <==> Waits(r, m)) && (Joined(r', m) ==> Joined(r, m)) {
      if Joined(r', m) {
        var j :| 0 <= j < |r'.lives| && r'.lives[j].user == m;
        assert r.lives[j].user == m;
      }
    }
  }

  lemma WorkKeeps(r: State, i: nat, source: Key, id: nat, kind: Kind)
    requires Inv(r) && i < |r.lives| && r.lives[i].opening != 0 && source.src == r.lives[i].key.src
    requires id < r.now && forall d :: d in r.text ==> d < id
    ensures Inv(Work(r, i, source, id, kind)) && Later(r, Work(r, i, source, id, kind))
  {
    var joins := r.lives[i].user == 0 && r.lives[i].terminal == 0;
    SettleKeeps(r, i, source, joins, false);
    var r1 := Settle(r, i, source, joins, false);
    if kind.Delta? {
      TextKeeps(r1, i, id, kind.hasText);
      LaterTrans(r, r1, Work(r, i, source, id, kind));
    }
  }

  lemma ReferencedKeeps(r: State, key: Key, id: nat, opening: nat)
    requires Inv(r)
    ensures Inv(FeedReferenced(r, key, id, opening)) && Later(r, FeedReferenced(r, key, id, opening))
  {
    LaterSelf(r);
    if opening in r.openings && r.lives[r.openings[opening]].key.src == key.src {
      EndKeeps(r, r.openings[opening], key, id, false);
    }
  }

  lemma SelectedKeeps(r: State, key: Key, id: nat, kind: Kind)
    requires Inv(r) && key in r.turns && 0 < id < r.now && forall d :: d in r.text ==> d < id
    ensures Inv(FeedSelected(r, key, id, kind)) && Later(r, FeedSelected(r, key, id, kind))
  {
    var i, source := r.turns[key], key.(turn := "");
    LaterSelf(r);
    if Terminal(kind) {
      EndKeeps(r, i, key, id, kind == TurnEnd);
    } else {
      if r.lives[i].opening == 0 {
        OpenKeeps(r, i, source, id);
      }
      var r2 := if r.lives[i].opening == 0 then Open(r, i, source, id) else r;
      WorkKeeps(r2, i, source, id, kind);
      LaterTrans(r, r2, Work(r2, i, source, id, kind));
    }
  }

  lemma MainKeeps(r: State, id: nat, fact: Fact)
    requires Inv(r) && fact.Main? && 0 < id < r.now && forall d :: d in r.text ==> d < id
    ensures Inv(FeedMain(r, id, fact)) && Later(r, FeedMain(r, id, fact))
  {
    var key := KeyOf(r, fact.src, fact.turn);
    if fact.kind == Interrupted && fact.opening != 0 {
      ReferencedKeeps(r, key, id, fact.opening);
    } else {
      SelectKeeps(r, key, fact.kind);
      var r1 := Select(r, key, fact.kind);
      SelectedKeeps(r1, key, id, fact.kind);
      LaterTrans(r, r1, FeedSelected(r1, key, id, fact.kind));
    }
  }

  lemma ClockKeeps(r: State, now: nat)
    requires Inv(r) && r.now <= now
    ensures Inv(r.(now := now)) && Later(r, r.(now := now))
  {
    var r' := r.(now := now);
    forall j | 0 <= j < |r'.lives| ensures LifeOk(r', j) {
      assert LifeOk(r, j);
    }
    forall a, b | 0 <= a < |r'.lives| && 0 <= b < |r'.lives| && a != b ensures Apart(r', a, b) {
      assert Apart(r, a, b);
    }
    forall s | s in r'.pending ensures WaitOk(r', s) {
      assert WaitOk(r, s);
    }
    forall m ensures (Waits(r', m) <==> Waits(r, m)) && (Joined(r', m) <==> Joined(r, m)) {
    }
  }

  lemma MessageKeeps(r: State, id: nat, src: Source)
    requires Inv(r) && 0 < id < r.now && id !in r.heard && forall i :: 0 <= i < |r.lives| ==> r.lives[i].user != id
    ensures var source := KeyOf(r, src, "");
      var r' := r.(pending := r.pending[source := id], heard := r.heard[id := source]); Inv(r') && Later(r, r')
  {
    var source := KeyOf(r, src, "");
    var r' := r.(pending := r.pending[source := id], heard := r.heard[id := source]);
    forall j | 0 <= j < |r'.lives| ensures LifeOk(r', j) {
      assert LifeOk(r, j);
    }
    forall a, b | 0 <= a < |r'.lives| && 0 <= b < |r'.lives| && a != b ensures Apart(r', a, b) {
      assert Apart(r, a, b);
    }
    forall s | s in r'.pending ensures WaitOk(r', s) {
      if s != source {
        assert WaitOk(r, s);
      }
    }
    forall m | m in r.heard && !Waits(r, m) ensures !Waits(r', m) && (Joined(r', m) ==> Joined(r, m)) {
      assert forall s :: s in r'.pending && s != source ==> r'.pending[s] != m;
    }
  }

  lemma BoundaryKeeps(r: State, scope: nat, pending: map<Key, nat>)
    requires Inv(r) && (pending == r.pending || pending == map[])
    ensures var r' := r.(scope := scope, pending := pending); Inv(r') && Later(r, r')
  {
    var r' := r.(scope := scope, pending := pending);
    forall j | 0 <= j < |r'.lives| ensures LifeOk(r', j) {
      assert LifeOk(r, j);
    }
    forall a, b | 0 <= a < |r'.lives| && 0 <= b < |r'.lives| && a != b ensures Apart(r', a, b) {
      assert Apart(r, a, b);
    }
    forall s | s in r'.pending ensures WaitOk(r', s) {
      assert WaitOk(r, s);
    }
    forall m | !Waits(r, m) ensures !Waits(r', m) && (Joined(r', m) <==> Joined(r, m)) {
    }
  }

  lemma OtherKeeps(r: State, id: nat, fact: Fact)
    requires Inv(r) && 0 < id < r.now && !fact.Main? && id !in r.heard
    ensures Inv(FeedOther(r, id, fact)) && Later(r, FeedOther(r, id, fact))
  {
    match fact {
      case Boundary(restart, logical) =>
        BoundaryKeeps(r, if restart then r.scope else r.scope + 1, if logical then map[] else r.pending);
      case UserMessage(src) =>
        forall i | 0 <= i < |r.lives| ensures r.lives[i].user != id {
          assert LifeOk(r, i);
        }
        MessageKeeps(r, id, src);
      case Ignored => LaterSelf(r);
    }
  }

  lemma FeedMainSteps(r: State, e: Entry)
    requires Inv(r) && r.now <= e.id && 0 < e.id && e.fact.Main?
    ensures Inv(Feed(r, e)) && Later(r.(now := e.id + 1), Feed(r, e))
  {
    ClockKeeps(r, e.id + 1);
    MainKeeps(r.(now := e.id + 1), e.id, e.fact);
  }

  lemma FeedOtherSteps(r: State, e: Entry)
    requires Inv(r) && r.now <= e.id && 0 < e.id && !e.fact.Main?
    ensures Inv(Feed(r, e)) && Later(r.(now := e.id + 1), Feed(r, e))
  {
    ClockKeeps(r, e.id + 1);
    OtherKeeps(r.(now := e.id + 1), e.id, e.fact);
  }

  lemma FeedKeeps(r: State, e: Entry)
    requires Inv(r) && r.now <= e.id && 0 < e.id
    ensures Inv(Feed(r, e)) && Later(r, Feed(r, e))
  {
    ClockKeeps(r, e.id + 1);
    if e.fact.Main? {
      FeedMainSteps(r, e);
    } else {
      FeedOtherSteps(r, e);
    }
    LaterTrans(r, r.(now := e.id + 1), Feed(r, e));
  }

  // ---------------------------------------------------------------- every history

  predicate Ascending(entries: seq<Entry>, from: nat) {
    && (forall i :: 0 <= i < |entries| ==> from <= entries[i].id && 0 < entries[i].id)
    && (forall i, j :: 0 <= i < j < |entries| ==> entries[i].id < entries[j].id)
  }

  predicate SameEnd(a: Life, b: Life) {
    b.terminal == a.terminal && b.completed == a.completed
  }

  /** No lifetime's ending changed, and no new lifetime has ended. */
  predicate SameEnds(r: State, r': State) {
    && r'.now == r.now && |r.lives| <= |r'.lives|
    && (forall j :: 0 <= j < |r.lives| ==> SameEnd(r.lives[j], r'.lives[j]))
    && (forall j :: |r.lives| <= j < |r'.lives| ==> r'.lives[j].terminal == 0)
  }

  predicate EndedBy(life: Life, id: nat, completed: bool) {
    life.terminal == id && life.completed == completed
  }

  /** A lifetime's ending changed only if it had none, to this entry's; a new lifetime has that ending or none. */
  predicate EndsBy(r: State, r': State, id: nat, completed: bool) {
    && r'.now == r.now && |r.lives| <= |r'.lives|
    && (forall j :: 0 <= j < |r.lives| ==>
          SameEnd(r.lives[j], r'.lives[j]) || (r.lives[j].terminal == 0 && EndedBy(r'.lives[j], id, completed)))
    && (forall j :: |r.lives| <= j < |r'.lives| ==> r'.lives[j].terminal == 0 || EndedBy(r'.lives[j], id, completed))
  }

  lemma SettleEnds(r: State, i: nat, source: Key, joins: bool, drops: bool)
    requires i < |r.lives|
    ensures SameEnds(r, Settle(r, i, source, joins, drops))
  {
  }

  lemma OpenEnds(r: State, i: nat, source: Key, id: nat)
    requires i < |r.lives|
    ensures SameEnds(r, Open(r, i, source, id))
  {
  }

  lemma WorkEnds(r: State, i: nat, source: Key, id: nat, kind: Kind)
    requires i < |r.lives|
    ensures SameEnds(r, Work(r, i, source, id, kind))
  {
    SettleEnds(r, i, source, r.lives[i].user == 0 && r.lives[i].terminal == 0, false);
  }

  lemma EndEnds(r: State, i: nat, key: Key, id: nat, completed: bool)
    requires i < |r.lives|
    ensures EndsBy(r, End(r, i, key, id, completed), id, completed)
  {
    var life, source := r.lives[i], key.(turn := "");
    SettleEnds(PutLife(r, i, life.(terminal := id, completed := completed)), i, source,
               life.opening != 0 && life.user == 0 && Pending(r, source) > life.opening,
               life.opening != 0 && key in r.turns && r.turns[key] == i);
  }

  lemma ReferencedEnds(r: State, key: Key, id: nat, opening: nat)
    requires TurnsOk(r)
    ensures EndsBy(r, FeedReferenced(r, key, id, opening), id, false)
  {
    if opening in r.openings {
      EndEnds(r, r.openings[opening], key, id, false);
    }
  }

  lemma SelectedEnds(r: State, key: Key, id: nat, kind: Kind)
    requires TurnsOk(r) && key in r.turns
    ensures if Terminal(kind) then EndsBy(r, FeedSelected(r, key, id, kind), id, kind == TurnEnd)
            else SameEnds(r, FeedSelected(r, key, id, kind))
  {
    var i, source := r.turns[key], key.(turn := "");
    if Terminal(kind) {
      EndEnds(r, i, key, id, kind == TurnEnd);
    } else {
      OpenEnds(r, i, source, id);
      WorkEnds(if r.lives[i].opening == 0 then Open(r, i, source, id) else r, i, source, id, kind);
    }
  }

  lemma SelectEnds(r: State, key: Key, kind: Kind)
    requires TurnsOk(r)
    ensures SameEnds(r, Select(r, key, kind)) && TurnsOk(Select(r, key, kind)) && key in Select(r, key, kind).turns
  {
    SelectTurns(r, key, kind);
  }

  lemma SelectTurns(r: State, key: Key, kind: Kind)
    requires TurnsOk(r)
    ensures TurnsOk(Select(r, key, kind)) && key in Select(r, key, kind).turns
  {
    if key !in r.turns || kind == Opened {
      var r' := Select(r, key, kind);
      forall k | k in r'.turns ensures r'.turns[k] < |r'.lives| && r'.lives[r'.turns[k]].key == k {
        assert k != key ==> r'.turns[k] == r.turns[k];
      }
    }
  }

  lemma EndsThrough(a: State, b: State, c: State, id: nat, completed: bool)
    requires SameEnds(a, b)
    ensures SameEnds(b, c) ==> SameEnds(a, c)
    ensures EndsBy(b, c, id, completed) ==> EndsBy(a, c, id, completed)
  {
  }

  lemma MainEnds(r: State, id: nat, fact: Fact)
    requires fact.Main? && TurnsOk(r)
    ensures if Terminal(fact.kind) then EndsBy(r, FeedMain(r, id, fact), id, fact.kind == TurnEnd) else SameEnds(r, FeedMain(r, id, fact))
  {
    var key := KeyOf(r, fact.src, fact.turn);
    if fact.kind == Interrupted && fact.opening != 0 {
      ReferencedEnds(r, key, id, fact.opening);
    } else {
      var r1 := Select(r, key, fact.kind);
      SelectEnds(r, key, fact.kind);
      SelectedEnds(r1, key, id, fact.kind);
      EndsThrough(r, r1, FeedSelected(r1, key, id, fact.kind), id, fact.kind == TurnEnd);
    }
  }

  /** The evidence after a stretch of history. */
  ghost function FeedAll(r: State, entries: seq<Entry>): (r': State)
    requires Inv(r) && Ascending(entries, r.now)
    ensures Inv(r') && Later(r, r')
    decreases |entries|
  {
    if entries == [] then (LaterSelf(r); r)
    else
      FeedKeeps(r, entries[0]);
      var r1 := Feed(r, entries[0]);
      var r2 := FeedAll(r1, entries[1..]);
      LaterTrans(r, r1, r2);
      r2
  }

  lemma FeedOneMore(r: State, entries: seq<Entry>, n: nat)
    requires Inv(r) && n < |entries| && Ascending(entries[n..], r.now)
    ensures r.now <= entries[n].id && 0 < entries[n].id && Inv(Feed(r, entries[n])) && Ascending(entries[n + 1..], Feed(r, entries[n]).now)
    ensures FeedAll(r, entries[n..]) == FeedAll(Feed(r, entries[n]), entries[n + 1..])
  {
    assert entries[n..][0] == entries[n] && entries[n..][1..] == entries[n + 1..];
    FeedKeeps(r, entries[n]);
  }

  lemma InitialInv()
    ensures Inv(INITIAL)
  {
  }

  /** In every history a user message is joined to at most one lifetime, and to one of its own source. */
  lemma EachMessageAnsweredOnce(entries: seq<Entry>, i: nat, j: nat)
    requires Ascending(entries, 1)
    ensures Inv(INITIAL)
    ensures var r := FeedAll(INITIAL, entries);
      i < |r.lives| && j < |r.lives| && r.lives[i].user != 0 ==>
        && (r.lives[j].user == r.lives[i].user ==> i == j)
        && r.lives[i].user in r.heard && r.heard[r.lives[i].user].src == r.lives[i].key.src
  {
    InitialInv();
    var r := FeedAll(INITIAL, entries);
    if i < |r.lives| && j < |r.lives| && r.lives[i].user != 0 {
      assert LifeOk(r, i);
      if i != j {
        assert Apart(r, i, j);
      }
    }
  }

  /** Whatever history follows, a lifetime keeps its user message, its opening, its first terminal and that terminal's
      verdict. */
  lemma FirstTerminalDecides(r: State, entries: seq<Entry>, i: nat)
    requires Inv(r) && Ascending(entries, r.now) && i < |r.lives|
    ensures var r' := FeedAll(r, entries);
      && i < |r'.lives|
      && (r.lives[i].user != 0 ==> r'.lives[i].user == r.lives[i].user)
      && (r.lives[i].terminal != 0 ==> r'.lives[i].terminal == r.lives[i].terminal && r'.lives[i].completed == r.lives[i].completed)
  {
    assert LifeLater(r.lives[i], FeedAll(r, entries).lives[i]);
  }

  /** The entry that becomes a lifetime's terminal is its end or interruption, and only an end completes it; this holds of
      a lifetime known before and of one the entry itself created. */
  lemma TerminalIsTheEntry(r: State, e: Entry, i: nat)
    requires Inv(r) && e.id > 0 && i < |Feed(r, e).lives| && Feed(r, e).lives[i].terminal != 0
    requires i < |r.lives| ==> r.lives[i].terminal == 0
    ensures var life := Feed(r, e).lives[i];
      life.terminal == e.id && e.fact.Main? && Terminal(e.fact.kind) && (life.completed <==> e.fact.kind == TurnEnd)
  {
    if e.fact.Main? {
      MainEnds(r.(now := e.id + 1), e.id, e.fact);
    }
  }

  /** A logical replacement ends the waiting: no message heard before it and not yet joined is ever joined. */
  lemma ReplacementEndsWaiting(r: State, e: Entry, entries: seq<Entry>, m: nat)
    requires Inv(r) && r.now <= e.id && 0 < e.id && e.fact.Boundary? && e.fact.logical
    requires m in r.heard && !Joined(r, m) && Ascending(entries, e.id + 1)
    ensures Inv(Feed(r, e)) && Feed(r, e).now == e.id + 1
    ensures !Joined(FeedAll(Feed(r, e), entries), m)
  {
    FeedKeeps(r, e);
    var r1 := Feed(r, e);
    assert r1.lives == r.lives && r1.pending == map[] && m in r1.heard;
    assert !Waits(r1, m) && !Joined(r1, m);
    assert Later(r1, FeedAll(r1, entries));
  }

  // ---------------------------------------------------------------- rows

  /** A folded row; reply marks an assistant message of the main line. */
  datatype Row = Row(id: nat, reply: bool)

  predicate RowsAscend(rows: seq<Row>) {
    && (forall i :: 0 <= i < |rows| ==> 0 < rows[i].id)
    && (forall i, j :: 0 <= i < j < |rows| ==> rows[i].id < rows[j].id)
  }

  /** The row was created by text of lifetime l. */
  predicate RowOf(r: State, row: Row, l: nat) {
    row.reply && row.id in r.text && r.text[row.id] == l
  }

  /** The id of the first row of l at or after position i; 0 if there is none. */
  function NextRow(r: State, rows: seq<Row>, i: nat, l: nat): nat
    requires i <= |rows|
    decreases |rows| - i
  {
    if i == |rows| then 0 else if RowOf(r, rows[i], l) then rows[i].id else NextRow(r, rows, i + 1, l)
  }

  /** Row i's own stretch of ids: from its creation to the next row of the same lifetime. */
  predicate InInterval(r: State, rows: seq<Row>, i: nat, l: nat, d: nat)
    requires i < |rows|
  {
    rows[i].id <= d && (NextRow(r, rows, i + 1, l) == 0 || d < NextRow(r, rows, i + 1, l))
  }

  predicate Exported(r: State, row: Row, l: nat) {
    RowOf(r, row, l) && l < |r.lives| && r.lives[l].completed && r.lives[l].user != 0
  }

  /** d is the largest non-empty delta of l in row i's interval. */
  predicate LastText(r: State, rows: seq<Row>, i: nat, l: nat, d: nat)
    requires i < |rows| && l < |r.lives|
  {
    && d in r.lives[l].deltas && InInterval(r, rows, i, l, d)
    && (forall x :: x in r.lives[l].deltas && InInterval(r, rows, i, l, x) ==> x <= d)
  }

  lemma {:induction false} NextRowBound(r: State, rows: seq<Row>, i: nat, j: nat, l: nat)
    requires RowsAscend(rows) && i <= j < |rows| && RowOf(r, rows[j], l)
    ensures 0 < NextRow(r, rows, i, l) <= rows[j].id
    decreases j - i
  {
    if i < j {
      NextRowBound(r, rows, i + 1, j, l);
    }
  }

  /** The intervals of one lifetime's rows are disjoint: no delta is credited to two rows. */
  lemma IntervalsDisjoint(r: State, rows: seq<Row>, i: nat, j: nat, l: nat, d: nat)
    requires RowsAscend(rows) && i < j < |rows| && RowOf(r, rows[i], l) && RowOf(r, rows[j], l)
    ensures !(InInterval(r, rows, i, l, d) && InInterval(r, rows, j, l, d))
  {
    NextRowBound(r, rows, i + 1, j, l);
  }

  /** Every delta at or after some row of its lifetime lies in the interval of one of that lifetime's rows. */
  lemma {:induction false} DeltaHasRow(r: State, rows: seq<Row>, i: nat, l: nat, d: nat) returns (j: nat)
    requires RowsAscend(rows) && i < |rows| && RowOf(r, rows[i], l) && rows[i].id <= d
    ensures i <= j < |rows| && RowOf(r, rows[j], l) && InInterval(r, rows, j, l, d)
    decreases |rows| - i
  {
    var next := NextRow(r, rows, i + 1, l);
    if next == 0 || d < next {
      j := i;
    } else {
      var k := FindRow(r, rows, i + 1, l);
      j := DeltaHasRow(r, rows, k, l, d);
    }
  }

  lemma {:induction false} FindRow(r: State, rows: seq<Row>, i: nat, l: nat) returns (k: nat)
    requires i <= |rows| && NextRow(r, rows, i, l) != 0
    ensures i <= k < |rows| && RowOf(r, rows[k], l) && rows[k].id == NextRow(r, rows, i, l)
    decreases |rows| - i
  {
    if RowOf(r, rows[i], l) {
      k := i;
    } else {
      k := FindRow(r, rows, i + 1, l);
    }
  }

  // ---------------------------------------------------------------- the evidence object

  /** How many of the sorted deltas lie before the bound. */
  method CountBelow(deltas: seq<nat>, bound: nat) returns (at: nat)
    requires forall a, b :: 0 <= a < b < |deltas| ==> deltas[a] < deltas[b]
    ensures at <= |deltas|
    ensures forall k :: 0 <= k < at ==> deltas[k] < bound
    ensures forall k :: at <= k < |deltas| ==> bound <= deltas[k]
  {
    var hi := |deltas|;
    at := 0;
    while at < hi
      invariant 0 <= at <= hi <= |deltas|
      invariant forall k :: 0 <= k < at ==> deltas[k] < bound
      invariant forall k :: hi <= k < |deltas| ==> bound <= deltas[k]
    {
      var mid := (at + hi) / 2;
      if deltas[mid] < bound {
        at := mid + 1;
      } else {
        hi := mid;
      }
    }
  }

  /** What one exported row must show: its user, and the last delta of its interval if it has one. */
  ghost predicate RowOk(r: State, rows: seq<Row>, i: nat, users: map<nat, nat>, last: map<nat, nat>)
    requires i < |rows|
  {
    && (rows[i].id in users <==> exists l: nat :: Exported(r, rows[i], l))
    && (rows[i].id in last ==> rows[i].id in users)
    && (forall l: nat :: Exported(r, rows[i], l) ==>
          && users[rows[i].id] == r.lives[l].user
          && (rows[i].id in last ==> LastText(r, rows, i, l, last[rows[i].id]))
          && (rows[i].id !in last ==> forall d :: d in r.lives[l].deltas ==> !InInterval(r, rows, i, l, d)))
  }

  lemma RowElsewhere(r: State, rows: seq<Row>, j: nat, users: map<nat, nat>, last: map<nat, nat>, users': map<nat, nat>, last': map<nat, nat>, id: nat)
    requires j < |rows| && rows[j].id != id && RowOk(r, rows, j, users, last)
    requires forall m :: m != id ==> (m in users' <==> m in users) && (m in last' <==> m in last)
    requires forall m :: m != id ==> (m in users ==> users'[m] == users[m]) && (m in last ==> last'[m] == last[m])
    ensures RowOk(r, rows, j, users', last')
  {
  }

  lemma RowHere(r: State, rows: seq<Row>, i: nat, l: nat, d: nat, users: map<nat, nat>, last: map<nat, nat>)
    requires i < |rows| && Exported(r, rows[i], l) && rows[i].id in users && users[rows[i].id] == r.lives[l].user
    requires d != 0 ==> d in r.lives[l].deltas && InInterval(r, rows, i, l, d)
    requires forall x :: x in r.lives[l].deltas && InInterval(r, rows, i, l, x) ==> d != 0 && x <= d
    requires (rows[i].id in last <==> d != 0) && (d != 0 ==> last[rows[i].id] == d)
    ensures RowOk(r, rows, i, users, last)
  {
    forall k: nat | Exported(r, rows[i], k) ensures k == l {
    }
  }

  lemma RowSkipped(r: State, rows: seq<Row>, i: nat, users: map<nat, nat>, last: map<nat, nat>)
    requires i < |rows| && rows[i].id !in users && rows[i].id !in last && forall l: nat :: !Exported(r, rows[i], l)
    ensures RowOk(r, rows, i, users, last)
  {
  }

  class Evidence {
    var scope: nat
    var lives: seq<Life>
    var turns: map<Key, nat>
    var openings: map<nat, nat>
    var pending: map<Key, nat>
    var text: map<nat, nat>
    ghost var heard: map<nat, Key>
    ghost var now: nat

    ghost function View(): State
      reads this
    {
      State(scope, lives, turns, openings, pending, text, heard, now)
    }

    ghost predicate Valid()
      reads this
    {
      Inv(View())
    }

    constructor ()
      ensures Valid() && View() == INITIAL
    {
      scope, lives, turns, openings, pending, text := 0, [], map[], map[], map[], map[];
      heard, now := map[], 1;
      new;
      InitialInv();
    }

    method SourceOf(src: Source, turn: string) returns (key: Key)
      ensures key == KeyOf(View(), src, turn)
    {
      key := Key(src, if src.Untagged? then scope else 0, turn);
    }

    method TakeWaiting(i: nat, source: Key)
      requires i < |lives|
      modifies this`lives, this`pending
      ensures View() == Join(old(View()), i, source)
    {
      lives := lives[i := lives[i].(user := if source in pending then pending[source] else 0)];
      pending := pending - {source};
    }

    method FinishLife(i: nat, key: Key, id: nat, completed: bool)
      requires i < |lives|
      modifies this`lives, this`pending
      ensures View() == End(old(View()), i, key, id, completed)
    {
      var source := key.(turn := "");
      var life := lives[i];
      if life.terminal != 0 {
        return;
      }
      lives := lives[i := life.(terminal := id, completed := completed)];
      if life.opening != 0 && life.user == 0 && source in pending && pending[source] > life.opening {
        TakeWaiting(i, source);
      }
      if life.opening != 0 && key in turns && turns[key] == i {
        pending := pending - {source};
      }
    }

    method AddWork(i: nat, source: Key, id: nat, kind: Kind)
      requires i < |lives|
      modifies this`lives, this`pending, this`text
      ensures View() == Work(old(View()), i, source, id, kind)
    {
      if lives[i].user == 0 && lives[i].terminal == 0 {
        TakeWaiting(i, source);
      }
      if kind.Delta? {
        text := text[id := i];
        if kind.hasText {
          lives := lives[i := lives[i].(deltas := lives[i].deltas + [id])];
        }
      }
    }

    method EndReferenced(key: Key, id: nat, opening: nat)
      requires TurnsOk(View())
      modifies this`lives, this`pending
      ensures View() == FeedReferenced(old(View()), key, id, opening)
    {
      if opening in openings {
        var known := lives[openings[opening]].key;
        if known.src == key.src && known.turn == key.turn {
          FinishLife(openings[opening], key, id, false);
        }
      }
    }

    method FeedLife(key: Key, id: nat, kind: Kind)
      requires TurnsOk(View()) && key in turns
      modifies this`lives, this`pending, this`text, this`openings
      ensures View() == FeedSelected(old(View()), key, id, kind)
    {
      var i := turns[key];
      if Terminal(kind) {
        FinishLife(i, key, id, kind == TurnEnd);
        return;
      }
      if lives[i].opening == 0 {
        lives := lives[i := lives[i].(opening := id)];
        openings := openings[id := i];
        TakeWaiting(i, key.(turn := ""));
      }
      AddWork(i, key.(turn := ""), id, kind);
    }

    method FeedFact(id: nat, fact: Fact)
      requires fact.Main? && TurnsOk(View())
      modifies this
      ensures View() == FeedMain(old(View()), id, fact)
    {
      var key := SourceOf(fact.src, fact.turn);
      if fact.kind == Interrupted && fact.opening != 0 {
        EndReferenced(key, id, fact.opening);
        return;
      }
      SelectEnds(View(), key, fact.kind);
      if key !in turns || fact.kind == Opened {
        lives, turns := lives + [Life(key, 0, 0, 0, false, [])], turns[key := |lives|];
      }
      FeedLife(key, id, fact.kind);
    }

    /** feed: the loop over one page of entries. */
    method FeedEntries(entries: seq<Entry>)
      requires Valid() && Ascending(entries, now)
      modifies this
      ensures View() == FeedAll(old(View()), entries) && Valid()
    {
      ghost var r := View();
      for n := 0 to |entries|
        invariant Valid() && Ascending(entries[n..], now)
        invariant FeedAll(View(), entries[n..]) == FeedAll(r, entries)
      {
        var e := entries[n];
        FeedOneMore(View(), entries, n);
        FeedEntry(e);
      }
      assert entries[|entries|..] == [];
    }

    method FeedEntry(e: Entry)
      requires TurnsOk(View())
      modifies this
      ensures View() == Feed(old(View()), e)
    {
      if e.fact.Main? {
        FeedMainEntry(e);
      } else {
        now := e.id + 1;
        FeedNoFact(e);
      }
    }

    method FeedMainEntry(e: Entry)
      requires TurnsOk(View()) && e.fact.Main?
      modifies this
      ensures View() == Feed(old(View()), e)
    {
      ghost var r := View();
      now := e.id + 1;
      assert View() == r.(now := e.id + 1);
      assert TurnsOk(View()) by { StampKeepsTurns(r, e.id + 1); }
      assert Feed(r, e) == FeedMain(View(), e.id, e.fact);
      FeedFact(e.id, e.fact);
    }

    method FeedNoFact(e: Entry)
      requires !e.fact.Main?
      modifies this`scope, this`pending, this`heard
      ensures View() == FeedOther(old(View()), e.id, e.fact)
    {
      match e.fact {
        case Boundary(restart, logical) =>
          if !restart {
            scope := scope + 1;
          }
          if logical {
            pending := map[];
          }
        case UserMessage(src) =>
          var source := SourceOf(src, "");
          pending := pending[source := e.id];
          heard := heard[e.id := source];
        case Ignored =>
      }
    }

    /** One row of the backward pass; end is the next row of the same lifetime. */
    method ExportRow(ghost rows: seq<Row>, ghost i: nat, row: Row, l: nat, end: nat, users: map<nat, nat>, last: map<nat, nat>)
      returns (users': map<nat, nat>, last': map<nat, nat>)
      requires Valid() && RowsAscend(rows) && i < |rows| && rows[i] == row && RowOf(View(), row, l) && l < |lives|
      requires end == NextRow(View(), rows, i + 1, l) && row.id !in users && row.id !in last
      ensures RowOk(View(), rows, i, users', last')
      ensures forall m :: m != row.id ==> (m in users' <==> m in users) && (m in last' <==> m in last)
      ensures forall m :: m != row.id ==> (m in users ==> users'[m] == users[m]) && (m in last ==> last'[m] == last[m])
    {
      users', last' := users, last;
      if !lives[l].completed || lives[l].user == 0 {
        RowSkipped(View(), rows, i, users, last);
        return;
      }
      assert LifeOk(View(), l);
      var d := LastBefore(lives[l].deltas, row.id, end);
      users' := users[row.id := lives[l].user];
      if d != 0 {
        last' := last[row.id := d];
      }
      RowHere(View(), rows, i, l, d, users', last');
    }

    /** rows: one backward pass; next remembers the last row seen of each lifetime. */
    method ExportRows(rows: seq<Row>) returns (users: map<nat, nat>, last: map<nat, nat>)
      requires Valid() && RowsAscend(rows)
      ensures forall i :: 0 <= i < |rows| ==> RowOk(View(), rows, i, users, last)
    {
      users, last := map[], map[];
      var next: map<nat, nat> := map[];
      var i := |rows|;
      while i > 0
        invariant 0 <= i <= |rows|
        invariant forall l: nat :: (if l in next then next[l] else 0) == NextRow(View(), rows, i, l)
        invariant forall m :: m in users || m in last ==> i < |rows| && rows[i].id <= m
        invariant forall j :: i <= j < |rows| ==> RowOk(View(), rows, j, users, last)
      {
        i := i - 1;
        var row := rows[i];
        assert row.id !in users && row.id !in last;
        if row.reply && row.id in text {
          var l := text[row.id];
          var users', last' := ExportRow(rows, i, row, l, if l in next then next[l] else 0, users, last);
          forall j | i < j < |rows| ensures RowOk(View(), rows, j, users', last') {
            RowElsewhere(View(), rows, j, users, last, users', last', row.id);
          }
          users, last := users', last';
          next := next[l := row.id];
        } else {
          RowSkipped(View(), rows, i, users, last);
        }
      }
    }
  }

  /** The largest delta from low up to the bound (0: no bound); 0 when there is none. */
  method LastBefore(deltas: seq<nat>, low: nat, bound: nat) returns (d: nat)
    requires low > 0 && forall a, b :: 0 <= a < b < |deltas| ==> deltas[a] < deltas[b]
    ensures d != 0 ==> d in deltas && low <= d && (bound == 0 || d < bound)
    ensures forall x :: x in deltas && low <= x && (bound == 0 || x < bound) ==> d != 0 && x <= d
  {
    var at := |deltas|;
    if bound != 0 {
      at := CountBelow(deltas, bound);
    }
    d := if at > 0 && deltas[at - 1] >= low then deltas[at - 1] else 0;
  }
}