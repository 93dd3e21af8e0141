/** The turn emitter without its buffers, timers and frame numbers: every event acts at once. The buffered emitter takes in
    and announces exactly what this one does. */
module TurnPlain {
  import opened Common
  import opened Utf8Split
  import opened TurnEmitter

  /** What a source is known by: its open turn, 0 for none, and the lanes and origins handed out. */
  datatype Source = Source(turn: nat, lanes: map<string, nat>, launchers: map<string, nat>, tools: map<string, nat>)

  const UNKNOWN: Source := Source(0, map[], map[], map[])

  /** A source in a running phase. */
  datatype Active = Active(key: Key, phase: Phase)

  /** active lists the running sources, the most recently active last; out is everything taken in or announced. */
  datatype P = P(sources: map<Key, Source>, active: seq<Active>, ids: nat, out: seq<Item>, facts: bool)

  function Of(p: P, k: Key): Source {
    if k in p.sources then p.sources[k] else UNKNOWN
  }

  function Set(p: P, k: Key, source: Source): P {
    p.(sources := p.sources[k := source])
  }

  function Say(p: P, item: Item): P {
    p.(out := p.out + [item])
  }

  function Without(active: seq<Active>, k: Key): seq<Active> {
    if active == [] then []
    else
      var last := active[|active| - 1];
      Without(active[..|active| - 1], k) + if last.key == k then [] else [last]
  }

  /** What a conversation shows: the phase of its most recently active source. */
  function Showing(active: seq<Active>, c: string): Phase {
    if active == [] then Quiet
    else
      var last := active[|active| - 1];
      if last.key.conv == c then last.phase else Showing(active[..|active| - 1], c)
  }

  function Open(p: P, k: Key, minted: bool): (P, bool) {
    if Of(p, k).turn != 0 then (p, true)
    else if !minted then (p, false)
    else
      var p1 := Set(p, k, Of(p, k).(turn := p.ids)).(ids := p.ids + 1);
      (if p.facts then Say(p1, Opened(k.conv, p.ids)) else p1, true)
  }

  /** The lane of a parent, 0 if none could be had. */
  function LaneOf(p: P, k: Key, parent: string, minted: bool): (P, nat) {
    if parent in Of(p, k).lanes then (p, Of(p, k).lanes[parent])
    else if !minted then (p, 0)
    else (Set(p, k, Of(p, k).(lanes := Of(p, k).lanes[parent := p.ids])).(ids := p.ids + 1), p.ids)
  }

  function Turn(p: P, k: Key): nat {
    Of(p, k).turn
  }

  /** The source becomes the most recent of its conversation; a change of what that shows is announced. */
  function Move(p: P, k: Key, phase: Phase): P {
    var p1 := p.(active := Without(p.active, k) + [Active(k, phase)]);
    if Showing(p.active, k.conv) == phase then p1 else Say(p1, PhaseFrame(k.conv, phase))
  }

  /** The turn ends; idle is always announced. */
  function End(p: P, k: Key): P {
    var p1 := Set(p, k, Of(p, k).(turn := 0)).(active := Without(p.active, k));
    var now := Showing(p1.active, k.conv);
    if now != Quiet && now == Showing(p.active, k.conv) then p1 else Say(p1, PhaseFrame(k.conv, now))
  }

  function Show(p: P, k: Key, turn: nat): P {
    Say(p, Frame(k.conv, turn))
  }

  function Note(p: P, k: Key, tool: string, launcher: bool, origin: nat): P {
    var source := Of(p, k);
    if launcher && tool != "" && At(source.launchers, tool) == 0
    then Set(p, k, source.(launchers := source.launchers[tool := origin])) else p
  }

  function Fix(p: P, k: Key, tool: string, origin: nat): P {
    if tool == "" then p else Set(p, k, Of(p, k).(tools := Of(p, k).tools[tool := origin]))
  }

  /** A child's call goes to the origin fixed on first sight: its launcher's turn, or else the parent's lane. */
  function Child(p: P, k: Key, parent: string, tool: string, minted: bool): (P, nat) {
    var known, launched := At(Of(p, k).tools, tool), At(Of(p, k).launchers, parent);
    if known != 0 then (Show(p, k, known), known)
    else if launched != 0 then (Show(Fix(p, k, tool, launched), k, launched), launched)
    else
      var (p1, lane) := LaneOf(p, k, parent, minted);
      if lane == 0 then (p1, 0) else (Show(Fix(p1, k, tool, lane), k, lane), lane)
  }

  function OnEvent(p: P, k: Key, ev: Event, mintTurn: bool, mintLane: bool): P {
    match ev
    case Thought(child) =>
      var (p1, ok) := if child then (p, false) else Open(p, k, mintTurn);
      if ok then Move(p1, k, Thinking) else p1
    case Progress(child) =>
      var (p1, ok) := if child then (p, false) else Open(p, k, mintTurn);
      if ok then Show(Move(p1, k, Thinking), k, Turn(p1, k)) else p1
    case Text(parent, _, text, _) =>
      if parent == "" then
        var (p1, ok) := Open(p, k, mintTurn);
        if ok then Say(Move(p1, k, Responding), Arrive(k.conv, Turn(p1, k), text)) else p1
      else
        var (p1, lane) := LaneOf(p, k, parent, mintLane);
        if lane == 0 then p1 else Say(p1, Arrive(k.conv, lane, text))
    case ToolStart(parent, tool, launcher) =>
      if parent == "" then
        var (p1, ok) := Open(p, k, mintTurn);
        if ok then Show(Note(Move(p1, k, Responding), k, tool, launcher, Turn(p1, k)), k, Turn(p1, k)) else p1
      else
        var (p1, origin) := Child(p, k, parent, tool, mintLane);
        Note(p1, k, tool, launcher, origin)
    case ToolUpdate(parent, tool) =>
      if parent == "" then
        var (p1, ok) := Open(p, k, mintTurn);
        if ok then Show(Move(p1, k, Responding), k, Turn(p1, k)) else p1
      else Child(p, k, parent, tool, mintLane).0
    case ToolMark(tool) =>
      var origin := At(Of(p, k).tools, tool);
      if origin != 0 then Show(p, k, origin)
      else
        var (p1, ok) := Open(p, k, mintTurn);
        if ok then Show(p1, k, Turn(p1, k)) else p1
    case TurnEnd => if Turn(p, k) == 0 then p else End(Show(p, k, Turn(p, k)), k)
    case Status => Show(p, k, Turn(p, k))
    case Silent => p
  }

  /** The sources close in the given order and are forgotten. */
  function CloseAll(p: P, keys: seq<Key>): P {
    if keys == [] then p
    else
      var k := keys[|keys| - 1];
      var p1 := CloseAll(p, keys[..|keys| - 1]);
      Set(if Turn(p1, k) != 0 then End(p1, k) else p1, k, UNKNOWN)
  }

  function Act(p: P, step: Step): P {
    match step
    case StepHandle(k, ev, _, mintTurn, mintLane) => OnEvent(p, k, ev, mintTurn, mintLane)
    case StepFire(_) => p
    case StepClose(_, keys) => CloseAll(p, keys)
    case StepTick(_) => p
  }

  /** What the steps alone say was taken in and announced. */
  function Plain(facts: bool, steps: seq<Step>): P {
    if steps == [] then P(map[], [], 1, [], facts) else Act(Plain(facts, steps[..|steps| - 1]), steps[|steps| - 1])
  }

  // ---------------------------------------------------------------- how the two correspond

  /** The trace without its deltas. */
  function Undelivered(trace: seq<Item>): seq<Item> {
    if trace == [] then []
    else
      var last := trace[|trace| - 1];
      Undelivered(trace[..|trace| - 1]) + if last.Delta? then [] else [last]
  }

  predicate AlikeLane(st: St, source: Source, parent: string) {
    && (parent in st.lanes <==> parent in source.lanes)
    && (parent in st.lanes ==> source.lanes[parent] == st.lanes[parent].id != 0)
  }

  ghost predicate Alike(st: St, source: Source) {
    && source.turn == TurnId(st) && (st.main.Some? ==> source.turn != 0)
    && (forall parent {:trigger AlikeLane(st, source, parent)} :: AlikeLane(st, source, parent))
    && source.launchers == st.launchers && source.tools == st.childTools
  }

  predicate ActiveOk(e: E, a: Active) {
    Running(Get(e, a.key)) && Get(e, a.key).phase == a.phase && Get(e, a.key).order <= e.order
  }

  predicate Earlier(e: E, a: Active, b: Active) {
    Get(e, a.key).order < Get(e, b.key).order
  }

  predicate Listed(active: seq<Active>, k: Key) {
    exists i :: 0 <= i < |active| && active[i].key == k
  }

  /** active lists exactly the running sources in the order of their last activity. */
  ghost predicate Recent(e: E, active: seq<Active>) {
    && (forall i {:trigger ActiveOk(e, active[i])} :: 0 <= i < |active| ==> ActiveOk(e, active[i]))
    && (forall i, j {:trigger Earlier(e, active[i], active[j])} :: 0 <= i < j < |active| ==> Earlier(e, active[i], active[j]))
    && (forall k {:trigger Listed(active, k)} :: Running(Get(e, k)) ==> Listed(active, k))
  }

  ghost predicate Same(e: E, p: P) {
    && p.ids == e.ids && 0 < e.ids && p.facts == e.facts && p.out == Undelivered(e.trace)
    && (forall k {:trigger Of(p, k)} {:trigger Get(e, k)} :: Alike(Get(e, k), Of(p, k)))
    && Recent(e, p.active)
  }

  // ---------------------------------------------------------------- what is shown

  lemma {:induction false} ShowingAt(active: seq<Active>, c: string) returns (i: int)
    ensures -1 <= i < |active| && forall j :: i < j < |active| ==> active[j].key.conv != c
    ensures if i < 0 then Showing(active, c) == Quiet else active[i].key.conv == c && Showing(active, c) == active[i].phase
  {
    if active == [] {
      i := -1;
    } else if active[|active| - 1].key.conv == c {
      i := |active| - 1;
    } else {
      i := ShowingAt(active[..|active| - 1], c);
    }
  }

  lemma ShownIs(e: E, active: seq<Active>, c: string)
    requires Recent(e, active)
    ensures Projected(e.turns, c) == Showing(active, c)
  {
    var i := ShowingAt(active, c);
    forall k | k in e.turns && k.conv == c && Running(e.turns[k])
      ensures i >= 0 && (k == active[i].key || e.turns[k].order < Get(e, active[i].key).order)
    {
      assert Running(Get(e, k)) && Listed(active, k);
      var m :| 0 <= m < |active| && active[m].key == k;
      assert m < i ==> Earlier(e, active[m], active[i]);
    }
    if i >= 0 {
      assert ActiveOk(e, active[i]);
      assert Latest(e.turns, c, active[i].key);
      forall k | Latest(e.turns, c, k) ensures e.turns[k].phase == active[i].phase {
        assert Running(e.turns[k]);
      }
    }
  }

  lemma {:induction false} WithoutIs(active: seq<Active>, k: Key, a: Active)
    ensures a in Without(active, k) <==> a in active && a.key != k
  {
    if active != [] {
      WithoutIs(active[..|active| - 1], k, a);
      assert active == active[..|active| - 1] + [active[|active| - 1]];
    }
  }

  lemma {:induction false} WithoutRecent(e: E, active: seq<Active>, k: Key)
    requires forall i, j {:trigger Earlier(e, active[i], active[j])} :: 0 <= i < j < |active| ==> Earlier(e, active[i], active[j])
    ensures var rest := Without(active, k);
      forall i, j {:trigger Earlier(e, rest[i], rest[j])} :: 0 <= i < j < |rest| ==> Earlier(e, rest[i], rest[j])
  {
    if active != [] {
      var front, last := active[..|active| - 1], active[|active| - 1];
      forall i, j | 0 <= i < j < |front| ensures Earlier(e, front[i], front[j]) {
        assert Earlier(e, active[i], active[j]);
      }
      WithoutRecent(e, front, k);
      var rest := Without(active, k);
      forall i, j | 0 <= i < j < |rest| ensures Earlier(e, rest[i], rest[j]) {
        if j == |Without(front, k)| {
          WithoutIs(front, k, rest[i]);
          var m :| 0 <= m < |front| && front[m] == rest[i];
          assert Earlier(e, active[m], active[|front|]);
        } else {
          assert Earlier(e, Without(front, k)[i], Without(front, k)[j]);
        }
      }
    }
  }

  // ---------------------------------------------------------------- buffering is invisible

  predicate LooksLane(st: St, st': St, parent: string) {
    && (parent in st.lanes <==> parent in st'.lanes)
    && (parent in st.lanes ==> st'.lanes[parent].id == st.lanes[parent].id)
  }

  /** The same source apart from its buffer and its frame numbers. */
  ghost predicate Looks(st: St, st': St) {
    && (st.main.Some? <==> st'.main.Some?) && TurnId(st') == TurnId(st)
    && (Running(st) <==> Running(st')) && (Running(st) ==> st'.phase == st.phase && st'.order == st.order)
    && (forall parent {:trigger LooksLane(st, st', parent)} :: LooksLane(st, st', parent))
    && st'.launchers == st.launchers && st'.childTools == st.childTools
  }

  ghost predicate Unseen(e: E, e': E) {
    && e'.ids == e.ids && e'.facts == e.facts && e'.order == e.order && Undelivered(e'.trace) == Undelivered(e.trace)
    && (forall k {:trigger Get(e', k)} :: Looks(Get(e, k), Get(e', k)))
  }

  lemma UnseenSame(e: E, e': E, p: P)
    requires Same(e, p) && Unseen(e, e')
    ensures Same(e', p)
  {
    forall k ensures Alike(Get(e', k), Of(p, k)) {
      var st, st' := Get(e, k), Get(e', k);
      assert Looks(st, st') && Alike(st, Of(p, k));
      forall parent ensures AlikeLane(st', Of(p, k), parent) {
        assert AlikeLane(st, Of(p, k), parent) && LooksLane(st, st', parent);
      }
    }
    forall i | 0 <= i < |p.active| ensures ActiveOk(e', p.active[i]) {
      assert ActiveOk(e, p.active[i]) && Looks(Get(e, p.active[i].key), Get(e', p.active[i].key));
    }
    forall i, j | 0 <= i < j < |p.active| ensures Earlier(e', p.active[i], p.active[j]) {
      assert Earlier(e, p.active[i], p.active[j]) && ActiveOk(e, p.active[i]) && ActiveOk(e, p.active[j]);
      assert Looks(Get(e, p.active[i].key), Get(e', p.active[i].key)) && Looks(Get(e, p.active[j].key), Get(e', p.active[j].key));
    }
    forall k | Running(Get(e', k)) ensures Listed(p.active, k) {
      assert Looks(Get(e, k), Get(e', k));
    }
  }

  lemma UnseenTrans(a: E, b: E, c: E)
    requires Unseen(a, b) && Unseen(b, c)
    ensures Unseen(a, c)
  {
    forall k ensures Looks(Get(a, k), Get(c, k)) {
      assert Looks(Get(a, k), Get(b, k)) && Looks(Get(b, k), Get(c, k));
      forall parent ensures LooksLane(Get(a, k), Get(c, k), parent) {
        assert LooksLane(Get(a, k), Get(b, k), parent) && LooksLane(Get(b, k), Get(c, k), parent);
      }
    }
  }

  lemma LooksSelf(st: St)
    ensures Looks(st, st)
  {
  }

  lemma {:induction false} UndeliveredConcat(a: seq<Item>, b: seq<Item>)
    ensures Undelivered(a + b) == Undelivered(a) + Undelivered(b)
  {
    if b == [] {
      assert a + b == a;
    } else {
      UndeliveredConcat(a, b[..|b| - 1]);
      assert (a + b)[..|a + b| - 1] == a + b[..|b| - 1];
    }
  }

  lemma {:induction false} DeltasUndelivered(conv: string, lane: nat, n: nat, parts: seq<Bytes>)
    ensures Undelivered(Deltas(conv, lane, n, parts)) == []
    decreases |parts|
  {
    if parts != [] {
      DeltasUndelivered(conv, lane, n + 1, parts[1..]);
      assert Undelivered([Delta(conv, lane, n, parts[0])]) == [];
      UndeliveredConcat([Delta(conv, lane, n, parts[0])], Deltas(conv, lane, n + 1, parts[1..]));
    }
  }

  lemma PutUnseen(e: E, k: Key, st: St, trace: seq<Item>, timer: Option<nat>)
    requires Looks(Get(e, k), st) && Undelivered(trace) == Undelivered(e.trace)
    ensures Unseen(e, Put(e, k, st).(trace := trace, timer := timer))
  {
    var e' := Put(e, k, st).(trace := trace, timer := timer);
    forall j ensures Looks(Get(e, j), Get(e', j)) {
      if j != k {
        assert Get(e', j) == Get(e, j);
        LooksSelf(Get(e, j));
      }
    }
  }

  lemma AdvanceLooks(st: St, parent: string, n: nat)
    ensures Looks(st, Advance(st, parent, n)) && Looks(st, Cleared(Advance(st, parent, n))) && Looks(st, Cleared(st))
  {
  }

  lemma SentUndelivered(trace: seq<Item>, conv: string, lane: Lane, text: Bytes)
    ensures Undelivered(Sent(trace, conv, lane, text)) == Undelivered(trace)
  {
    var parts := Split(text, MAX_DELTA_TEXT_BYTES);
    DeltasUndelivered(conv, lane.id, lane.next, parts);
    UndeliveredConcat(trace, Deltas(conv, lane.id, lane.next, parts));
  }

  lemma SendUnseen(e: E, k: Key, parent: string, text: Bytes)
    ensures Unseen(e, Send(e, k, parent, text))
  {
    var lane := LaneAt(Get(e, k), parent);
    if lane.Some? {
      var n := |Split(text, MAX_DELTA_TEXT_BYTES)|;
      SentUndelivered(e.trace, k.conv, lane.value, text);
      AdvanceLooks(Get(e, k), parent, n);
      PutUnseen(e, k, Advance(Get(e, k), parent, n), Sent(e.trace, k.conv, lane.value, text), e.timer);
    } else {
      LooksAll(e);
    }
  }

  lemma LooksAll(e: E)
    ensures Unseen(e, e)
  {
  }

  lemma ClearUnseen(e: E, k: Key)
    ensures var e' := Put(e, k, Cleared(Get(e, k))); Unseen(e, e') && Unseen(e, e'.(timer := None))
  {
    AdvanceLooks(Get(e, k), "", 0);
    PutUnseen(e, k, Cleared(Get(e, k)), e.trace, e.timer);
    PutUnseen(e, k, Cleared(Get(e, k)), e.trace, None);
  }

  lemma FlushUnseen(e: E, k: Key)
    ensures Unseen(e, Flush(e, k))
  {
    var st := Get(e, k);
    if st.buf != [] {
      var e1 := Send(e, k, st.parent, st.buf);
      SendUnseen(e, k, st.parent, st.buf);
      ClearUnseen(e1, k);
      UnseenTrans(e, e1, Flush(e, k));
    } else {
      LooksAll(e);
    }
  }

  lemma ReleaseUnseen(e: E, k: Key)
    ensures Unseen(e, Release(e, k))
  {
  }

  lemma {:induction false} FlushEachUnseen(e: E, keys: seq<Key>)
    ensures Unseen(e, FlushEach(e, keys))
  {
    if keys != [] {
      var n := |keys| - 1;
      var e1 := FlushEach(e, keys[..n]);
      FlushEachUnseen(e, keys[..n]);
      if Buffered(e1, keys[n]) {
        FlushUnseen(e1, keys[n]);
        ReleaseUnseen(Flush(e1, keys[n]), keys[n]);
        UnseenTrans(e, e1, Flush(e1, keys[n]));
        UnseenTrans(e, Flush(e1, keys[n]), FlushEach(e, keys));
      }
    }
  }

  // ---------------------------------------------------------------- the operations correspond

  lemma SaySame(e: E, p: P, item: Item)
    requires Same(e, p) && !item.Delta?
    ensures Same(Log(e, item), Say(p, item))
  {
    var e' := Log(e, item);
    Snoc(e.trace, item);
    forall k ensures Get(e', k) == Get(e, k) && Of(Say(p, item), k) == Of(p, k) {
    }
    forall i | 0 <= i < |p.active| ensures ActiveOk(e', p.active[i]) {
      assert ActiveOk(e, p.active[i]);
    }
    forall i, j | 0 <= i < j < |p.active| ensures Earlier(e', p.active[i], p.active[j]) {
      assert Earlier(e, p.active[i], p.active[j]);
    }
  }

  /** One source changes without running or stopping. */
  lemma PutSame(e: E, p: P, k: Key, st: St, source: Source)
    requires Same(e, p) && Alike(st, source)
    requires Running(st) <==> Running(Get(e, k))
    requires Running(st) ==> st.phase == Get(e, k).phase && st.order == Get(e, k).order
    ensures Same(Put(e, k, st), Set(p, k, source))
  {
    var e', p' := Put(e, k, st), Set(p, k, source);
    forall j ensures Alike(Get(e', j), Of(p', j)) {
      assert j != k ==> Get(e', j) == Get(e, j) && Of(p', j) == Of(p, j);
    }
    forall i | 0 <= i < |p.active| ensures ActiveOk(e', p.active[i]) {
      assert ActiveOk(e, p.active[i]);
    }
    forall i, j | 0 <= i < j < |p.active| ensures Earlier(e', p.active[i], p.active[j]) {
      assert Earlier(e, p.active[i], p.active[j]) && ActiveOk(e, p.active[i]) && ActiveOk(e, p.active[j]);
    }
    forall j | Running(Get(e', j)) ensures Listed(p.active, j) {
      assert Running(Get(e, j));
    }
  }

  lemma MintSame(e: E, p: P)
    requires Same(e, p)
    ensures Same(e.(ids := e.ids + 1), p.(ids := p.ids + 1))
  {
    var e', p' := e.(ids := e.ids + 1), p.(ids := p.ids + 1);
    forall k ensures Get(e', k) == Get(e, k) && Of(p', k) == Of(p, k) {
    }
    forall i | 0 <= i < |p.active| ensures ActiveOk(e', p.active[i]) {
      assert ActiveOk(e, p.active[i]);
    }
    forall i, j | 0 <= i < j < |p.active| ensures Earlier(e', p.active[i], p.active[j]) {
      assert Earlier(e, p.active[i], p.active[j]);
    }
  }

  lemma OpenSame(e: E, p: P, k: Key, minted: bool)
    requires Same(e, p)
    ensures var (e', ok), (p', ok') := StartTurn(e, k, minted), Open(p, k, minted);
      ok == ok' && Same(e', p') && (ok ==> Get(e', k).main.Some?)
  {
    assert Alike(Get(e, k), Of(p, k));
    if Get(e, k).main.None? && minted {
      var st, source := Get(e, k).(main := Some(Lane(e.ids, 0)), phase := Quiet), Of(p, k).(turn := p.ids);
      forall parent ensures AlikeLane(st, source, parent) {
        assert AlikeLane(Get(e, k), Of(p, k), parent);
      }
      PutSame(e, p, k, st, source);
      MintSame(Put(e, k, st), Set(p, k, source));
      if e.facts {
        SaySame(Put(e, k, st).(ids := e.ids + 1), Set(p, k, source).(ids := p.ids + 1), Opened(k.conv, e.ids));
      }
    }
  }

  lemma LaneSame(e: E, p: P, k: Key, parent: string, minted: bool)
    requires Same(e, p) && parent != ""
    ensures var (e', ok), (p', lane) := EnsureLane(e, k, parent, minted), LaneOf(p, k, parent, minted);
      && (ok <==> lane != 0) && Same(e', p')
      && (ok ==> LaneAt(Get(e', k), parent).Some? && LaneAt(Get(e', k), parent).value.id == lane)
  {
    assert Alike(Get(e, k), Of(p, k)) && AlikeLane(Get(e, k), Of(p, k), parent);
    if parent !in Get(e, k).lanes && minted {
      var st := Get(e, k).(lanes := Get(e, k).lanes[parent := Lane(e.ids, 0)]);
      var source := Of(p, k).(lanes := Of(p, k).lanes[parent := p.ids]);
      forall q ensures AlikeLane(st, source, q) {
        assert AlikeLane(Get(e, k), Of(p, k), q);
      }
      PutSame(e, p, k, st, source);
      MintSame(Put(e, k, st), Set(p, k, source));
    }
  }

  /** A source that stops leaves the list. */
  lemma StoppedRecent(e: E, active: seq<Active>, k: Key, st: St)
    requires Recent(e, active) && !Running(st)
    ensures Recent(Put(e, k, st), Without(active, k))
  {
    var e', rest := Put(e, k, st), Without(active, k);
    WithoutRecent(e, active, k);
    forall i | 0 <= i < |rest| ensures ActiveOk(e', rest[i]) && rest[i].key != k {
      WithoutIs(active, k, rest[i]);
      var m :| 0 <= m < |active| && active[m] == rest[i];
      assert ActiveOk(e, active[m]);
    }
    forall i, j | 0 <= i < j < |rest| ensures Earlier(e', rest[i], rest[j]) {
      assert Earlier(e, rest[i], rest[j]) && ActiveOk(e', rest[i]) && ActiveOk(e', rest[j]);
    }
    forall j | Running(Get(e', j)) ensures Listed(rest, j) {
      assert Get(e', j) == Get(e, j) && Listed(active, j);
      var m :| 0 <= m < |active| && active[m].key == j;
      WithoutIs(active, k, active[m]);
    }
  }

  /** A source that acts moves to the end of it. */
  lemma MovedRecent(e: E, active: seq<Active>, k: Key, phase: Phase)
    requires Recent(e, active) && Get(e, k).main.Some? && phase != Quiet
    ensures Recent(Activated(e, k, phase), Without(active, k) + [Active(k, phase)])
  {
    var e' := Activated(e, k, phase);
    var rest, active' := Without(active, k), Without(active, k) + [Active(k, phase)];
    var idle := Put(e, k, Get(e, k).(phase := Quiet));
    StoppedRecent(e, active, k, Get(e, k).(phase := Quiet));
    forall i | 0 <= i < |active'| ensures ActiveOk(e', active'[i]) && (i < |rest| ==> active'[i].key != k) {
      if i < |rest| {
        assert ActiveOk(idle, rest[i]);
      }
    }
    forall i, j | 0 <= i < j < |active'| ensures Earlier(e', active'[i], active'[j]) {
      assert ActiveOk(idle, rest[i]);
      if j < |rest| {
        assert Earlier(idle, rest[i], rest[j]) && ActiveOk(idle, rest[j]);
      }
    }
    forall j | Running(Get(e', j)) ensures Listed(active', j) {
      if j == k {
        assert active'[|rest|].key == k;
      } else {
        assert Get(e', j) == Get(idle, j) && Listed(rest, j);
        var m :| 0 <= m < |rest| && rest[m].key == j;
        assert active'[m].key == j;
      }
    }
  }

  lemma SnapSame(e: E, p: P, snap: map<string, Phase>)
    requires Same(e, p)
    ensures Same(e.(snap := snap), p)
  {
    LooksAll(e);
    var e' := e.(snap := snap);
    forall k ensures Looks(Get(e, k), Get(e', k)) {
      LooksSelf(Get(e, k));
    }
    UnseenSame(e, e', p);
  }

  lemma AnnounceSame(e: E, p: P, c: string, previous: Phase)
    requires Same(e, p)
    ensures var now := Showing(p.active, c);
      Same(Announce(e, c, previous), if now != Quiet && now == previous then p else Say(p, PhaseFrame(c, now)))
  {
    var now := Showing(p.active, c);
    ShownIs(e, p.active, c);
    var snap := if now == Quiet then e.snap - {c} else e.snap[c := now];
    SnapSame(e, p, snap);
    SaySame(e.(snap := snap), p, PhaseFrame(c, now));
  }

  /** One source and the recency list change together. */
  lemma RephaseSame(e: E, p: P, p': P, k: Key, st: St, order: nat)
    requires Same(e, p) && p'.ids == p.ids && p'.facts == p.facts && p'.out == p.out
    requires forall j {:trigger Of(p', j)} :: j != k ==> Of(p', j) == Of(p, j)
    requires Alike(st, Of(p', k)) && Recent(Put(e, k, st).(order := order), p'.active)
    ensures Same(Put(e, k, st).(order := order), p')
  {
    var e' := Put(e, k, st).(order := order);
    forall j ensures Alike(Get(e', j), Of(p', j)) {
      if j != k {
        assert Get(e', j) == Get(e, j) && Alike(Get(e, j), Of(p, j));
      }
    }
  }

  lemma AlikeRephased(st: St, st': St, source: Source)
    requires Alike(st, source) && st'.main == st.main && st'.lanes == st.lanes
    requires st'.launchers == st.launchers && st'.childTools == st.childTools
    ensures Alike(st', source)
  {
    forall parent ensures AlikeLane(st', source, parent) {
      assert AlikeLane(st, source, parent);
    }
  }

  lemma MoveSame(e: E, p: P, k: Key, phase: Phase)
    requires Same(e, p) && Get(e, k).main.Some? && phase != Quiet
    ensures Same(Activate(e, k, phase), Move(p, k, phase))
    ensures Get(Activate(e, k, phase), k) == Get(e, k).(phase := phase, order := e.order + 1)
  {
    var active := Without(p.active, k) + [Active(k, phase)];
    var st, p1 := Get(e, k).(phase := phase, order := e.order + 1), p.(active := active);
    AlikeRephased(Get(e, k), st, Of(p, k));
    MovedRecent(e, p.active, k, phase);
    RephaseSame(e, p, p1, k, st, e.order + 1);
    ShownIs(e, p.active, k.conv);
    AnnounceSame(Activated(e, k, phase), p1, k.conv, Projected(e.turns, k.conv));
  }

  lemma EndSame(e: E, p: P, k: Key)
    requires Same(e, p)
    ensures Same(EndTurn(e, k), End(p, k)) && Get(EndTurn(e, k), k).main == None
  {
    var st := Get(e, k).(main := None, phase := Quiet, order := 0);
    var p1 := Set(p, k, Of(p, k).(turn := 0)).(active := Without(p.active, k));
    forall parent ensures AlikeLane(st, Of(p1, k), parent) {
      assert AlikeLane(Get(e, k), Of(p, k), parent);
    }
    StoppedRecent(e, p.active, k, st);
    RephaseSame(e, p, p1, k, st, e.order);
    ShownIs(e, p.active, k.conv);
    AnnounceSame(Put(e, k, st), p1, k.conv, Projected(e.turns, k.conv));
  }

  lemma NoteSame(e: E, p: P, k: Key, tool: string, launcher: bool, origin: nat)
    requires Same(e, p)
    ensures Same(Remember(e, k, tool, launcher, origin), Note(p, k, tool, launcher, origin))
    ensures Get(Remember(e, k, tool, launcher, origin), k).main == Get(e, k).main
  {
    var st, source := Get(e, k), Of(p, k);
    assert Alike(st, source);
    if launcher && tool != "" && At(source.launchers, tool) == 0 {
      var st', source' := st.(launchers := st.launchers[tool := origin]), source.(launchers := source.launchers[tool := origin]);
      forall parent ensures AlikeLane(st', source', parent) {
        assert AlikeLane(st, source, parent);
      }
      PutSame(e, p, k, st', source');
    }
  }

  lemma FixSame(e: E, p: P, k: Key, tool: string, origin: nat)
    requires Same(e, p)
    ensures Same(if tool == "" then e else Put(e, k, Get(e, k).(childTools := Get(e, k).childTools[tool := origin])), Fix(p, k, tool, origin))
  {
    var st, source := Get(e, k), Of(p, k);
    assert Alike(st, source);
    var st', source' := st.(childTools := st.childTools[tool := origin]), source.(tools := source.tools[tool := origin]);
    forall parent ensures AlikeLane(st', source', parent) {
      assert AlikeLane(st, source, parent);
    }
    if tool != "" {
      PutSame(e, p, k, st', source');
    }
  }

  lemma FlushShowSame(e: E, p: P, k: Key, turn: nat)
    requires Same(e, p)
    ensures Same(EmitFrame(Flush(e, k), k, turn), Show(p, k, turn))
  {
    FlushUnseen(e, k);
    UnseenSame(e, Flush(e, k), p);
    SaySame(Flush(e, k), p, Frame(k.conv, turn));
  }

  lemma ChildSame(e: E, p: P, k: Key, parent: string, tool: string, minted: bool)
    requires Same(e, p) && parent != ""
    ensures var (e', origin), (p', origin') := ChildTool(e, k, parent, tool, minted), Child(p, k, parent, tool, minted);
      origin == origin' && Same(e', p')
  {
    assert Alike(Get(e, k), Of(p, k));
    var known, launched := At(Of(p, k).tools, tool), At(Of(p, k).launchers, parent);
    if known != 0 {
      FlushShowSame(e, p, k, known);
    } else if launched != 0 {
      FixSame(e, p, k, tool, launched);
      FlushShowSame(FixedOrigin(e, k, parent, tool, minted).0, Fix(p, k, tool, launched), k, launched);
    } else {
      LaneSame(e, p, k, parent, minted);
      var (e1, ok) := EnsureLane(e, k, parent, minted);
      var (p1, lane) := LaneOf(p, k, parent, minted);
      if ok {
        FixSame(e1, p1, k, tool, lane);
        FlushShowSame(FixedOrigin(e, k, parent, tool, minted).0, Fix(p1, k, tool, lane), k, lane);
      }
    }
  }

  lemma FlushSame(e: E, p: P, k: Key)
    requires Same(e, p)
    ensures Same(Flush(e, k), p) && Looks(Get(e, k), Get(Flush(e, k), k))
  {
    FlushUnseen(e, k);
    UnseenSame(e, Flush(e, k), p);
  }

  // ---------------------------------------------------------------- every event corresponds

  lemma TakeSame(e: E, p: P, k: Key, parent: string, msg: string, text: Bytes)
    requires Same(e, p) && LaneAt(Get(e, k), parent).Some?
    ensures Same(Take(e, k, parent, msg, text), Say(p, Arrive(k.conv, LaneAt(Get(e, k), parent).value.id, text)))
  {
    var st := Get(e, k);
    var st' := st.(buf := st.buf + text, msg := msg, parent := parent, since := if st.buf == [] then e.clock else st.since);
    var timer := if st.buf == [] && !AnyBuffered(e.turns) then Some(e.clock + WINDOW) else e.timer;
    var e1 := Put(e, k, st').(timer := timer);
    LooksSelf(st);
    PutUnseen(e, k, st', e.trace, timer);
    assert e1 == Put(e, k, st').(trace := e.trace, timer := timer);
    UnseenSame(e, e1, p);
    SaySame(e1, p, Arrive(k.conv, LaneAt(st, parent).value.id, text));
  }

  lemma CompletedSame(e: E, p: P, k: Key, parent: string, text: Bytes)
    requires Same(e, p) && LaneAt(Get(e, k), parent).Some?
    ensures Same(Completed(e, k, parent, text), Say(p, Arrive(k.conv, LaneAt(Get(e, k), parent).value.id, text)))
  {
    var item := Arrive(k.conv, LaneAt(Get(e, k), parent).value.id, text);
    SaySame(e, p, item);
    SendUnseen(Log(e, item), k, parent, text);
    UnseenSame(Log(e, item), Send(Log(e, item), k, parent, text), Say(p, item));
  }

  /** A turn is open, what was held is sent and the phase announced. */
  lemma OpenMoveSame(e: E, p: P, k: Key, minted: bool, phase: Phase)
    requires Same(e, p) && phase != Quiet && StartTurn(e, k, minted).1
    ensures Open(p, k, minted).1
    ensures var e2, p2 := Activate(Flush(StartTurn(e, k, minted).0, k), k, phase), Move(Open(p, k, minted).0, k, phase);
      Same(e2, p2) && Get(e2, k).main.Some? && TurnId(Get(e2, k)) == Turn(p2, k) == Turn(Open(p, k, minted).0, k)
  {
    OpenSame(e, p, k, minted);
    var (e1, ok) := StartTurn(e, k, minted);
    var (p1, ok') := Open(p, k, minted);
    FlushSame(e1, p1, k);
    MoveSame(Flush(e1, k), p1, k, phase);
    assert Alike(Get(Activate(Flush(e1, k), k, phase), k), Of(Move(p1, k, phase), k));
  }

  lemma ThinkSame(e: E, p: P, k: Key, ev: Event, mintTurn: bool, mintLane: bool)
    requires Same(e, p) && (ev.Thought? || ev.Progress?)
    ensures Same(HandleEvent(e, k, ev, mintTurn, mintLane), OnEvent(p, k, ev, mintTurn, mintLane))
  {
    if !ev.child {
      OpenSame(e, p, k, mintTurn);
      if StartTurn(e, k, mintTurn).1 {
        OpenMoveSame(e, p, k, mintTurn, Thinking);
        var e2 := Activate(Flush(StartTurn(e, k, mintTurn).0, k), k, Thinking);
        SaySame(e2, Move(Open(p, k, mintTurn).0, k, Thinking), Frame(k.conv, TurnId(Get(e2, k))));
      }
    }
  }

  lemma MainToolSame(e: E, p: P, k: Key, ev: Event, mintTurn: bool, mintLane: bool)
    requires Same(e, p) && (ev.ToolStart? || ev.ToolUpdate?) && ev.parent == ""
    ensures Same(HandleEvent(e, k, ev, mintTurn, mintLane), OnEvent(p, k, ev, mintTurn, mintLane))
  {
    OpenSame(e, p, k, mintTurn);
    if StartTurn(e, k, mintTurn).1 {
      OpenMoveSame(e, p, k, mintTurn, Responding);
      var e2, p2 := Activate(Flush(StartTurn(e, k, mintTurn).0, k), k, Responding), Move(Open(p, k, mintTurn).0, k, Responding);
      var turn := TurnId(Get(e2, k));
      if ev.ToolStart? {
        NoteSame(e2, p2, k, ev.tool, ev.launcher, turn);
        SaySame(Remember(e2, k, ev.tool, ev.launcher, turn), Note(p2, k, ev.tool, ev.launcher, turn), Frame(k.conv, turn));
      } else {
        SaySame(e2, p2, Frame(k.conv, turn));
      }
    }
  }

  lemma ChildToolSame(e: E, p: P, k: Key, ev: Event, mintTurn: bool, mintLane: bool)
    requires Same(e, p) && (ev.ToolStart? || ev.ToolUpdate?) && ev.parent != ""
    ensures Same(HandleEvent(e, k, ev, mintTurn, mintLane), OnEvent(p, k, ev, mintTurn, mintLane))
  {
    ChildSame(e, p, k, ev.parent, ev.tool, mintLane);
    if ev.ToolStart? {
      var (e1, origin) := ChildTool(e, k, ev.parent, ev.tool, mintLane);
      var (p1, origin') := Child(p, k, ev.parent, ev.tool, mintLane);
      NoteSame(e1, p1, k, ev.tool, ev.launcher, origin);
    }
  }

  lemma MarkSame(e: E, p: P, k: Key, tool: string, mintTurn: bool, mintLane: bool)
    requires Same(e, p)
    ensures Same(HandleEvent(e, k, ToolMark(tool), mintTurn, mintLane), OnEvent(p, k, ToolMark(tool), mintTurn, mintLane))
  {
    assert Alike(Get(e, k), Of(p, k));
    var origin := At(Of(p, k).tools, tool);
    if origin != 0 {
      FlushShowSame(e, p, k, origin);
    } else {
      OpenSame(e, p, k, mintTurn);
      var (e1, ok) := StartTurn(e, k, mintTurn);
      var (p1, ok') := Open(p, k, mintTurn);
      assert Alike(Get(e1, k), Of(p1, k));
      if ok {
        FlushShowSame(e1, p1, k, Turn(p1, k));
      }
    }
  }

  lemma EndArmSame(e: E, p: P, k: Key)
    requires Same(e, p)
    ensures Same(FrameAndEnd(e, k), if Turn(p, k) == 0 then p else End(Show(p, k, Turn(p, k)), k))
  {
    assert Alike(Get(e, k), Of(p, k));
    if Get(e, k).main.Some? {
      FlushShowSame(e, p, k, Turn(p, k));
      EndSame(EmitFrame(Flush(e, k), k, Turn(p, k)), Show(p, k, Turn(p, k)), k);
    }
  }

  lemma BoundedSame(e: E, p: P, k: Key, ev: Event)
    requires Same(e, p) && ev.Text?
    ensures Same(Bounded(e, k, ev), p) && Looks(Get(e, k), Get(Bounded(e, k, ev), k))
  {
    FlushSame(e, p, k);
    LooksSelf(Get(e, k));
  }

  lemma MainTextSame(e: E, p: P, k: Key, ev: Event, mintTurn: bool, mintLane: bool)
    requires Same(e, p) && ev.Text? && ev.parent == ""
    ensures Same(HandleText(e, k, ev, mintTurn, mintLane), OnEvent(p, k, ev, mintTurn, mintLane))
  {
    OpenSame(e, p, k, mintTurn);
    var (e1, ok) := StartTurn(e, k, mintTurn);
    var (p1, ok') := Open(p, k, mintTurn);
    if ok {
      BoundedSame(e1, p1, k, ev);
      var e2 := Bounded(e1, k, ev);
      assert Alike(Get(e2, k), Of(p1, k));
      MoveSame(e2, p1, k, Responding);
      TakeSame(Activate(e2, k, Responding), Move(p1, k, Responding), k, "", ev.msg, ev.text);
    }
  }

  lemma ChildTextSame(e: E, p: P, k: Key, ev: Event, mintTurn: bool, mintLane: bool)
    requires Same(e, p) && ev.Text? && ev.parent != ""
    ensures Same(HandleText(e, k, ev, mintTurn, mintLane), OnEvent(p, k, ev, mintTurn, mintLane))
  {
    var e1 := if ev.complete then Flush(e, k) else Bounded(e, k, ev);
    FlushSame(e, p, k);
    BoundedSame(e, p, k, ev);
    LaneSame(e1, p, k, ev.parent, mintLane);
    var (e2, ok) := EnsureLane(e1, k, ev.parent, mintLane);
    var (p2, lane) := LaneOf(p, k, ev.parent, mintLane);
    if ok && ev.complete {
      CompletedSame(e2, p2, k, ev.parent, ev.text);
    } else if ok {
      TakeSame(e2, p2, k, ev.parent, ev.msg, ev.text);
    }
  }

  /** Every event takes in and announces the same with a buffer as without. */
  lemma EventSame(e: E, p: P, k: Key, ev: Event, mintTurn: bool, mintLane: bool)
    requires Same(e, p)
    ensures Same(HandleEvent(e, k, ev, mintTurn, mintLane), OnEvent(p, k, ev, mintTurn, mintLane))
  {
    match ev {
      case Thought(_) => ThinkSame(e, p, k, ev, mintTurn, mintLane);
      case Progress(_) => ThinkSame(e, p, k, ev, mintTurn, mintLane);
      case Text(parent, _, _, _) =>
        if parent == "" {
          MainTextSame(e, p, k, ev, mintTurn, mintLane);
        } else {
          ChildTextSame(e, p, k, ev, mintTurn, mintLane);
        }
      case ToolStart(parent, _, _) =>
        if parent == "" {
          MainToolSame(e, p, k, ev, mintTurn, mintLane);
        } else {
          ChildToolSame(e, p, k, ev, mintTurn, mintLane);
        }
      case ToolUpdate(parent, _) =>
        if parent == "" {
          MainToolSame(e, p, k, ev, mintTurn, mintLane);
        } else {
          ChildToolSame(e, p, k, ev, mintTurn, mintLane);
        }
      case ToolMark(tool) => MarkSame(e, p, k, tool, mintTurn, mintLane);
      case TurnEnd => EndArmSame(e, p, k);
      case Status =>
        assert Alike(Get(e, k), Of(p, k));
        FlushShowSame(e, p, k, Turn(p, k));
      case Silent =>
    }
  }

  lemma {:induction false} CloseSame(e: E, p: P, keys: seq<Key>)
    requires Same(e, p)
    ensures Same(CloseEach(e, keys), CloseAll(p, keys))
  {
    if keys != [] {
      CloseSame(e, p, keys[..|keys| - 1]);
      CloseOneSame(CloseEach(e, keys[..|keys| - 1]), CloseAll(p, keys[..|keys| - 1]), keys[|keys| - 1]);
    }
  }

  lemma CloseOneSame(e: E, p: P, k: Key)
    requires Same(e, p)
    ensures Same(CloseOne(e, k), Set(if Turn(p, k) != 0 then End(p, k) else p, k, UNKNOWN))
  {
    var e1 := Flush(e, k);
    FlushSame(e, p, k);
    assert Alike(Get(e1, k), Of(p, k));
    EndSame(e1, p, k);
    var e2, p2 := if Get(e1, k).main.Some? then EndTurn(e1, k) else e1, if Turn(p, k) != 0 then End(p, k) else p;
    assert Alike(Get(e2, k), Of(p2, k));
    var st := Get(e2, k).(lanes := map[], launchers := map[], childTools := map[]);
    PutSame(e2, p2, k, st, UNKNOWN);
    ReleaseUnseen(Put(e2, k, st), k);
    UnseenSame(Put(e2, k, st), CloseOne(e, k), Set(p2, k, UNKNOWN));
  }

  lemma HandleSame(e: E, p: P, k: Key, ev: Event, visit: seq<Key>, mintTurn: bool, mintLane: bool)
    requires Same(e, p)
    ensures Same(Handle(e, k, ev, visit, mintTurn, mintLane), OnEvent(p, k, ev, mintTurn, mintLane))
  {
    var e1 := FlushEach(e, visit);
    FlushEachUnseen(e, visit);
    UnseenSame(e, e1, p);
    var e2 := if k in e1.turns then e1 else Put(e1, k, BLANK);
    LooksSelf(Get(e1, k));
    PutUnseen(e1, k, Get(e1, k), e1.trace, e1.timer);
    assert k !in e1.turns ==> e2 == Put(e1, k, Get(e1, k)).(trace := e1.trace, timer := e1.timer);
    UnseenSame(e1, e2, p) by { LooksAll(e1); }
    EventSame(e2, p, k, ev, mintTurn, mintLane);
    var e3, p3 := HandleEvent(e2, k, ev, mintTurn, mintLane), OnEvent(p, k, ev, mintTurn, mintLane);
    ReleaseUnseen(e3, k);
    UnseenSame(e3, Release(e3, k), p3);
  }

  lemma StepSame(e: E, p: P, step: Step)
    requires Same(e, p) && Enabled(e, step)
    ensures Same(Apply(e, step), Act(p, step))
  {
    match step {
      case StepHandle(k, ev, visit, mintTurn, mintLane) => HandleSame(e, p, k, ev, visit, mintTurn, mintLane);
      case StepFire(visit) =>
        FlushEachUnseen(e, visit);
        UnseenSame(e, FlushEach(e, visit), p);
        OtherwiseSame(FlushEach(e, visit), p, None, e.clock);
      case StepClose(_, keys) => CloseSame(e, p, keys);
      case StepTick(elapsed) => OtherwiseSame(e, p, e.timer, e.clock + elapsed);
    }
  }

  lemma OtherwiseSame(e: E, p: P, timer: Option<nat>, clock: nat)
    requires Same(e, p)
    ensures Same(e.(timer := timer), p) && Same(e.(clock := clock), p)
  {
    forall k ensures Get(e.(timer := timer), k) == Get(e, k) && Get(e.(clock := clock), k) == Get(e, k) {
      LooksSelf(Get(e, k));
    }
    UnseenSame(e, e.(timer := timer), p);
    UnseenSame(e, e.(clock := clock), p);
  }

  // ---------------------------------------------------------------- theorems over every run

  /** Each step visits the sources that are there when it is taken. */
  ghost predicate Possible(facts: bool, steps: seq<Step>) {
    forall i {:trigger steps[..i]} :: 0 <= i < |steps| ==> Enabled(Run(facts, steps[..i]), steps[i])
  }

  lemma {:induction false} RunSame(facts: bool, steps: seq<Step>)
    requires Possible(facts, steps)
    ensures Same(Run(facts, steps), Plain(facts, steps))
  {
    if steps != [] {
      var n := |steps| - 1;
      forall i | 0 <= i < n ensures Enabled(Run(facts, steps[..n][..i]), steps[..n][i]) {
        assert steps[..n][..i] == steps[..i];
      }
      RunSame(facts, steps[..n]);
      StepSame(Run(facts, steps[..n]), Plain(facts, steps[..n]), steps[n]);
    }
  }

  /** Over every run, what was taken in and what was announced is what the steps alone say, item by item and in order: no
      chunk is lost, doubled or put on another lane, no frame or phase missing, repeated or invented, whatever is
      buffered, flushed, released or cut. */
  lemma TakesInWhatStepsSay(facts: bool, steps: seq<Step>)
    requires Possible(facts, steps)
    ensures Undelivered(Run(facts, steps).trace) == Plain(facts, steps).out
  {
    RunSame(facts, steps);
  }

  lemma {:induction false} UndeliveredArrived(trace: seq<Item>, c: string)
    ensures Arrived(Undelivered(trace), c) == Arrived(trace, c)
  {
    if trace != [] {
      var n := |trace| - 1;
      UndeliveredArrived(trace[..n], c);
      TraceSnoc(Undelivered(trace[..n]), trace[n], c, 0);
      assert Undelivered(trace) == if trace[n].Delta? then Undelivered(trace[..n]) else Undelivered(trace[..n]) + [trace[n]];
    }
  }

  /** Over every run, the text sent, followed by the text held, is the text of the events that found their turn and lane. */
  lemma TextIsWhatStepsSay(facts: bool, steps: seq<Step>, k: Key)
    requires Possible(facts, steps)
    ensures var e, said := Run(facts, steps), Arrived(Plain(facts, steps).out, k.conv);
      && (k in e.turns && e.turns[k].buf != [] ==> Emitted(e.trace, k.conv) + Held(e.turns[k]) == said)
      && (NoHolder(e.turns, k.conv) <==> Emitted(e.trace, k.conv) == said)
  {
    RunSame(facts, steps);
    UndeliveredArrived(Run(facts, steps).trace, k.conv);
    if k in Run(facts, steps).turns && Run(facts, steps).turns[k].buf != [] {
      TextIsExact(facts, steps, k.conv, k);
    }
    NoTextHeldBack(facts, steps, k.conv);
  }

  /** The snapshot shows what the steps alone say: the phase of the source that acted last and has not ended. */
  lemma SnapshotIsWhatStepsSay(facts: bool, steps: seq<Step>, c: string)
    requires Possible(facts, steps)
    ensures Shown(Run(facts, steps).snap, c) == Showing(Plain(facts, steps).active, c)
  {
    RunSame(facts, steps);
    RunGood(facts, steps);
    ShownIs(Run(facts, steps), Plain(facts, steps).active, c);
  }

  // ---------------------------------------------------------------- what a conversation's clients see

  datatype Piece = Char(lane: nat, value: Byte) | Mark(item: Item)

  function Chars(text: seq<(nat, Byte)>): seq<Piece> {
    seq(|text|, i requires 0 <= i < |text| => Char(text[i].0, text[i].1))
  }

  predicate Marks(item: Item, c: string) {
    (item.Frame? || item.PhaseFrame?) && item.conv == c
  }

  /** The frames of a conversation with the text in its deltas spelled out. */
  function Seen(trace: seq<Item>, c: string): seq<Piece> {
    if trace == [] then []
    else
      var last := trace[|trace| - 1];
      Seen(trace[..|trace| - 1], c)
      + if Marks(last, c) then [Mark(last)] else if last.Delta? && last.conv == c then Chars(Label(last.lane, last.text)) else []
  }

  /** The same frames with the text that was taken in. */
  function Said(trace: seq<Item>, c: string): seq<Piece> {
    if trace == [] then []
    else
      var last := trace[|trace| - 1];
      Said(trace[..|trace| - 1], c)
      + if Marks(last, c) then [Mark(last)] else if last.Arrive? && last.conv == c then Chars(Label(last.lane, last.text)) else []
  }

  /** What a conversation's clients had seen at its last frame, and how much text that was. */
  function AtMark(trace: seq<Item>, c: string): (seq<Piece>, nat) {
    if trace == [] then ([], 0)
    else if Marks(trace[|trace| - 1], c) then (Seen(trace, c), |Emitted(trace, c)|)
    else AtMark(trace[..|trace| - 1], c)
  }

  lemma CharsConcat(a: seq<(nat, Byte)>, b: seq<(nat, Byte)>, n: nat)
    requires n <= |a|
    ensures Chars((a + b)[n..]) == Chars(a[n..]) + Chars(b)
  {
    assert (a + b)[n..] == a[n..] + b;
  }

  predicate Since(trace: seq<Item>, c: string) {
    var (front, n) := AtMark(trace, c);
    && n <= |Emitted(trace, c)| && n <= |Arrived(trace, c)|
    && Seen(trace, c) == front + Chars(Emitted(trace, c)[n..])
    && Said(trace, c) == front + Chars(Arrived(trace, c)[n..])
  }

  lemma SinceText(trace: seq<Item>, c: string)
    requires trace != [] && Since(trace[..|trace| - 1], c) && !Marks(trace[|trace| - 1], c)
    ensures Since(trace, c)
  {
    var before, last := trace[..|trace| - 1], trace[|trace| - 1];
    var (front, n) := AtMark(before, c);
    if last.Delta? && last.conv == c {
      CharsConcat(Emitted(before, c), Label(last.lane, last.text), n);
    } else if last.Arrive? && last.conv == c {
      CharsConcat(Arrived(before, c), Label(last.lane, last.text), n);
    }
  }

  lemma SinceFrame(trace: seq<Item>, c: string)
    requires trace != [] && Since(trace[..|trace| - 1], c) && Marks(trace[|trace| - 1], c)
    requires Settled(trace[..|trace| - 1], c)
    ensures Since(trace, c)
  {
    var before := trace[..|trace| - 1];
    assert Emitted(trace, c) == Emitted(before, c) && Arrived(trace, c) == Arrived(before, c);
    assert Chars(Emitted(trace, c)[|Emitted(trace, c)|..]) == [];
  }

  lemma {:induction false} SinceMark(trace: seq<Item>, c: string)
    requires InOrder(trace)
    ensures Since(trace, c)
  {
    if trace != [] {
      SinceMark(trace[..|trace| - 1], c);
      if Marks(trace[|trace| - 1], c) {
        SinceFrame(trace, c);
      } else {
        SinceText(trace, c);
      }
    }
  }

  lemma {:induction false} UndeliveredSaid(trace: seq<Item>, c: string)
    ensures Said(Undelivered(trace), c) == Said(trace, c)
  {
    if trace != [] {
      var n := |trace| - 1;
      UndeliveredSaid(trace[..n], c);
      if trace[n].Delta? {
        assert Undelivered(trace) == Undelivered(trace[..n]);
      } else {
        Snoc(Undelivered(trace[..n]), trace[n]);
        assert Undelivered(trace) == Undelivered(trace[..n]) + [trace[n]];
      }
    }
  }

  /** No closing of the run meets the failing case of CloseInOrderIff. */
  ghost predicate Orderly(facts: bool, steps: seq<Step>) {
    forall i {:trigger steps[..i]} :: 0 <= i < |steps| ==> ClosesInOrder(Run(facts, steps[..i]), steps[i])
  }

  lemma {:induction false} OrderlyRun(facts: bool, steps: seq<Step>)
    requires Orderly(facts, steps)
    ensures InOrder(Run(facts, steps).trace)
  {
    if steps == [] {
      InitialGood(facts);
    } else {
      var n := |steps| - 1;
      forall i | 0 <= i < n ensures ClosesInOrder(Run(facts, steps[..n][..i]), steps[..n][i]) {
        assert steps[..n][..i] == steps[..i];
      }
      OrderlyRun(facts, steps[..n]);
      RunGood(facts, steps[..n]);
      StepInOrder(Run(facts, steps[..n]), steps[n]);
    }
  }

  lemma SeenAndHeld(trace: seq<Item>, c: string, held: seq<(nat, Byte)>)
    requires InOrder(trace) && Arrived(trace, c) == Emitted(trace, c) + held
    ensures Said(Undelivered(trace), c) == Seen(trace, c) + Chars(held)
  {
    UndeliveredSaid(trace, c);
    SinceMark(trace, c);
    CharsConcat(Emitted(trace, c), held, AtMark(trace, c).1);
  }

  /** Buffering is invisible: over every run whose closings pass the check of CloseInOrderIff, what a conversation's clients
      see, completed by what is still held, is text and frames in exactly the order in which the unbuffered emitter says
      them. */
  lemma SeesWhatStepsSay(facts: bool, steps: seq<Step>, k: Key)
    requires Possible(facts, steps) && Orderly(facts, steps)
    ensures var e, said := Run(facts, steps), Said(Plain(facts, steps).out, k.conv);
      && (k in e.turns && e.turns[k].buf != [] ==> Seen(e.trace, k.conv) + Chars(Held(e.turns[k])) == said)
      && (NoHolder(e.turns, k.conv) ==> Seen(e.trace, k.conv) == said)
  {
    var e := Run(facts, steps);
    OrderlyRun(facts, steps);
    TakesInWhatStepsSay(facts, steps);
    if k in e.turns && e.turns[k].buf != [] {
      TextIsExact(facts, steps, k.conv, k);
      SeenAndHeld(e.trace, k.conv, Held(e.turns[k]));
    }
    if NoHolder(e.turns, k.conv) {
      NoTextHeldBack(facts, steps, k.conv);
      SeenAndHeld(e.trace, k.conv, []);
      assert Chars([]) == [];
    }
  }
}
