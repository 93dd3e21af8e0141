/** The turn emitter: text coalesced per lane, frames numbered per lane, one phase projected from many producing
    sources, and one shared flush timer. Frames go to a trace; wire mapping and delivery are abstract. */
module TurnEmitter {
  import opened Common
  import opened Utf8Split

  /** A conversation and one of its producing sources. */
  datatype Key = Key(conv: string, src: nat)

  /** A text lane: its minted identity and the number of its next delta. */
  datatype Lane = Lane(id: nat, next: nat)

  datatype Phase = Quiet | Thinking | Responding

  /** What one source retains. main is the open turn. since is the time its oldest unflushed chunk arrived. */
  datatype St = St(
    main: Option<Lane>, phase: Phase, order: nat, lanes: map<string, Lane>,
    launchers: map<string, nat>, childTools: map<string, nat>,
    buf: Bytes, msg: string, parent: string, since: nat)

  const BLANK: St := St(None, Quiet, 0, map[], map[], map[], [], "", "", 0)

  datatype Item =
    | Arrive(conv: string, lane: nat, text: Bytes)              // a chunk taken in
    | Delta(conv: string, lane: nat, number: nat, text: Bytes)     // a frame of assistant text
    | Frame(conv: string, turn: nat)                            // any other content or status frame; 0 is no turn
    | PhaseFrame(conv: string, phase: Phase)                    // Quiet is the idle state
    | Opened(conv: string, turn: nat)                           // the turn-opened record of runtime facts

  datatype E = E(turns: map<Key, St>, order: nat, snap: map<string, Phase>, trace: seq<Item>, ids: nat,
                 timer: Option<nat>, clock: nat, facts: bool)

  const WINDOW: nat := 250

  function Initial(facts: bool): E {
    E(map[], 0, map[], [], 1, None, 0, facts)
  }

  // ---------------------------------------------------------------- the trace

  /** Text with each byte labelled by its lane. */
  function Label(lane: nat, text: Bytes): seq<(nat, Byte)> {
    seq(|text|, i requires 0 <= i < |text| => (lane, text[i]))
  }

  function Emitted(trace: seq<Item>, c: string): seq<(nat, Byte)> {
    if trace == [] then []
    else
      var n := |trace| - 1;
      Emitted(trace[..n], c) + (if trace[n].Delta? && trace[n].conv == c then Label(trace[n].lane, trace[n].text) else [])
  }

  function Arrived(trace: seq<Item>, c: string): seq<(nat, Byte)> {
    if trace == [] then []
    else
      var n := |trace| - 1;
      Arrived(trace[..n], c) + (if trace[n].Arrive? && trace[n].conv == c then Label(trace[n].lane, trace[n].text) else [])
  }

  function Count(trace: seq<Item>, lane: nat): nat {
    if trace == [] then 0
    else
      var n := |trace| - 1;
      Count(trace[..n], lane) + (if trace[n].Delta? && trace[n].lane == lane then 1 else 0)
  }

  predicate ValidArrivals(trace: seq<Item>) {
    trace == [] || (ValidArrivals(trace[..|trace| - 1])
                    && (trace[|trace| - 1].Arrive? ==> ValidUtf8(trace[|trace| - 1].text)))
  }

  /** A delta carries its lane's next number and a non-empty bounded piece of text, cut between characters. */
  predicate DeltaOk(before: seq<Item>, item: Item) {
    item.Delta? ==>
      && item.number == Count(before, item.lane)
      && 0 < |item.text| <= MAX_DELTA_TEXT_BYTES
      && (ValidArrivals(before) ==> ValidUtf8(item.text))
  }

  predicate Numbered(trace: seq<Item>) {
    trace == [] || (Numbered(trace[..|trace| - 1]) && DeltaOk(trace[..|trace| - 1], trace[|trace| - 1]))
  }

  predicate Settled(trace: seq<Item>, c: string) {
    Emitted(trace, c) == Arrived(trace, c)
  }

  /** A frame is in order when all text of its conversation that arrived before it was sent before it. */
  predicate FrameOk(before: seq<Item>, item: Item) {
    item.Frame? || item.PhaseFrame? ==> Settled(before, item.conv)
  }

  predicate InOrder(trace: seq<Item>) {
    trace == [] || (InOrder(trace[..|trace| - 1]) && FrameOk(trace[..|trace| - 1], trace[|trace| - 1]))
  }

  lemma Snoc(trace: seq<Item>, item: Item)
    ensures (trace + [item])[..|trace + [item]| - 1] == trace && (trace + [item])[|trace + [item]| - 1] == item
  {
  }

  lemma TraceSnoc(trace: seq<Item>, item: Item, c: string, lane: nat)
    ensures Emitted(trace + [item], c) == Emitted(trace, c) + (if item.Delta? && item.conv == c then Label(item.lane, item.text) else [])
    ensures Arrived(trace + [item], c) == Arrived(trace, c) + (if item.Arrive? && item.conv == c then Label(item.lane, item.text) else [])
    ensures Count(trace + [item], lane) == Count(trace, lane) + (if item.Delta? && item.lane == lane then 1 else 0)
  {
    Snoc(trace, item);
  }

  lemma GoodSnoc(trace: seq<Item>, item: Item)
    ensures Numbered(trace + [item]) <==> Numbered(trace) && DeltaOk(trace, item)
    ensures InOrder(trace + [item]) <==> InOrder(trace) && FrameOk(trace, item)
    ensures ValidArrivals(trace + [item]) <==> ValidArrivals(trace) && (item.Arrive? ==> ValidUtf8(item.text))
  {
    Snoc(trace, item);
  }

  // ---------------------------------------------------------------- emitting text

  /** One delta per piece, numbered from n. */
  function Deltas(conv: string, lane: nat, n: nat, parts: seq<Bytes>): seq<Item>
    decreases |parts|
  {
    if parts == [] then [] else [Delta(conv, lane, n, parts[0])] + Deltas(conv, lane, n + 1, parts[1..])
  }

  predicate PartsOk(trace: seq<Item>, parts: seq<Bytes>) {
    forall i :: 0 <= i < |parts| ==> 0 < |parts[i]| <= MAX_DELTA_TEXT_BYTES && (ValidArrivals(trace) ==> ValidUtf8(parts[i]))
  }

  lemma LabelConcat(lane: nat, a: Bytes, b: Bytes)
    ensures Label(lane, a + b) == Label(lane, a) + Label(lane, b)
  {
  }

  /** What sending a text does to the trace's measures. */
  ghost predicate Sends(trace: seq<Item>, trace': seq<Item>, conv: string, lane: nat, text: Bytes, pieces: nat) {
    && (forall c :: Emitted(trace', c) == Emitted(trace, c) + (if c == conv then Label(lane, text) else []))
    && (forall c :: Arrived(trace', c) == Arrived(trace, c))
    && (forall l: nat :: Count(trace', l) == Count(trace, l) + (if l == lane then pieces else 0))
    && (ValidArrivals(trace') <==> ValidArrivals(trace))
  }

  lemma SendOne(trace: seq<Item>, d: Item)
    requires d.Delta?
    ensures Sends(trace, trace + [d], d.conv, d.lane, d.text, 1)
  {
    forall c, l: nat
      ensures Emitted(trace + [d], c) == Emitted(trace, c) + (if c == d.conv then Label(d.lane, d.text) else [])
      ensures Arrived(trace + [d], c) == Arrived(trace, c)
      ensures Count(trace + [d], l) == Count(trace, l) + (if l == d.lane then 1 else 0)
    {
      TraceSnoc(trace, d, c, l);
    }
    GoodSnoc(trace, d);
  }

  lemma SendBoth(a: seq<Item>, b: seq<Item>, d: seq<Item>, conv: string, lane: nat, s: Bytes, t: Bytes, m: nat, n: nat)
    requires Sends(a, b, conv, lane, s, m) && Sends(b, d, conv, lane, t, n)
    ensures Sends(a, d, conv, lane, s + t, m + n)
  {
    LabelConcat(lane, s, t);
  }

  lemma DeltasStep(trace: seq<Item>, conv: string, lane: nat, n: nat, head: Bytes, rest: seq<Bytes>)
    ensures trace + Deltas(conv, lane, n, [head] + rest) == trace + [Delta(conv, lane, n, head)] + Deltas(conv, lane, n + 1, rest)
    ensures Join([head] + rest) == head + Join(rest)
  {
    var parts := [head] + rest;
    assert parts[0] == head && parts[1..] == rest;
  }

  lemma SendNone(trace: seq<Item>, conv: string, lane: nat)
    ensures Sends(trace, trace, conv, lane, [], 0)
  {
  }

  lemma {:induction false} SendParts(trace: seq<Item>, conv: string, lane: nat, n: nat, parts: seq<Bytes>)
    ensures Sends(trace, trace + Deltas(conv, lane, n, parts), conv, lane, Join(parts), |parts|)
    decreases |parts|
  {
    if parts == [] {
      assert trace + Deltas(conv, lane, n, parts) == trace;
      SendNone(trace, conv, lane);
    } else {
      var head, rest := parts[0], parts[1..];
      assert parts == [head] + rest;
      var mid := trace + [Delta(conv, lane, n, head)];
      SendOne(trace, Delta(conv, lane, n, head));
      SendParts(mid, conv, lane, n + 1, rest);
      DeltasStep(trace, conv, lane, n, head, rest);
      SendBoth(trace, mid, mid + Deltas(conv, lane, n + 1, rest), conv, lane, head, Join(rest), 1, |rest|);
    }
  }

  lemma NumberHead(trace: seq<Item>, d: Item, lane: nat)
    requires Numbered(trace) && d.Delta? && DeltaOk(trace, d) && d.lane == lane
    ensures Numbered(trace + [d]) && (InOrder(trace) ==> InOrder(trace + [d])) && Count(trace + [d], lane) == Count(trace, lane) + 1
    ensures ValidArrivals(trace + [d]) <==> ValidArrivals(trace)
  {
    GoodSnoc(trace, d);
    TraceSnoc(trace, d, d.conv, lane);
  }

  lemma {:induction false} NumberParts(trace: seq<Item>, conv: string, lane: nat, n: nat, parts: seq<Bytes>)
    requires Numbered(trace) && PartsOk(trace, parts) && n == Count(trace, lane)
    ensures var trace' := trace + Deltas(conv, lane, n, parts);
      Numbered(trace') && (InOrder(trace) ==> InOrder(trace'))
    decreases |parts|
  {
    if parts == [] {
      assert trace + Deltas(conv, lane, n, parts) == trace;
    } else {
      var head, rest := parts[0], parts[1..];
      assert parts == [head] + rest;
      var mid := trace + [Delta(conv, lane, n, head)];
      NumberHead(trace, Delta(conv, lane, n, head), lane);
      NumberParts(mid, conv, lane, n + 1, rest);
      DeltasStep(trace, conv, lane, n, head, rest);
    }
  }

  /** Sending a text through the split. */
  function Sent(trace: seq<Item>, conv: string, lane: Lane, text: Bytes): seq<Item> {
    trace + Deltas(conv, lane.id, lane.next, Split(text, MAX_DELTA_TEXT_BYTES))
  }

  lemma SentOk(trace: seq<Item>, conv: string, lane: Lane, text: Bytes)
    requires Numbered(trace) && lane.next == Count(trace, lane.id)
    requires ValidArrivals(trace) ==> ValidUtf8(text)
    ensures var trace' := Sent(trace, conv, lane, text);
      && Numbered(trace') && (InOrder(trace) ==> InOrder(trace'))
      && Sends(trace, trace', conv, lane.id, text, |Split(text, MAX_DELTA_TEXT_BYTES)|)
  {
    SplitRebuilds(text, MAX_DELTA_TEXT_BYTES);
    if ValidArrivals(trace) {
      SplitKeepsRunes(text, MAX_DELTA_TEXT_BYTES);
    }
    NumberParts(trace, conv, lane.id, lane.next, Split(text, MAX_DELTA_TEXT_BYTES));
    SendParts(trace, conv, lane.id, lane.next, Split(text, MAX_DELTA_TEXT_BYTES));
  }

  // ---------------------------------------------------------------- the emitter's operations

  function Get(e: E, k: Key): St {
    if k in e.turns then e.turns[k] else BLANK
  }

  function Put(e: E, k: Key, st: St): E {
    e.(turns := e.turns[k := st])
  }

  function Log(e: E, item: Item): E {
    e.(trace := e.trace + [item])
  }

  function LaneAt(st: St, parent: string): Option<Lane> {
    if parent == "" then st.main else if parent in st.lanes then Some(st.lanes[parent]) else None
  }

  /** Advances the counter of the addressed lane. */
  function Advance(st: St, parent: string, steps: nat): St {
    if parent == "" then (if st.main.Some? then st.(main := Some(Lane(st.main.value.id, st.main.value.next + steps))) else st)
    else if parent in st.lanes then st.(lanes := st.lanes[parent := Lane(st.lanes[parent].id, st.lanes[parent].next + steps)])
    else st
  }

  predicate Buffered(e: E, k: Key) {
    k in e.turns && e.turns[k].buf != []
  }

  predicate AnyBuffered(turns: map<Key, St>) {
    exists k :: k in turns && turns[k].buf != []
  }

  /** Sends text on the lane of the given parent and advances its counter. */
  function Send(e: E, k: Key, parent: string, text: Bytes): E {
    var lane := LaneAt(Get(e, k), parent);
    if lane.None? then e
    else Put(e, k, Advance(Get(e, k), parent, |Split(text, MAX_DELTA_TEXT_BYTES)|)).(trace := Sent(e.trace, k.conv, lane.value, text))
  }

  /** flushDelta: nothing on an empty buffer. The shared timer stops only when no source holds text. */
  function Flush(e: E, k: Key): E {
    var st := Get(e, k);
    if st.buf == [] then e
    else
      var e1 := Send(e, k, st.parent, st.buf);
      var e2 := Put(e1, k, Get(e1, k).(buf := [], msg := "", parent := ""));
      if AnyBuffered(e2.turns) then e2 else e2.(timer := None)
  }

  /** releaseConversation: forgets a source that retains nothing. */
  function Release(e: E, k: Key): E {
    if k in e.turns && e.turns[k].main.None? && e.turns[k].buf == [] && e.turns[k].lanes == map[]
       && e.turns[k].launchers == map[] && e.turns[k].childTools == map[]
    then e.(turns := e.turns - {k}) else e
  }

  /** Flushes and releases the buffered ones among the listed sources, in that order. */
  function FlushEach(e: E, keys: seq<Key>): E {
    if keys == [] then e
    else
      var n := |keys| - 1;
      var e1 := FlushEach(e, keys[..n]);
      if Buffered(e1, keys[n]) then Release(Flush(e1, keys[n]), keys[n]) else e1
  }

  function Others(e: E, k: Key): set<Key> {
    set j | j in e.turns && j.conv == k.conv && j != k
  }

  /** A listing of a set, as one iteration over a map visits it. */
  ghost predicate Lists(keys: seq<Key>, which: set<Key>) {
    && (forall k :: k in which <==> k in keys)
    && (forall i, j :: 0 <= i < j < |keys| ==> keys[i] != keys[j])
  }

  /** startTurnIfNeeded: a minting failure leaves the turn closed. */
  function StartTurn(e: E, k: Key, minted: bool): (E, bool) {
    if Get(e, k).main.Some? then (e, true)
    else if !minted then (e, false)
    else
      var e1 := Put(e, k, Get(e, k).(main := Some(Lane(e.ids, 0)), phase := Quiet)).(ids := e.ids + 1);
      (if e.facts then Log(e1, Opened(k.conv, e.ids)) else e1, true)
  }

  function EnsureLane(e: E, k: Key, parent: string, minted: bool): (E, bool) {
    if parent == "" || parent in Get(e, k).lanes then (e, true)
    else if !minted then (e, false)
    else (Put(e, k, Get(e, k).(lanes := Get(e, k).lanes[parent := Lane(e.ids, 0)])).(ids := e.ids + 1), true)
  }

  predicate Running(st: St) {
    st.main.Some? && st.phase != Quiet
  }

  /** k is the most recently active source of c with a running phase. */
  predicate Latest(turns: map<Key, St>, c: string, k: Key) {
    && k in turns && k.conv == c && Running(turns[k])
    && (forall j :: j in turns && j.conv == c && Running(turns[j]) ==> turns[j].order <= turns[k].order)
  }

  ghost function Projected(turns: map<Key, St>, c: string): Phase {
    if exists k :: Latest(turns, c, k) then (var k :| Latest(turns, c, k); turns[k].phase) else Quiet
  }

  /** Publishes the projection after a change: an idle projection is always announced, a running one when it differs. */
  function AnnounceAs(e: E, c: string, previous: Phase, now: Phase): E {
    if now == previous && now != Quiet then e
    else Log(e.(snap := if now == Quiet then e.snap - {c} else e.snap[c := now]), PhaseFrame(c, now))
  }

  ghost function Announce(e: E, c: string, previous: Phase): E {
    AnnounceAs(e, c, previous, Projected(e.turns, c))
  }

  /** transitionTo a running phase. */
  ghost function Activate(e: E, k: Key, phase: Phase): E {
    var e1 := Put(e, k, Get(e, k).(phase := phase, order := e.order + 1)).(order := e.order + 1);
    Announce(e1, k.conv, Projected(e.turns, k.conv))
  }

  /** transitionTo idle followed by endTurn. */
  ghost function EndTurn(e: E, k: Key): E {
    var e1 := Put(e, k, Get(e, k).(main := None, phase := Quiet, order := 0));
    Announce(e1, k.conv, Projected(e.turns, k.conv))
  }

  function TurnId(st: St): nat {
    if st.main.Some? then st.main.value.id else 0
  }

  function EmitFrame(e: E, k: Key, turn: nat): E {
    Log(e, Frame(k.conv, turn))
  }

  function Remember(e: E, k: Key, tool: string, launcher: bool, origin: nat): E {
    var st := Get(e, k);
    if !launcher || tool == "" || (tool in st.launchers && st.launchers[tool] != 0) then e
    else Put(e, k, st.(launchers := st.launchers[tool := origin]))
  }

  function At(m: map<string, nat>, key: string): nat {
    if key in m then m[key] else 0
  }

  /** The call's origin is fixed on first sight: its launcher's turn, or a lane of its own. Fails when no lane could be
      minted. */
  function FixedOrigin(e: E, k: Key, parent: string, tool: string, minted: bool): (E, nat, bool) {
    var launched := At(Get(e, k).launchers, parent);
    var (e1, ok) := if launched != 0 then (e, true) else EnsureLane(e, k, parent, minted);
    if !ok then (e1, 0, false)
    else
      var lane := LaneAt(Get(e1, k), parent);
      var origin := if launched != 0 then launched else if lane.Some? then lane.value.id else 0;
      (if tool == "" then e1 else Put(e1, k, Get(e1, k).(childTools := Get(e1, k).childTools[tool := origin])), origin, true)
  }

  /** emitChildTool. */
  function ChildTool(e: E, k: Key, parent: string, tool: string, minted: bool): (E, nat) {
    var known := At(Get(e, k).childTools, tool);
    var (e1, origin, ok) := if known != 0 then (e, known, true) else FixedOrigin(e, k, parent, tool, minted);
    if ok then (EmitFrame(Flush(e1, k), k, origin), origin) else (e1, 0)
  }

  /** Takes a chunk into the buffer; the window starts with the oldest unflushed text of any conversation. */
  function Take(e: E, k: Key, parent: string, msg: string, text: Bytes): E {
    var st := Get(e, k);
    var empty := st.buf == [];
    var alone := empty && !AnyBuffered(e.turns);
    var lane := LaneAt(st, parent);
    var e1 := Put(e, k, st.(buf := st.buf + text, msg := msg, parent := parent, since := if empty then e.clock else st.since));
    Log(if alone then e1.(timer := Some(e.clock + WINDOW)) else e1,
        Arrive(k.conv, if lane.Some? then lane.value.id else 0, text))
  }

  /** A complete child block goes out at once, in as many deltas as its size needs. */
  function Completed(e: E, k: Key, parent: string, text: Bytes): E {
    var lane := LaneAt(Get(e, k), parent);
    Send(Log(e, Arrive(k.conv, if lane.Some? then lane.value.id else 0, text)), k, parent, text)
  }

  datatype Event =
    | Thought(child: bool)
    | Progress(child: bool)                                          // main-thread thinking reading
    | Text(parent: string, msg: string, text: Bytes, complete: bool)
    | ToolStart(parent: string, tool: string, launcher: bool)
    | ToolUpdate(parent: string, tool: string)
    | ToolMark(tool: string)                                         // tool progress or denial
    | TurnEnd
    | Status                                                         // every lifecycle-neutral report
    | Silent                                                         // suggestions and unknown events

  /** A chunk of another lane or message ends what its source holds. */
  function Bounded(e: E, k: Key, ev: Event): E
    requires ev.Text?
  {
    var st := Get(e, k);
    if st.buf != [] && (ev.parent != st.parent || ev.msg != st.msg) then Flush(e, k) else e
  }

  /** The lane, the main phase, then the chunk itself. */
  ghost function PlaceText(e: E, k: Key, ev: Event, mintLane: bool): E
    requires ev.Text?
  {
    var (e1, ok) := EnsureLane(e, k, ev.parent, mintLane);
    if !ok then e1
    else Take(if ev.parent == "" then Activate(e1, k, Responding) else e1, k, ev.parent, ev.msg, ev.text)
  }

  /** The text arm once its turn is open. */
  ghost function AddText(e: E, k: Key, ev: Event, mintLane: bool): E
    requires ev.Text?
  {
    PlaceText(Bounded(e, k, ev), k, ev, mintLane)
  }

  ghost function HandleText(e: E, k: Key, ev: Event, mintTurn: bool, mintLane: bool): E
    requires ev.Text?
  {
    if ev.complete && ev.parent != "" then
      var e1 := Flush(e, k);
      var (e2, ok) := EnsureLane(e1, k, ev.parent, mintLane);
      if !ok then e2 else Completed(e2, k, ev.parent, ev.text)
    else
      var (e1, ok) := if ev.parent == "" then StartTurn(e, k, mintTurn) else (e, true);
      if !ok then e1 else AddText(e1, k, ev, mintLane)
  }

  ghost function FrameAndEnd(e: E, k: Key): E {
    if Get(e, k).main.None? then e else EndTurn(EmitFrame(Flush(e, k), k, TurnId(Get(e, k))), k)
  }

  ghost function HandleEvent(e: E, k: Key, ev: Event, mintTurn: bool, mintLane: bool): E {
    match ev
    case Thought(child) =>
      if child then e
      else
        var (e1, ok) := StartTurn(e, k, mintTurn);
        if ok then Activate(Flush(e1, k), k, Thinking) else e1
    case Progress(child) =>
      if child then e
      else
        var (e1, ok) := StartTurn(e, k, mintTurn);
        if !ok then e1
        else
          var e2 := Activate(Flush(e1, k), k, Thinking);
          EmitFrame(e2, k, TurnId(Get(e2, k)))
    case Text(_, _, _, _) => HandleText(e, k, ev, mintTurn, mintLane)
    case ToolStart(parent, tool, launcher) =>
      if parent != "" then
        var (e1, origin) := ChildTool(e, k, parent, tool, mintLane);
        Remember(e1, k, tool, launcher, origin)
      else
        var (e1, ok) := StartTurn(e, k, mintTurn);
        if !ok then e1
        else
          var e2 := Activate(Flush(e1, k), k, Responding);
          EmitFrame(Remember(e2, k, tool, launcher, TurnId(Get(e2, k))), k, TurnId(Get(e2, k)))
    case ToolUpdate(parent, tool) =>
      if parent != "" then ChildTool(e, k, parent, tool, mintLane).0
      else
        var (e1, ok) := StartTurn(e, k, mintTurn);
        if !ok then e1
        else
          var e2 := Activate(Flush(e1, k), k, Responding);
          EmitFrame(e2, k, TurnId(Get(e2, k)))
    case ToolMark(tool) =>
      var origin := At(Get(e, k).childTools, tool);
      if origin != 0 then EmitFrame(Flush(e, k), k, origin)
      else
        var (e1, ok) := StartTurn(e, k, mintTurn);
        if !ok then e1 else EmitFrame(Flush(e1, k), k, TurnId(Get(e1, k)))
    case TurnEnd => FrameAndEnd(e, k)
    case Status => EmitFrame(Flush(e, k), k, TurnId(Get(e, k)))
    case Silent => e
  }

  /** handleForSource: text of the conversation's other sources goes out before this source's event is looked at. */
  ghost function Handle(e: E, k: Key, ev: Event, visit: seq<Key>, mintTurn: bool, mintLane: bool): E {
    var e1 := FlushEach(e, visit);
    var e2 := if k in e1.turns then e1 else Put(e1, k, BLANK);
    Release(HandleEvent(e2, k, ev, mintTurn, mintLane), k)
  }

  /** flushAll, on the timer's fire. */
  function Fire(e: E, visit: seq<Key>): E {
    FlushEach(e, visit).(timer := None)
  }

  /** One source's part of closeForConversation. */
  ghost function CloseOne(e: E, k: Key): E {
    var e1 := Flush(e, k);
    var e2 := if Get(e1, k).main.Some? then EndTurn(e1, k) else e1;
    Release(Put(e2, k, Get(e2, k).(lanes := map[], launchers := map[], childTools := map[])), k)
  }

  ghost function CloseEach(e: E, keys: seq<Key>): E {
    if keys == [] then e else CloseOne(CloseEach(e, keys[..|keys| - 1]), keys[|keys| - 1])
  }

  function SourcesOf(e: E, c: string): set<Key> {
    set k | k in e.turns && k.conv == c
  }

  /** The order of closing: by last activity, then by source. */
  predicate Precedes(turns: map<Key, St>, j: Key, k: Key)
    requires j in turns && k in turns
  {
    turns[j].order < turns[k].order || (turns[j].order == turns[k].order && j.src < k.src)
  }

  ghost predicate CloseOrder(e: E, c: string, keys: seq<Key>) {
    && Lists(keys, SourcesOf(e, c))
    && (forall i, j :: 0 <= i < j < |keys| ==> keys[i] in e.turns && keys[j] in e.turns && Precedes(e.turns, keys[i], keys[j]))
  }

  // ---------------------------------------------------------------- invariants of the text

  predicate HasLane(turns: map<Key, St>, k: Key, p: string, l: Lane) {
    k in turns && LaneAt(turns[k], p) == Some(l)
  }

  predicate LaneOk(trace: seq<Item>, ids: nat, l: Lane) {
    0 < l.id < ids && l.next == Count(trace, l.id)
  }

  /** Every lane counts its own deltas, and no identity is used twice. */
  ghost predicate LanesOk(turns: map<Key, St>, ids: nat, trace: seq<Item>) {
    && 0 < ids
    && (forall k, p, l :: HasLane(turns, k, p, l) ==> LaneOk(trace, ids, l))
    && (forall j, q, m, k, p, l :: HasLane(turns, j, q, m) && HasLane(turns, k, p, l) && m.id == l.id ==> j == k && q == p)
    && (forall l: nat :: ids <= l ==> Count(trace, l) == 0)
  }

  /** Buffered text has a lane, and is valid when everything that arrived was. */
  ghost predicate BufOk(turns: map<Key, St>, trace: seq<Item>) {
    forall k :: k in turns && turns[k].buf != [] ==>
      LaneAt(turns[k], turns[k].parent).Some? && (ValidArrivals(trace) ==> ValidUtf8(turns[k].buf))
  }

  function Held(st: St): seq<(nat, Byte)> {
    var lane := LaneAt(st, st.parent);
    if lane.Some? then Label(lane.value.id, st.buf) else []
  }

  /** Of conversation c only k may hold text. */
  predicate OnlyHolder(turns: map<Key, St>, c: string, k: Key) {
    forall j :: j in turns && j.conv == c && j != k ==> turns[j].buf == []
  }

  predicate NoHolder(turns: map<Key, St>, c: string) {
    forall j :: j in turns && j.conv == c ==> turns[j].buf == []
  }

  /** At most one source of a conversation holds text, and what was sent followed by what is held is what arrived. */
  ghost predicate StreamOk(turns: map<Key, St>, trace: seq<Item>) {
    && (forall k :: k in turns && turns[k].buf != [] ==>
          OnlyHolder(turns, k.conv, k) && Emitted(trace, k.conv) + Held(turns[k]) == Arrived(trace, k.conv))
    && (forall c :: NoHolder(turns, c) ==> Settled(trace, c))
  }

  ghost predicate TextOk(e: E) {
    Numbered(e.trace) && LanesOk(e.turns, e.ids, e.trace) && BufOk(e.turns, e.trace) && StreamOk(e.turns, e.trace)
  }

  // ---------------------------------------------------------------- sending and flushing

  lemma AdvanceLanes(st: St, p: string, n: nat, q: string)
    ensures LaneAt(Advance(st, p, n), q) ==
      if q == p && LaneAt(st, p).Some? then Some(Lane(LaneAt(st, p).value.id, LaneAt(st, p).value.next + n)) else LaneAt(st, q)
  {
  }

  /** After a send on lane (k, p), all lanes still count their own deltas. */
  lemma SendLanes(turns: map<Key, St>, ids: nat, trace: seq<Item>, trace': seq<Item>, k: Key, p: string, lane: Lane, text: Bytes, n: nat)
    requires LanesOk(turns, ids, trace) && HasLane(turns, k, p, lane) && Sends(trace, trace', k.conv, lane.id, text, n)
    ensures LanesOk(turns[k := Advance(turns[k], p, n)], ids, trace')
  {
    var turns' := turns[k := Advance(turns[k], p, n)];
    forall j, q, m | HasLane(turns', j, q, m) ensures LaneOk(trace', ids, m)
      ensures exists m' :: HasLane(turns, j, q, m') && m'.id == m.id
    {
      AdvanceLanes(turns[k], p, n, q);
      if j == k && q == p {
        assert m == Lane(lane.id, lane.next + n);
        assert HasLane(turns, k, p, lane);
      } else {
        assert HasLane(turns, j, q, m);
      }
    }
  }

  predicate SameBuf(turns: map<Key, St>, turns': map<Key, St>, j: Key) {
    && ((j in turns && turns[j].buf != []) <==> (j in turns' && turns'[j].buf != []))
    && (j in turns && turns[j].buf != [] ==>
          && turns'[j].buf == turns[j].buf && turns'[j].parent == turns[j].parent
          && LaneAt(turns'[j], turns[j].parent) == LaneAt(turns[j], turns[j].parent))
  }

  /** A change of the retained sources that keeps every buffer, drops lanes at will and mints at most one, (k, p). */
  ghost predicate Reshaped(turns: map<Key, St>, ids: nat, turns': map<Key, St>, ids': nat, k: Key, p: string) {
    && ids <= ids' <= ids + 1
    && (forall j :: SameBuf(turns, turns', j))
    && (forall j, q, m :: HasLane(turns', j, q, m) ==>
          HasLane(turns, j, q, m) || (j == k && q == p && m == Lane(ids, 0) && ids' == ids + 1))
  }

  lemma ReshapedLanes(turns: map<Key, St>, ids: nat, turns': map<Key, St>, ids': nat, trace: seq<Item>, k: Key, p: string)
    requires LanesOk(turns, ids, trace) && Reshaped(turns, ids, turns', ids', k, p)
    ensures LanesOk(turns', ids', trace)
  {
    forall j, q, m | HasLane(turns', j, q, m) ensures LaneOk(trace, ids', m) {
      if HasLane(turns, j, q, m) {
        assert LaneOk(trace, ids, m);
      }
    }
    forall j, q, m, i, o, l | HasLane(turns', j, q, m) && HasLane(turns', i, o, l) && m.id == l.id ensures j == i && q == o {
      if HasLane(turns, j, q, m) {
        assert LaneOk(trace, ids, m);
      }
      if HasLane(turns, i, o, l) {
        assert LaneOk(trace, ids, l);
      }
    }
  }

  lemma ReshapedStream(turns: map<Key, St>, turns': map<Key, St>, trace: seq<Item>)
    requires BufOk(turns, trace) && StreamOk(turns, trace) && forall j :: SameBuf(turns, turns', j)
    ensures BufOk(turns', trace) && StreamOk(turns', trace)
  {
    forall j | j in turns' && turns'[j].buf != []
      ensures LaneAt(turns'[j], turns'[j].parent).Some? && (ValidArrivals(trace) ==> ValidUtf8(turns'[j].buf))
      ensures OnlyHolder(turns', j.conv, j) && Emitted(trace, j.conv) + Held(turns'[j]) == Arrived(trace, j.conv)
    {
      assert SameBuf(turns, turns', j);
      assert OnlyHolder(turns, j.conv, j);
      forall i | i in turns' && i.conv == j.conv && i != j ensures turns'[i].buf == [] {
        assert SameBuf(turns, turns', i);
      }
      assert Held(turns'[j]) == Held(turns[j]);
    }
    forall c | NoHolder(turns', c) ensures Settled(trace, c) {
      forall j | j in turns && j.conv == c ensures turns[j].buf == [] {
        assert SameBuf(turns, turns', j);
      }
      assert NoHolder(turns, c);
    }
  }

  lemma ReshapedText(e: E, e': E, k: Key, p: string)
    requires TextOk(e) && Reshaped(e.turns, e.ids, e'.turns, e'.ids, k, p) && e'.trace == e.trace
    ensures TextOk(e')
  {
    ReshapedLanes(e.turns, e.ids, e'.turns, e'.ids, e.trace, k, p);
    ReshapedStream(e.turns, e'.turns, e.trace);
  }

  /** Frames carry no text. */
  lemma LogText(e: E, item: Item)
    requires TextOk(e) && (item.Frame? || item.PhaseFrame? || item.Opened?)
    ensures TextOk(Log(e, item))
    ensures InOrder(e.trace) && (item.Opened? || Settled(e.trace, item.conv)) ==> InOrder(Log(e, item).trace)
    ensures forall c :: Settled(Log(e, item).trace, c) <==> Settled(e.trace, c)
  {
    var trace' := e.trace + [item];
    GoodSnoc(e.trace, item);
    SameMeasures(e.trace, trace', item);
    LogStream(e.turns, e.trace, trace');
    LogLanes(e.turns, e.ids, e.trace, trace');
  }

  ghost predicate SameCounts(trace: seq<Item>, trace': seq<Item>) {
    && (forall c :: Emitted(trace', c) == Emitted(trace, c))
    && (forall c :: Arrived(trace', c) == Arrived(trace, c))
    && (forall l: nat :: Count(trace', l) == Count(trace, l))
    && (ValidArrivals(trace') <==> ValidArrivals(trace))
  }

  lemma SameMeasures(trace: seq<Item>, trace': seq<Item>, item: Item)
    requires trace' == trace + [item] && !item.Delta? && !item.Arrive?
    ensures SameCounts(trace, trace')
  {
    forall c, l: nat
      ensures Emitted(trace', c) == Emitted(trace, c) && Arrived(trace', c) == Arrived(trace, c) && Count(trace', l) == Count(trace, l)
    {
      TraceSnoc(trace, item, c, l);
    }
    GoodSnoc(trace, item);
  }

  lemma LogStream(turns: map<Key, St>, trace: seq<Item>, trace': seq<Item>)
    requires BufOk(turns, trace) && StreamOk(turns, trace) && SameCounts(trace, trace')
    ensures BufOk(turns, trace') && StreamOk(turns, trace')
  {
  }

  lemma LogLanes(turns: map<Key, St>, ids: nat, trace: seq<Item>, trace': seq<Item>)
    requires LanesOk(turns, ids, trace) && SameCounts(trace, trace')
    ensures LanesOk(turns, ids, trace')
  {
    forall k, p, l | HasLane(turns, k, p, l) ensures LaneOk(trace', ids, l) {
      assert LaneOk(trace, ids, l);
    }
  }

  // ---------------------------------------------------------------- flushing

  /** What a flush leaves alone. */
  ghost predicate Kept(e: E, e': E, k: Key) {
    && e'.order == e.order && e'.snap == e.snap && e'.ids == e.ids && e'.clock == e.clock && e'.facts == e.facts
    && e'.turns.Keys == e.turns.Keys
    && (forall j :: j in e.turns && j != k ==> e'.turns[j] == e.turns[j])
    && (k in e.turns ==> KeptSt(e.turns[k], e'.turns[k]))
  }

  predicate KeptSt(st: St, st': St) {
    && st'.phase == st.phase && st'.order == st.order && st'.launchers == st.launchers && st'.childTools == st.childTools
    && TurnId(st') == TurnId(st) && (st'.main.Some? <==> st.main.Some?) && st'.lanes.Keys == st.lanes.Keys
  }

  lemma SentBufs(turns: map<Key, St>, turns': map<Key, St>, trace: seq<Item>, trace': seq<Item>, k: Key)
    requires BufOk(turns, trace) && (ValidArrivals(trace') <==> ValidArrivals(trace))
    requires k in turns && turns'.Keys == turns.Keys && turns'[k].buf == [] && forall j :: j in turns && j != k ==> turns'[j] == turns[j]
    ensures BufOk(turns', trace')
  {
  }

  /** Clearing the sent buffer: the conversation is settled and the others are as before. */
  lemma SentStream(turns: map<Key, St>, turns': map<Key, St>, trace: seq<Item>, trace': seq<Item>, k: Key, id: nat, n: nat)
    requires StreamOk(turns, trace) && k in turns && turns[k].buf != []
    requires Held(turns[k]) == Label(id, turns[k].buf)
    requires Sends(trace, trace', k.conv, id, turns[k].buf, n)
    requires turns'.Keys == turns.Keys && turns'[k].buf == [] && forall j :: j in turns && j != k ==> turns'[j] == turns[j]
    ensures StreamOk(turns', trace') && Settled(trace', k.conv)
  {
    assert OnlyHolder(turns, k.conv, k);
    assert Emitted(trace, k.conv) + Held(turns[k]) == Arrived(trace, k.conv);
    forall j | j in turns' && turns'[j].buf != []
      ensures OnlyHolder(turns', j.conv, j) && Emitted(trace', j.conv) + Held(turns'[j]) == Arrived(trace', j.conv)
    {
      assert j.conv != k.conv;
      assert OnlyHolder(turns, j.conv, j);
    }
    forall c | NoHolder(turns', c) ensures Settled(trace', c) {
      if c != k.conv {
        assert NoHolder(turns, c);
      }
    }
  }

  function Cleared(st: St): St {
    st.(buf := [], msg := "", parent := "")
  }

  lemma FlushShape(e: E, k: Key, lane: Lane)
    requires k in e.turns && e.turns[k].buf != [] && LaneAt(e.turns[k], e.turns[k].parent) == Some(lane)
    ensures var e', st := Flush(e, k), e.turns[k];
      && e'.trace == Sent(e.trace, k.conv, lane, st.buf)
      && e'.turns == e.turns[k := Cleared(Advance(st, st.parent, |Split(st.buf, MAX_DELTA_TEXT_BYTES)|))]
      && e'.order == e.order && e'.snap == e.snap && e'.ids == e.ids && e'.clock == e.clock && e'.facts == e.facts
  {
    var st, e' := e.turns[k], Flush(e, k);
    var n := |Split(st.buf, MAX_DELTA_TEXT_BYTES)|;
    assert e'.turns == e.turns[k := Advance(st, st.parent, n)][k := Cleared(Advance(st, st.parent, n))];
  }

  lemma AdvanceKept(st: St, p: string, n: nat)
    ensures KeptSt(st, Cleared(Advance(st, p, n)))
  {
  }

  lemma FlushLanes(turns: map<Key, St>, ids: nat, trace: seq<Item>, trace': seq<Item>, k: Key, lane: Lane, n: nat)
    requires LanesOk(turns, ids, trace) && k in turns && HasLane(turns, k, turns[k].parent, lane)
    requires Sends(trace, trace', k.conv, lane.id, turns[k].buf, n)
    ensures LanesOk(turns[k := Cleared(Advance(turns[k], turns[k].parent, n))], ids, trace')
  {
    var mid := turns[k := Advance(turns[k], turns[k].parent, n)];
    SendLanes(turns, ids, trace, trace', k, turns[k].parent, lane, turns[k].buf, n);
    ClearLanes(mid, ids, trace', k);
    assert mid[k := Cleared(mid[k])] == turns[k := Cleared(mid[k])];
  }

  lemma FlushBuffer(e: E, k: Key)
    requires TextOk(e) && k in e.turns && e.turns[k].buf != []
    ensures var e' := Flush(e, k);
      TextOk(e') && Kept(e, e', k) && Get(e', k).buf == [] && (InOrder(e.trace) ==> InOrder(e'.trace)) && Settled(e'.trace, k.conv)
  {
    var st := e.turns[k];
    var lane := LaneAt(st, st.parent).value;
    assert HasLane(e.turns, k, st.parent, lane);
    assert LaneOk(e.trace, e.ids, lane);
    SentOk(e.trace, k.conv, lane, st.buf);
    FlushShape(e, k, lane);
    AdvanceKept(st, st.parent, |Split(st.buf, MAX_DELTA_TEXT_BYTES)|);
    var e', n := Flush(e, k), |Split(st.buf, MAX_DELTA_TEXT_BYTES)|;
    FlushLanes(e.turns, e.ids, e.trace, e'.trace, k, lane, n);
    SentBufs(e.turns, e'.turns, e.trace, e'.trace, k);
    SentStream(e.turns, e'.turns, e.trace, e'.trace, k, lane.id, n);
  }

  lemma FlushText(e: E, k: Key)
    requires TextOk(e)
    ensures var e' := Flush(e, k);
      && TextOk(e') && Kept(e, e', k) && Get(e', k).buf == []
      && (InOrder(e.trace) ==> InOrder(e'.trace))
      && (Get(e, k).buf != [] ==> Settled(e'.trace, k.conv))
      && (Get(e, k).buf == [] ==> e' == e)
  {
    if Get(e, k).buf != [] {
      FlushBuffer(e, k);
    }
  }

  lemma ClearLanes(turns: map<Key, St>, ids: nat, trace: seq<Item>, k: Key)
    requires LanesOk(turns, ids, trace) && k in turns
    ensures LanesOk(turns[k := Cleared(turns[k])], ids, trace)
  {
    var turns' := turns[k := Cleared(turns[k])];
    forall j, q, m ensures HasLane(turns', j, q, m) <==> HasLane(turns, j, q, m) {
    }
    forall j, q, m | HasLane(turns', j, q, m) ensures LaneOk(trace, ids, m) {
      assert HasLane(turns, j, q, m);
    }
  }

  // ---------------------------------------------------------------- invariants of the phases

  predicate PhaseStOk(st: St, limit: nat) {
    if st.phase == Quiet then st.order == 0 else st.main.Some? && 0 < st.order <= limit
  }

  /** Running phases belong to open turns, and no two sources were last active at the same moment. */
  predicate PhaseOk(turns: map<Key, St>, limit: nat) {
    && (forall k :: k in turns ==> PhaseStOk(turns[k], limit))
    && (forall j, k :: j in turns && k in turns && j != k && turns[j].phase != Quiet && turns[k].phase != Quiet ==>
          turns[j].order != turns[k].order)
  }

  function Shown(snap: map<string, Phase>, c: string): Phase {
    if c in snap then snap[c] else Quiet
  }

  /** The snapshot shows the projection of every conversation, and nothing for an idle one. */
  ghost predicate SnapOk(turns: map<Key, St>, snap: map<string, Phase>) {
    && (forall c :: Shown(snap, c) == Projected(turns, c))
    && (forall c :: c in snap ==> snap[c] != Quiet)
  }

  lemma {:induction false} MaxOrder(turns: map<Key, St>, among: set<Key>) returns (k: Key)
    requires among != {} && among <= turns.Keys
    ensures k in among && forall j :: j in among ==> turns[j].order <= turns[k].order
  {
    k :| k in among;
    var rest := among - {k};
    assert among == rest + {k};
    if rest != {} {
      var m := MaxOrder(turns, rest);
      if turns[k].order < turns[m].order {
        k := m;
      }
    }
  }

  /** Whenever a conversation has a running source, one of them is the latest. */
  lemma HasLatest(turns: map<Key, St>, c: string, some: Key) returns (k: Key)
    requires some in turns && some.conv == c && Running(turns[some])
    ensures Latest(turns, c, k)
  {
    var among := set j | j in turns && j.conv == c && Running(turns[j]);
    assert some in among;
    k := MaxOrder(turns, among);
  }

  lemma ProjectedIs(turns: map<Key, St>, limit: nat, c: string, k: Key)
    requires PhaseOk(turns, limit) && Latest(turns, c, k)
    ensures Projected(turns, c) == turns[k].phase
  {
    forall j | Latest(turns, c, j) ensures j == k {
      assert turns[j].order == turns[k].order;
    }
  }

  /** The projection is absent exactly when the conversation has no running source. */
  lemma ProjectedNone(turns: map<Key, St>, limit: nat, c: string)
    requires PhaseOk(turns, limit)
    ensures Projected(turns, c) == Quiet <==> forall k :: k in turns && k.conv == c ==> !Running(turns[k])
  {
    if some :| some in turns && some.conv == c && Running(turns[some]) {
      var k := HasLatest(turns, c, some);
      ProjectedIs(turns, limit, c, k);
    }
  }

  function PhaseView(turns: map<Key, St>, k: Key): (Phase, nat) {
    if k in turns then (turns[k].phase, turns[k].order) else (Quiet, 0)
  }

  /** A conversation whose sources keep their phases keeps its projection. */
  lemma SameProjection(turns: map<Key, St>, turns': map<Key, St>, limit: nat, limit': nat, c: string)
    requires PhaseOk(turns, limit) && PhaseOk(turns', limit')
    requires forall k: Key :: k.conv == c ==> PhaseView(turns', k) == PhaseView(turns, k)
    ensures Projected(turns', c) == Projected(turns, c)
  {
    ProjectedNone(turns, limit, c);
    ProjectedNone(turns', limit', c);
    if some :| some in turns && some.conv == c && Running(turns[some]) {
      var k := HasLatest(turns, c, some);
      assert PhaseView(turns', k) == PhaseView(turns, k);
      forall j | j in turns' && j.conv == c && Running(turns'[j]) ensures turns'[j].order <= turns'[k].order {
        assert PhaseView(turns', j) == PhaseView(turns, j);
      }
      assert Latest(turns', c, k);
      ProjectedIs(turns, limit, c, k);
      ProjectedIs(turns', limit', c, k);
    } else {
      forall k | k in turns' && k.conv == c ensures !Running(turns'[k]) {
        assert PhaseView(turns', k) == PhaseView(turns, k);
      }
    }
  }

  lemma SamePhases(turns: map<Key, St>, turns': map<Key, St>, limit: nat, snap: map<string, Phase>)
    requires PhaseOk(turns, limit) && SnapOk(turns, snap)
    requires forall k :: PhaseView(turns', k) == PhaseView(turns, k)
    requires forall k :: k in turns' && turns'[k].phase != Quiet ==> turns'[k].main.Some?
    ensures PhaseOk(turns', limit) && SnapOk(turns', snap)
  {
    forall k | k in turns' ensures PhaseStOk(turns'[k], limit) {
      assert PhaseView(turns', k) == PhaseView(turns, k);
    }
    forall j, k | j in turns' && k in turns' && j != k && turns'[j].phase != Quiet && turns'[k].phase != Quiet
      ensures turns'[j].order != turns'[k].order
    {
      assert PhaseView(turns', k) == PhaseView(turns, k) && PhaseView(turns', j) == PhaseView(turns, j);
    }
    forall c ensures Shown(snap, c) == Projected(turns', c) {
      SameProjection(turns, turns', limit, limit, c);
    }
  }

  /** Changing one source's phase leaves every other conversation's projection alone. */
  lemma OtherProjections(turns: map<Key, St>, k: Key, st: St, limit: nat, limit': nat, c: string)
    requires PhaseOk(turns, limit) && PhaseOk(turns[k := st], limit') && c != k.conv
    ensures Projected(turns[k := st], c) == Projected(turns, c)
  {
    SameProjection(turns, turns[k := st], limit, limit', c);
  }

  lemma AnnounceSnap(e: E, turns: map<Key, St>, c: string)
    requires SnapOk(turns, e.snap) && forall d :: d != c ==> Projected(e.turns, d) == Projected(turns, d)
    ensures SnapOk(e.turns, Announce(e, c, Projected(turns, c)).snap)
  {
    var snap' := Announce(e, c, Projected(turns, c)).snap;
    forall d ensures Shown(snap', d) == Projected(e.turns, d) {
      assert Shown(e.snap, d) == Projected(turns, d);
    }
  }

  /** The source just activated is the projection. */
  lemma ActivateProjects(turns: map<Key, St>, limit: nat, k: Key, st: St)
    requires PhaseOk(turns, limit) && st.main.Some? && st.phase != Quiet && st.order == limit + 1
    ensures PhaseOk(turns[k := st], limit + 1) && Projected(turns[k := st], k.conv) == st.phase
  {
    var turns' := turns[k := st];
    forall j | j in turns' ensures PhaseStOk(turns'[j], limit + 1) {
      if j != k {
        assert PhaseStOk(turns[j], limit);
      }
    }
    forall i, j | i in turns' && j in turns' && i != j && turns'[i].phase != Quiet && turns'[j].phase != Quiet
      ensures turns'[i].order != turns'[j].order
    {
      assert i != k ==> PhaseStOk(turns[i], limit);
      assert j != k ==> PhaseStOk(turns[j], limit);
    }
    assert Latest(turns', k.conv, k);
    ProjectedIs(turns', limit + 1, k.conv, k);
  }

  function Activated(e: E, k: Key, phase: Phase): E {
    Put(e, k, Get(e, k).(phase := phase, order := e.order + 1)).(order := e.order + 1)
  }

  lemma ActivateIs(e: E, k: Key, phase: Phase)
    requires PhaseOk(e.turns, e.order) && Get(e, k).main.Some? && phase != Quiet
    ensures Activate(e, k, phase) == AnnounceAs(Activated(e, k, phase), k.conv, Projected(e.turns, k.conv), phase)
    ensures PhaseOk(Activated(e, k, phase).turns, e.order + 1) && Projected(Activated(e, k, phase).turns, k.conv) == phase
  {
    ActivateProjects(e.turns, e.order, k, Get(e, k).(phase := phase, order := e.order + 1));
  }

  lemma AnnounceShows(e: E, c: string, previous: Phase, now: Phase)
    requires Shown(e.snap, c) == previous && now != Quiet
    ensures Shown(AnnounceAs(e, c, previous, now).snap, c) == now
    ensures AnnounceAs(e, c, previous, now).turns == e.turns && AnnounceAs(e, c, previous, now).order == e.order
  {
  }

  lemma ActivatePhases(e: E, k: Key, phase: Phase)
    requires PhaseOk(e.turns, e.order) && SnapOk(e.turns, e.snap) && Get(e, k).main.Some? && phase != Quiet
    ensures var e' := Activate(e, k, phase);
      PhaseOk(e'.turns, e'.order) && SnapOk(e'.turns, e'.snap) && Shown(e'.snap, k.conv) == phase
  {
    var e1 := Activated(e, k, phase);
    ActivateIs(e, k, phase);
    ActivateSnap(e, e1, k, Get(e, k).(phase := phase, order := e.order + 1));
    AnnounceShows(e1, k.conv, Projected(e.turns, k.conv), phase);
  }

  lemma ActivateSnap(e: E, e1: E, k: Key, st: St)
    requires PhaseOk(e.turns, e.order) && SnapOk(e.turns, e.snap)
    requires e1.turns == e.turns[k := st] && e1.snap == e.snap && PhaseOk(e1.turns, e1.order)
    ensures SnapOk(e1.turns, Announce(e1, k.conv, Projected(e.turns, k.conv)).snap)
  {
    forall d | d != k.conv ensures Projected(e1.turns, d) == Projected(e.turns, d) {
      OtherProjections(e.turns, k, st, e.order, e1.order, d);
    }
    AnnounceSnap(e1, e.turns, k.conv);
  }

  /** Activating a source announces the phase exactly when the conversation did not show it. */
  lemma ActivateTrace(e: E, k: Key, phase: Phase)
    requires PhaseOk(e.turns, e.order) && SnapOk(e.turns, e.snap) && Get(e, k).main.Some? && phase != Quiet
    ensures var e' := Activate(e, k, phase);
      && e'.turns == e.turns[k := Get(e, k).(phase := phase, order := e.order + 1)]
      && e'.trace == (if Shown(e.snap, k.conv) == phase then e.trace else e.trace + [PhaseFrame(k.conv, phase)])
      && e'.ids == e.ids && e'.clock == e.clock && e'.timer == e.timer && e'.facts == e.facts
  {
    assert Shown(e.snap, k.conv) == Projected(e.turns, k.conv);
    ActivateIs(e, k, phase);
  }

  lemma EndPhases(e: E, k: Key)
    requires PhaseOk(e.turns, e.order) && SnapOk(e.turns, e.snap)
    ensures var e' := EndTurn(e, k);
      && PhaseOk(e'.turns, e'.order) && SnapOk(e'.turns, e'.snap)
      && e'.turns == e.turns[k := Get(e, k).(main := None, phase := Quiet, order := 0)]
      && (e'.trace == e.trace || e'.trace == e.trace + [PhaseFrame(k.conv, Projected(e'.turns, k.conv))])
      && (e'.trace == e.trace <==> Projected(e'.turns, k.conv) == Projected(e.turns, k.conv) != Quiet)
  {
    var st := Get(e, k).(main := None, phase := Quiet, order := 0);
    var e1 := Put(e, k, st);
    assert PhaseOk(e1.turns, e1.order);
    forall d | d != k.conv ensures Projected(e1.turns, d) == Projected(e.turns, d) {
      OtherProjections(e.turns, k, st, e.order, e.order, d);
    }
    AnnounceSnap(e1, e.turns, k.conv);
  }

  // ---------------------------------------------------------------- the whole invariant

  /** Main text is held only while the conversation shows responding. */
  ghost predicate RespOk(turns: map<Key, St>, snap: map<string, Phase>) {
    forall k :: k in turns && turns[k].buf != [] && turns[k].parent == "" ==> Shown(snap, k.conv) == Responding
  }

  /** While any source holds text the timer is armed, due within a window of that source's oldest chunk. */
  ghost predicate TimerOk(turns: map<Key, St>, timer: Option<nat>, clock: nat) {
    forall k :: k in turns && turns[k].buf != [] ==>
      timer.Some? && timer.value <= turns[k].since + WINDOW && turns[k].since <= clock
  }

  ghost predicate Good(e: E) {
    && TextOk(e) && PhaseOk(e.turns, e.order) && SnapOk(e.turns, e.snap)
    && RespOk(e.turns, e.snap) && TimerOk(e.turns, e.timer, e.clock)
  }

  /** Good, and no other source of k's conversation holds text. */
  ghost predicate Ready(e: E, k: Key) {
    Good(e) && k in e.turns && OnlyHolder(e.turns, k.conv, k)
  }

  lemma ReadySettled(e: E, k: Key)
    requires Ready(e, k) && e.turns[k].buf == []
    ensures Settled(e.trace, k.conv)
  {
    assert NoHolder(e.turns, k.conv);
  }

  /** k's entry changes without touching its buffer or phase. */
  predicate Retains(st: St, st': St) {
    && st'.buf == st.buf && st'.parent == st.parent && st'.since == st.since
    && st'.phase == st.phase && st'.order == st.order && (st.main.Some? ==> st'.main == st.main)
    && (forall p :: p in st.lanes ==> p in st'.lanes && st'.lanes[p] == st.lanes[p])
  }

  /** Lanes of the new entry are the old ones and at most one minted now. */
  predicate LanesFrom(st: St, st': St, ids: nat, ids': nat, p: string) {
    && ids <= ids' <= ids + 1
    && (forall q :: q in st'.lanes ==> (q in st.lanes && st'.lanes[q] == st.lanes[q])
                                       || (q == p && st'.lanes[q] == Lane(ids, 0) && ids' == ids + 1))
    && (st'.main == st.main || (p == "" && st'.main == Some(Lane(ids, 0)) && ids' == ids + 1))
  }

  lemma RetainsShape(turns: map<Key, St>, trace: seq<Item>, ids: nat, ids': nat, k: Key, st: St, p: string)
    requires k in turns && Retains(turns[k], st) && LanesFrom(turns[k], st, ids, ids', p) && BufOk(turns, trace)
    ensures Reshaped(turns, ids, turns[k := st], ids', k, p)
  {
    var turns' := turns[k := st];
    forall j ensures SameBuf(turns, turns', j) {
      if j == k && turns[k].buf != [] {
        assert LaneAt(turns[k], turns[k].parent).Some?;
      }
    }
    forall j, q, m | HasLane(turns', j, q, m)
      ensures HasLane(turns, j, q, m) || (j == k && q == p && m == Lane(ids, 0) && ids' == ids + 1)
    {
      if j == k {
        assert LaneAt(st, q) == Some(m);
      }
    }
  }

  lemma RetainsPhases(turns: map<Key, St>, limit: nat, snap: map<string, Phase>, k: Key, st: St)
    requires PhaseOk(turns, limit) && SnapOk(turns, snap) && k in turns && Retains(turns[k], st)
    ensures PhaseOk(turns[k := st], limit) && SnapOk(turns[k := st], snap)
  {
    var turns' := turns[k := st];
    forall j ensures PhaseView(turns', j) == PhaseView(turns, j) {
    }
    forall j | j in turns' && turns'[j].phase != Quiet ensures turns'[j].main.Some? {
      assert PhaseStOk(turns[j], limit);
    }
    SamePhases(turns, turns', limit, snap);
  }

  lemma RetainsRest(turns: map<Key, St>, snap: map<string, Phase>, timer: Option<nat>, clock: nat, k: Key, st: St)
    requires k in turns && Retains(turns[k], st) && OnlyHolder(turns, k.conv, k)
    requires RespOk(turns, snap) && TimerOk(turns, timer, clock)
    ensures RespOk(turns[k := st], snap) && TimerOk(turns[k := st], timer, clock) && OnlyHolder(turns[k := st], k.conv, k)
  {
  }

  lemma RetainsReady(e: E, e': E, k: Key, st: St, p: string)
    requires Ready(e, k) && e'.turns == e.turns[k := st] && Retains(e.turns[k], st)
    requires e'.order == e.order && e'.snap == e.snap && e'.trace == e.trace && e'.timer == e.timer && e'.clock == e.clock
    requires LanesFrom(e.turns[k], st, e.ids, e'.ids, p)
    ensures Ready(e', k)
  {
    RetainsShape(e.turns, e.trace, e.ids, e'.ids, k, st, p);
    ReshapedText(e, e', k, p);
    RetainsPhases(e.turns, e.order, e.snap, k, st);
    RetainsRest(e.turns, e.snap, e.timer, e.clock, k, st);
  }

  // ---------------------------------------------------------------- each operation keeps it

  /** Readiness is kept, and so is the order of frames behind text. */
  ghost predicate Keeps(e: E, e': E, k: Key) {
    Ready(e', k) && (InOrder(e.trace) ==> InOrder(e'.trace))
  }

  lemma LogReady(e: E, k: Key, item: Item)
    requires Ready(e, k) && item.conv == k.conv && (item.Opened? || ((item.Frame? || item.PhaseFrame?) && e.turns[k].buf == []))
    ensures Keeps(e, Log(e, item), k)
  {
    LogText(e, item);
    if !item.Opened? {
      ReadySettled(e, k);
    }
  }

  lemma StartReady(e: E, k: Key, minted: bool)
    requires Ready(e, k)
    ensures var (e', ok) := StartTurn(e, k, minted);
      && Keeps(e, e', k) && (ok ==> e'.turns[k].main.Some?)
      && e'.turns[k].buf == e.turns[k].buf && e'.turns[k].parent == e.turns[k].parent && e'.snap == e.snap
  {
    if e.turns[k].main.None? && minted {
      var st := e.turns[k].(main := Some(Lane(e.ids, 0)), phase := Quiet);
      var e1 := Put(e, k, st).(ids := e.ids + 1);
      assert PhaseStOk(e.turns[k], e.order);
      RetainsReady(e, e1, k, st, "");
      if e.facts {
        LogReady(e1, k, Opened(k.conv, e.ids));
      }
    }
  }

  lemma EnsureReady(e: E, k: Key, parent: string, minted: bool)
    requires Ready(e, k)
    ensures var (e', ok) := EnsureLane(e, k, parent, minted);
      && Keeps(e, e', k) && (ok && parent != "" ==> LaneAt(e'.turns[k], parent).Some?)
      && e'.turns[k].buf == e.turns[k].buf && e'.turns[k].parent == e.turns[k].parent && e'.turns[k].main == e.turns[k].main
      && e'.snap == e.snap
  {
    if parent != "" && parent !in e.turns[k].lanes && minted {
      var st := e.turns[k].(lanes := e.turns[k].lanes[parent := Lane(e.ids, 0)]);
      RetainsReady(e, Put(e, k, st).(ids := e.ids + 1), k, st, parent);
    }
  }

  lemma RememberReady(e: E, k: Key, tool: string, launcher: bool, origin: nat)
    requires Ready(e, k)
    ensures var e' := Remember(e, k, tool, launcher, origin);
      Keeps(e, e', k) && e'.turns[k].buf == e.turns[k].buf
  {
    var e' := Remember(e, k, tool, launcher, origin);
    if e' != e {
      RetainsReady(e, e', k, e'.turns[k], "");
    }
  }

  lemma KeptPhases(turns: map<Key, St>, turns': map<Key, St>, limit: nat, snap: map<string, Phase>, k: Key)
    requires PhaseOk(turns, limit) && SnapOk(turns, snap) && turns'.Keys == turns.Keys
    requires forall j :: j in turns && j != k ==> turns'[j] == turns[j]
    requires k in turns ==> KeptSt(turns[k], turns'[k])
    ensures PhaseOk(turns', limit) && SnapOk(turns', snap)
  {
    forall j ensures PhaseView(turns', j) == PhaseView(turns, j) {
    }
    forall j | j in turns' && turns'[j].phase != Quiet ensures turns'[j].main.Some? {
      assert PhaseStOk(turns[j], limit);
    }
    SamePhases(turns, turns', limit, snap);
  }

  lemma FlushTimer(e: E, k: Key)
    requires TextOk(e) && RespOk(e.turns, e.snap) && TimerOk(e.turns, e.timer, e.clock)
    ensures var e' := Flush(e, k); RespOk(e'.turns, e'.snap) && TimerOk(e'.turns, e'.timer, e'.clock)
  {
    FlushText(e, k);
    var e' := Flush(e, k);
    forall j | j in e'.turns && e'.turns[j].buf != [] ensures e'.turns[j] == e.turns[j] && e'.timer == e.timer {
      assert AnyBuffered(e'.turns);
    }
  }

  lemma FlushGood(e: E, k: Key)
    requires Good(e)
    ensures var e' := Flush(e, k);
      && Good(e') && Kept(e, e', k) && Get(e', k).buf == [] && (InOrder(e.trace) ==> InOrder(e'.trace))
  {
    FlushText(e, k);
    FlushTimer(e, k);
    KeptPhases(e.turns, Flush(e, k).turns, e.order, e.snap, k);
  }

  lemma FlushReady(e: E, k: Key)
    requires Ready(e, k)
    ensures var e' := Flush(e, k);
      && Keeps(e, e', k) && e'.turns[k].buf == [] && KeptSt(e.turns[k], e'.turns[k]) && e'.snap == e.snap
  {
    FlushGood(e, k);
  }

  /** Dropping an entry that holds no text, or changing one that holds none into another that holds none. */
  lemma EmptyText(e: E, e': E, k: Key)
    requires TextOk(e) && (k in e.turns ==> e.turns[k].buf == []) && (k in e'.turns ==> e'.turns[k].buf == [])
    requires e'.trace == e.trace && e'.ids == e.ids
    requires forall j :: j != k ==> (j in e'.turns <==> j in e.turns)
    requires forall j :: j != k && j in e.turns ==> e'.turns[j] == e.turns[j]
    requires forall q, m :: HasLane(e'.turns, k, q, m) ==> HasLane(e.turns, k, q, m)
    ensures TextOk(e')
  {
    forall j ensures SameBuf(e.turns, e'.turns, j) {
    }
    ReshapedText(e, e', k, "");
  }

  lemma ReleaseGood(e: E, k: Key)
    requires Good(e)
    ensures Good(Release(e, k)) && Release(e, k).trace == e.trace && Release(e, k).snap == e.snap
    ensures forall j :: j in Release(e, k).turns ==> j in e.turns && Release(e, k).turns[j] == e.turns[j]
  {
    var e' := Release(e, k);
    if e' != e {
      EmptyText(e, e', k);
      assert PhaseStOk(e.turns[k], e.order);
      forall j ensures PhaseView(e'.turns, j) == PhaseView(e.turns, j) {
      }
      forall j | j in e'.turns && e'.turns[j].phase != Quiet ensures e'.turns[j].main.Some? {
        assert PhaseStOk(e.turns[j], e.order);
      }
      SamePhases(e.turns, e'.turns, e.order, e.snap);
    }
  }

  /** Only the phase of k's entry changed. */
  lemma RephasedText(e: E, e': E, k: Key, phase: Phase, order: nat)
    requires TextOk(e) && k in e.turns && e'.trace == e.trace && e'.ids == e.ids
    requires e'.turns == e.turns[k := e.turns[k].(phase := phase, order := order)]
    ensures TextOk(e')
  {
    forall j ensures SameBuf(e.turns, e'.turns, j) {
    }
    forall j, q, m | HasLane(e'.turns, j, q, m) ensures HasLane(e.turns, j, q, m) {
    }
    ReshapedText(e, e', k, "");
  }

  lemma ActivateText(e: E, k: Key, phase: Phase)
    requires Ready(e, k) && e.turns[k].main.Some? && phase != Quiet
    requires e.turns[k].buf == [] || Shown(e.snap, k.conv) == phase
    ensures TextOk(Activate(e, k, phase)) && (InOrder(e.trace) ==> InOrder(Activate(e, k, phase).trace))
  {
    ActivateTrace(e, k, phase);
    var e' := Activate(e, k, phase);
    var e1 := e'.(trace := e.trace);
    RephasedText(e, e1, k, phase, e.order + 1);
    if Shown(e.snap, k.conv) != phase {
      ReadySettled(e, k);
      LogText(e1, PhaseFrame(k.conv, phase));
      assert Log(e1, PhaseFrame(k.conv, phase)) == e';
    } else {
      assert e1 == e';
    }
  }

  /** Announcing changes nothing but the conversation's own shown phase and the trace. */
  lemma AnnounceElsewhere(e: E, c: string, previous: Phase)
    ensures var e' := Announce(e, c, previous);
      && e'.turns == e.turns && e'.timer == e.timer && e'.clock == e.clock && e'.ids == e.ids
      && (forall d :: d != c ==> Shown(e'.snap, d) == Shown(e.snap, d))
  {
  }

  lemma RephasedRest(turns: map<Key, St>, snap: map<string, Phase>, snap': map<string, Phase>, timer: Option<nat>, clock: nat, k: Key, st: St)
    requires k in turns && OnlyHolder(turns, k.conv, k) && RespOk(turns, snap) && TimerOk(turns, timer, clock)
    requires st.buf == turns[k].buf && st.since == turns[k].since
    requires forall d :: d != k.conv ==> Shown(snap', d) == Shown(snap, d)
    requires st.buf != [] && st.parent == "" ==> Shown(snap', k.conv) == Responding
    ensures RespOk(turns[k := st], snap') && TimerOk(turns[k := st], timer, clock) && OnlyHolder(turns[k := st], k.conv, k)
  {
    var turns' := turns[k := st];
    forall j | j in turns' && turns'[j].buf != [] && turns'[j].parent == "" ensures Shown(snap', j.conv) == Responding {
      if j != k {
        assert j.conv != k.conv && Shown(snap, j.conv) == Responding;
      }
    }
  }

  lemma ActivateElsewhere(e: E, k: Key, phase: Phase)
    requires k in e.turns
    ensures var e' := Activate(e, k, phase);
      && e'.turns == e.turns[k := e.turns[k].(phase := phase, order := e.order + 1)]
      && e'.timer == e.timer && e'.clock == e.clock
      && (forall d :: d != k.conv ==> Shown(e'.snap, d) == Shown(e.snap, d))
  {
    var e1 := Put(e, k, e.turns[k].(phase := phase, order := e.order + 1)).(order := e.order + 1);
    var previous := Projected(e.turns, k.conv);
    assert Activate(e, k, phase) == Announce(e1, k.conv, previous);
    AnnounceElsewhere(e1, k.conv, previous);
  }

  lemma ActivateReady(e: E, k: Key, phase: Phase)
    requires Ready(e, k) && e.turns[k].main.Some? && phase != Quiet
    requires e.turns[k].buf == [] || Shown(e.snap, k.conv) == phase
    ensures var e' := Activate(e, k, phase);
      && Keeps(e, e', k) && Shown(e'.snap, k.conv) == phase
      && e'.turns[k] == e.turns[k].(phase := phase, order := e.order + 1)
  {
    ActivateText(e, k, phase);
    ActivatePhases(e, k, phase);
    ActivateElsewhere(e, k, phase);
    RephasedRest(e.turns, e.snap, Activate(e, k, phase).snap, e.timer, e.clock, k, e.turns[k].(phase := phase, order := e.order + 1));
  }

  lemma EndText(e: E, k: Key)
    requires Ready(e, k) && e.turns[k].buf == []
    ensures TextOk(EndTurn(e, k)) && (InOrder(e.trace) ==> InOrder(EndTurn(e, k).trace))
  {
    EndPhases(e, k);
    var e' := EndTurn(e, k);
    var e1 := e'.(trace := e.trace);
    EmptyText(e, e1, k);
    if e'.trace != e.trace {
      var item := PhaseFrame(k.conv, Projected(e'.turns, k.conv));
      ReadySettled(e, k);
      LogText(e1, item);
      assert Log(e1, item) == e';
    } else {
      assert e1 == e';
    }
  }

  lemma EndReady(e: E, k: Key)
    requires Ready(e, k) && e.turns[k].buf == []
    ensures Keeps(e, EndTurn(e, k), k) && EndTurn(e, k).turns[k].buf == []
  {
    EndText(e, k);
    EndPhases(e, k);
    var st := e.turns[k].(main := None, phase := Quiet, order := 0);
    AnnounceElsewhere(Put(e, k, st), k.conv, Projected(e.turns, k.conv));
    RephasedRest(e.turns, e.snap, EndTurn(e, k).snap, e.timer, e.clock, k, st);
  }

  // ---------------------------------------------------------------- taking text in

  lemma ArriveMeasures(trace: seq<Item>, conv: string, lane: nat, text: Bytes)
    ensures var trace' := trace + [Arrive(conv, lane, text)];
      && (forall c :: Emitted(trace', c) == Emitted(trace, c))
      && (forall c :: Arrived(trace', c) == Arrived(trace, c) + (if c == conv then Label(lane, text) else []))
      && (forall l: nat :: Count(trace', l) == Count(trace, l))
      && (ValidArrivals(trace') <==> ValidArrivals(trace) && ValidUtf8(text))
      && (Numbered(trace') <==> Numbered(trace)) && (InOrder(trace') <==> InOrder(trace))
  {
    var item := Arrive(conv, lane, text);
    forall c, l: nat
      ensures Emitted(trace + [item], c) == Emitted(trace, c)
      ensures Arrived(trace + [item], c) == Arrived(trace, c) + (if c == conv then Label(lane, text) else [])
      ensures Count(trace + [item], l) == Count(trace, l)
    {
      TraceSnoc(trace, item, c, l);
    }
    GoodSnoc(trace, item);
  }

  lemma Reassociate(sent: seq<(nat, Byte)>, held: seq<(nat, Byte)>, more: seq<(nat, Byte)>, arrived: seq<(nat, Byte)>)
    requires sent + held == arrived
    ensures sent + (held + more) == arrived + more
  {
  }

  lemma TakeEquation(turns: map<Key, St>, trace: seq<Item>, k: Key, st: St, lane: Lane, text: Bytes)
    requires StreamOk(turns, trace) && k in turns && OnlyHolder(turns, k.conv, k)
    requires LaneAt(st, st.parent) == Some(lane) && st.buf == turns[k].buf + text
    requires turns[k].buf != [] ==> Held(turns[k]) == Label(lane.id, turns[k].buf)
    ensures Emitted(trace, k.conv) + Held(st) == Arrived(trace, k.conv) + Label(lane.id, text)
  {
    var held := Label(lane.id, turns[k].buf);
    LabelConcat(lane.id, turns[k].buf, text);
    if turns[k].buf == [] {
      assert NoHolder(turns, k.conv);
      assert held == [];
    }
    Reassociate(Emitted(trace, k.conv), held, Label(lane.id, text), Arrived(trace, k.conv));
  }

  lemma TakeStream(turns: map<Key, St>, trace: seq<Item>, trace': seq<Item>, k: Key, st: St, lane: Lane, text: Bytes)
    requires StreamOk(turns, trace) && k in turns && OnlyHolder(turns, k.conv, k) && trace' == trace + [Arrive(k.conv, lane.id, text)]
    requires LaneAt(st, st.parent) == Some(lane) && st.buf == turns[k].buf + text
    requires turns[k].buf != [] ==> Held(turns[k]) == Label(lane.id, turns[k].buf)
    ensures StreamOk(turns[k := st], trace')
  {
    var turns' := turns[k := st];
    ArriveMeasures(trace, k.conv, lane.id, text);
    TakeEquation(turns, trace, k, st, lane, text);
    forall j | j in turns' && turns'[j].buf != []
      ensures OnlyHolder(turns', j.conv, j) && Emitted(trace', j.conv) + Held(turns'[j]) == Arrived(trace', j.conv)
    {
      if j != k {
        assert j.conv != k.conv && OnlyHolder(turns, j.conv, j);
      }
    }
    forall c | NoHolder(turns', c) ensures Settled(trace', c) {
      if c == k.conv {
        assert st.buf == [];
      } else {
        assert NoHolder(turns, c);
      }
    }
  }

  lemma TakeBufs(turns: map<Key, St>, trace: seq<Item>, trace': seq<Item>, k: Key, st: St, text: Bytes)
    requires BufOk(turns, trace) && k in turns && LaneAt(st, st.parent).Some? && st.buf == turns[k].buf + text
    requires ValidArrivals(trace') ==> ValidArrivals(trace) && ValidUtf8(text)
    ensures BufOk(turns[k := st], trace')
  {
    if ValidArrivals(trace') {
      assert ValidUtf8(turns[k].buf);
      ConcatValid(turns[k].buf, text);
    }
  }

  lemma TakeLanes(turns: map<Key, St>, ids: nat, trace: seq<Item>, trace': seq<Item>, k: Key, st: St)
    requires LanesOk(turns, ids, trace) && k in turns && st.main == turns[k].main && st.lanes == turns[k].lanes
    requires forall l: nat :: Count(trace', l) == Count(trace, l)
    ensures LanesOk(turns[k := st], ids, trace')
  {
    var turns' := turns[k := st];
    forall j, q, m ensures HasLane(turns', j, q, m) <==> HasLane(turns, j, q, m) {
    }
    forall j, q, m | HasLane(turns', j, q, m) ensures LaneOk(trace', ids, m) {
      assert HasLane(turns, j, q, m) && LaneOk(trace, ids, m);
    }
  }

  lemma TakeTimer(turns: map<Key, St>, timer: Option<nat>, clock: nat, k: Key, st: St)
    requires TimerOk(turns, timer, clock) && k in turns
    requires st.since == (if turns[k].buf == [] then clock else turns[k].since)
    ensures TimerOk(turns[k := st], if turns[k].buf == [] && !AnyBuffered(turns) then Some(clock + WINDOW) else timer, clock)
  {
    if AnyBuffered(turns) {
      var j :| j in turns && turns[j].buf != [];
      assert timer.Some? && timer.value <= turns[j].since + WINDOW && turns[j].since <= clock;
    }
  }

  lemma TakePhases(turns: map<Key, St>, limit: nat, snap: map<string, Phase>, k: Key, st: St)
    requires PhaseOk(turns, limit) && SnapOk(turns, snap) && k in turns
    requires st.phase == turns[k].phase && st.order == turns[k].order && st.main == turns[k].main
    ensures PhaseOk(turns[k := st], limit) && SnapOk(turns[k := st], snap)
  {
    var turns' := turns[k := st];
    forall j ensures PhaseView(turns', j) == PhaseView(turns, j) {
    }
    forall j | j in turns' && turns'[j].phase != Quiet ensures turns'[j].main.Some? {
      assert PhaseStOk(turns[j], limit);
    }
    SamePhases(turns, turns', limit, snap);
  }

  function Taken(e: E, st: St, parent: string, msg: string, text: Bytes): St {
    st.(buf := st.buf + text, msg := msg, parent := parent, since := if st.buf == [] then e.clock else st.since)
  }

  lemma TakeText(e: E, k: Key, parent: string, msg: string, text: Bytes)
    requires TextOk(e) && k in e.turns && OnlyHolder(e.turns, k.conv, k) && LaneAt(e.turns[k], parent).Some?
    requires e.turns[k].buf == [] || parent == e.turns[k].parent
    ensures TextOk(Take(e, k, parent, msg, text)) && (InOrder(e.trace) ==> InOrder(Take(e, k, parent, msg, text).trace))
  {
    var lane, st' := LaneAt(e.turns[k], parent).value, Taken(e, e.turns[k], parent, msg, text);
    var trace' := e.trace + [Arrive(k.conv, lane.id, text)];
    ArriveMeasures(e.trace, k.conv, lane.id, text);
    TakeStream(e.turns, e.trace, trace', k, st', lane, text);
    TakeBufs(e.turns, e.trace, trace', k, st', text);
    TakeLanes(e.turns, e.ids, e.trace, trace', k, st');
  }

  lemma TakeRest(e: E, k: Key, parent: string, msg: string, text: Bytes)
    requires k in e.turns && OnlyHolder(e.turns, k.conv, k) && RespOk(e.turns, e.snap) && TimerOk(e.turns, e.timer, e.clock)
    requires parent == "" ==> Shown(e.snap, k.conv) == Responding
    ensures var e' := Take(e, k, parent, msg, text);
      k in e'.turns && RespOk(e'.turns, e'.snap) && TimerOk(e'.turns, e'.timer, e'.clock) && OnlyHolder(e'.turns, k.conv, k)
  {
    TakeTimer(e.turns, e.timer, e.clock, k, Taken(e, e.turns[k], parent, msg, text));
  }

  lemma TakeReady(e: E, k: Key, parent: string, msg: string, text: Bytes)
    requires Ready(e, k) && LaneAt(e.turns[k], parent).Some?
    requires e.turns[k].buf == [] || parent == e.turns[k].parent
    requires parent == "" ==> Shown(e.snap, k.conv) == Responding
    ensures Keeps(e, Take(e, k, parent, msg, text), k)
  {
    TakeText(e, k, parent, msg, text);
    TakeRest(e, k, parent, msg, text);
    TakePhases(e.turns, e.order, e.snap, k, Taken(e, e.turns[k], parent, msg, text));
  }

  // ---------------------------------------------------------------- complete child text

  lemma CompleteStream(turns: map<Key, St>, turns': map<Key, St>, trace: seq<Item>, mid: seq<Item>, trace': seq<Item>, k: Key, lane: nat, text: Bytes, n: nat)
    requires StreamOk(turns, trace) && BufOk(turns, trace) && k in turns && OnlyHolder(turns, k.conv, k) && turns[k].buf == []
    requires mid == trace + [Arrive(k.conv, lane, text)] && Sends(mid, trace', k.conv, lane, text, n)
    requires turns'.Keys == turns.Keys && turns'[k].buf == [] && forall j :: j in turns && j != k ==> turns'[j] == turns[j]
    ensures StreamOk(turns', trace') && BufOk(turns', trace')
  {
    ArriveMeasures(trace, k.conv, lane, text);
    assert NoHolder(turns, k.conv);
    forall j | j in turns' && turns'[j].buf != []
      ensures OnlyHolder(turns', j.conv, j) && Emitted(trace', j.conv) + Held(turns'[j]) == Arrived(trace', j.conv)
    {
      assert j.conv != k.conv && OnlyHolder(turns, j.conv, j);
    }
    forall c | NoHolder(turns', c) ensures Settled(trace', c) {
      assert NoHolder(turns, c);
    }
  }

  lemma CompleteText(e: E, k: Key, parent: string, text: Bytes)
    requires TextOk(e) && k in e.turns && OnlyHolder(e.turns, k.conv, k) && e.turns[k].buf == [] && LaneAt(e.turns[k], parent).Some?
    ensures TextOk(Completed(e, k, parent, text)) && (InOrder(e.trace) ==> InOrder(Completed(e, k, parent, text).trace))
  {
    var lane, n := LaneAt(e.turns[k], parent).value, |Split(text, MAX_DELTA_TEXT_BYTES)|;
    var mid := e.trace + [Arrive(k.conv, lane.id, text)];
    var trace' := Sent(mid, k.conv, lane, text);
    assert HasLane(e.turns, k, parent, lane) && LaneOk(e.trace, e.ids, lane);
    ArriveMeasures(e.trace, k.conv, lane.id, text);
    SentOk(mid, k.conv, lane, text);
    TakeLanes(e.turns, e.ids, e.trace, mid, k, e.turns[k]);
    assert e.turns[k := e.turns[k]] == e.turns;
    SendLanes(e.turns, e.ids, mid, trace', k, parent, lane, text, n);
    CompleteStream(e.turns, e.turns[k := Advance(e.turns[k], parent, n)], e.trace, mid, trace', k, lane.id, text, n);
  }

  lemma AdvanceSt(st: St, p: string, n: nat)
    ensures KeptSt(st, Advance(st, p, n)) && Advance(st, p, n).buf == st.buf && Advance(st, p, n).since == st.since
  {
  }

  lemma CompleteKeeps(e: E, k: Key, parent: string, text: Bytes)
    requires Ready(e, k) && e.turns[k].buf == [] && LaneAt(e.turns[k], parent).Some?
    ensures Keeps(e, Completed(e, k, parent, text), k)
  {
    var st' := Advance(e.turns[k], parent, |Split(text, MAX_DELTA_TEXT_BYTES)|);
    AdvanceSt(e.turns[k], parent, |Split(text, MAX_DELTA_TEXT_BYTES)|);
    CompleteText(e, k, parent, text);
    KeptPhases(e.turns, e.turns[k := st'], e.order, e.snap, k);
    RephasedRest(e.turns, e.snap, e.snap, e.timer, e.clock, k, st');
  }

  lemma CompletedTrace(e: E, k: Key, parent: string, text: Bytes, lane: Lane)
    requires k in e.turns && LaneAt(e.turns[k], parent) == Some(lane)
    ensures var e', parts := Completed(e, k, parent, text), Split(text, MAX_DELTA_TEXT_BYTES);
      && e'.trace == e.trace + [Arrive(k.conv, lane.id, text)] + Deltas(k.conv, lane.id, lane.next, parts)
      && e'.turns == e.turns[k := Advance(e.turns[k], parent, |parts|)]
  {
  }

  /** A complete child block goes out whole and at once: exactly its pieces, numbered on from the lane's counter. */
  lemma CompleteGoesOut(e: E, k: Key, parent: string, text: Bytes, lane: Lane)
    requires k in e.turns && LaneAt(e.turns[k], parent) == Some(lane)
    ensures var e', parts := Completed(e, k, parent, text), Split(text, MAX_DELTA_TEXT_BYTES);
      && e'.trace == e.trace + [Arrive(k.conv, lane.id, text)] + Deltas(k.conv, lane.id, lane.next, parts)
      && Join(parts) == text && k in e'.turns
      && LaneAt(e'.turns[k], parent) == Some(Lane(lane.id, lane.next + |parts|)) && e'.turns[k].buf == e.turns[k].buf
  {
    var n := |Split(text, MAX_DELTA_TEXT_BYTES)|;
    CompletedTrace(e, k, parent, text, lane);
    assert Join(Split(text, MAX_DELTA_TEXT_BYTES)) == text by { SplitRebuilds(text, MAX_DELTA_TEXT_BYTES); }
    AdvanceLanes(e.turns[k], parent, n, parent);
    AdvanceSt(e.turns[k], parent, n);
  }

  // ---------------------------------------------------------------- every event

  lemma FrameReady(e: E, k: Key, turn: nat)
    requires Ready(e, k) && e.turns[k].buf == []
    ensures Keeps(e, EmitFrame(e, k, turn), k) && EmitFrame(e, k, turn).turns == e.turns
  {
    LogReady(e, k, Frame(k.conv, turn));
  }

  lemma FlushFrame(e: E, k: Key, turn: nat)
    requires Ready(e, k)
    ensures var e' := EmitFrame(Flush(e, k), k, turn); Keeps(e, e', k) && KeptSt(e.turns[k], e'.turns[k]) && e'.turns[k].buf == []
  {
    FlushReady(e, k);
    FrameReady(Flush(e, k), k, turn);
  }

  lemma FixedReady(e: E, k: Key, parent: string, tool: string, minted: bool)
    requires Ready(e, k)
    ensures Keeps(e, FixedOrigin(e, k, parent, tool, minted).0, k)
  {
    var launched := At(e.turns[k].launchers, parent);
    if launched == 0 {
      EnsureReady(e, k, parent, minted);
    }
    var (e1, ok) := if launched != 0 then (e, true) else EnsureLane(e, k, parent, minted);
    if ok {
      var lane := LaneAt(Get(e1, k), parent);
      FixOrigin(e1, k, tool, if launched != 0 then launched else if lane.Some? then lane.value.id else 0);
    }
  }

  lemma ChildToolReady(e: E, k: Key, parent: string, tool: string, minted: bool)
    requires Ready(e, k)
    ensures Keeps(e, ChildTool(e, k, parent, tool, minted).0, k)
  {
    var known := At(e.turns[k].childTools, tool);
    if known != 0 {
      FlushFrame(e, k, known);
    } else {
      FixedReady(e, k, parent, tool, minted);
      var (e1, origin, ok) := FixedOrigin(e, k, parent, tool, minted);
      if ok {
        FlushFrame(e1, k, origin);
      }
    }
  }

  lemma FixOrigin(e: E, k: Key, tool: string, origin: nat)
    requires Ready(e, k)
    ensures Keeps(e, Put(e, k, Get(e, k).(childTools := Get(e, k).childTools[tool := origin])), k)
  {
    var st := e.turns[k].(childTools := e.turns[k].childTools[tool := origin]);
    RetainsReady(e, Put(e, k, st), k, st, "");
  }

  lemma CompleteEventReady(e: E, k: Key, ev: Event, mintTurn: bool, mintLane: bool)
    requires Ready(e, k) && ev.Text? && ev.complete && ev.parent != ""
    ensures Keeps(e, HandleText(e, k, ev, mintTurn, mintLane), k)
  {
    FlushReady(e, k);
    var e1 := Flush(e, k);
    EnsureReady(e1, k, ev.parent, mintLane);
    var (e2, ok) := EnsureLane(e1, k, ev.parent, mintLane);
    if ok {
      CompleteKeeps(e2, k, ev.parent, ev.text);
    }
  }

  /** A chunk after the boundary flush and the lane are settled. */
  lemma ChunkReady(e: E, k: Key, ev: Event)
    requires Ready(e, k) && ev.Text? && LaneAt(e.turns[k], ev.parent).Some?
    requires e.turns[k].buf == [] || ev.parent == e.turns[k].parent
    ensures Keeps(e, Take(if ev.parent == "" then Activate(e, k, Responding) else e, k, ev.parent, ev.msg, ev.text), k)
  {
    if ev.parent == "" {
      ActivateReady(e, k, Responding);
      TakeReady(Activate(e, k, Responding), k, ev.parent, ev.msg, ev.text);
    } else {
      TakeReady(e, k, ev.parent, ev.msg, ev.text);
    }
  }

  lemma AddTextReady(e: E, k: Key, ev: Event, mintLane: bool)
    requires Ready(e, k) && ev.Text? && (ev.parent == "" ==> e.turns[k].main.Some?)
    ensures Keeps(e, AddText(e, k, ev, mintLane), k)
  {
    var st := e.turns[k];
    FlushReady(e, k);
    var e1 := if st.buf != [] && (ev.parent != st.parent || ev.msg != st.msg) then Flush(e, k) else e;
    EnsureReady(e1, k, ev.parent, mintLane);
    var (e2, ok) := EnsureLane(e1, k, ev.parent, mintLane);
    if ok {
      ChunkReady(e2, k, ev);
    }
  }

  lemma TextEventReady(e: E, k: Key, ev: Event, mintTurn: bool, mintLane: bool)
    requires Ready(e, k) && ev.Text? && !(ev.complete && ev.parent != "")
    ensures Keeps(e, HandleText(e, k, ev, mintTurn, mintLane), k)
  {
    StartReady(e, k, mintTurn);
    var (e1, ok) := if ev.parent == "" then StartTurn(e, k, mintTurn) else (e, true);
    if ok {
      AddTextReady(e1, k, ev, mintLane);
    }
  }

  /** Opening the turn, flushing and activating: the shared head of the content events. */
  lemma OpenReady(e: E, k: Key, minted: bool, phase: Phase)
    requires Ready(e, k) && phase != Quiet
    ensures var (e1, ok) := StartTurn(e, k, minted);
      && Keeps(e, e1, k)
      && (ok ==> var e2 := Activate(Flush(e1, k), k, phase); Keeps(e, e2, k) && e2.turns[k].buf == [])
  {
    StartReady(e, k, minted);
    var (e1, ok) := StartTurn(e, k, minted);
    if ok {
      FlushReady(e1, k);
      ActivateReady(Flush(e1, k), k, phase);
    }
  }

  lemma MainToolReady(e: E, k: Key, ev: Event, mintTurn: bool, mintLane: bool)
    requires Ready(e, k) && (ev.ToolStart? || ev.ToolUpdate?) && ev.parent == ""
    ensures Keeps(e, HandleEvent(e, k, ev, mintTurn, mintLane), k)
  {
    OpenReady(e, k, mintTurn, Responding);
    var (e1, ok) := StartTurn(e, k, mintTurn);
    if ok {
      var e2 := Activate(Flush(e1, k), k, Responding);
      var turn := TurnId(Get(e2, k));
      if ev.ToolStart? {
        RememberReady(e2, k, ev.tool, ev.launcher, turn);
        FrameReady(Remember(e2, k, ev.tool, ev.launcher, turn), k, turn);
      } else {
        FrameReady(e2, k, turn);
      }
    }
  }

  lemma ToolReady(e: E, k: Key, ev: Event, mintTurn: bool, mintLane: bool)
    requires Ready(e, k) && (ev.ToolStart? || ev.ToolUpdate?)
    ensures Keeps(e, HandleEvent(e, k, ev, mintTurn, mintLane), k)
  {
    if ev.parent != "" {
      ChildToolReady(e, k, ev.parent, ev.tool, mintLane);
      var (e1, origin) := ChildTool(e, k, ev.parent, ev.tool, mintLane);
      if ev.ToolStart? {
        RememberReady(e1, k, ev.tool, ev.launcher, origin);
      }
    } else {
      MainToolReady(e, k, ev, mintTurn, mintLane);
    }
  }

  lemma ThinkReady(e: E, k: Key, ev: Event, mintTurn: bool, mintLane: bool)
    requires Ready(e, k) && (ev.Thought? || ev.Progress?)
    ensures Keeps(e, HandleEvent(e, k, ev, mintTurn, mintLane), k)
  {
    if !ev.child {
      OpenReady(e, k, mintTurn, Thinking);
      var (e1, ok) := StartTurn(e, k, mintTurn);
      if ok && ev.Progress? {
        var e2 := Activate(Flush(e1, k), k, Thinking);
        FrameReady(e2, k, TurnId(Get(e2, k)));
      }
    }
  }

  lemma ToolMarkReady(e: E, k: Key, tool: string, mintTurn: bool, mintLane: bool)
    requires Ready(e, k)
    ensures Keeps(e, HandleEvent(e, k, ToolMark(tool), mintTurn, mintLane), k)
  {
    var origin := At(e.turns[k].childTools, tool);
    if origin != 0 {
      FlushFrame(e, k, origin);
    } else {
      StartReady(e, k, mintTurn);
      var (e1, ok) := StartTurn(e, k, mintTurn);
      if ok {
        FlushFrame(e1, k, TurnId(e1.turns[k]));
      }
    }
  }

  lemma EndBehind(e: E, mid: E, k: Key)
    requires Keeps(e, mid, k) && mid.turns[k].buf == []
    ensures Keeps(e, EndTurn(mid, k), k)
  {
    EndReady(mid, k);
  }

  lemma EndArmReady(e: E, k: Key)
    requires Ready(e, k)
    ensures Keeps(e, FrameAndEnd(e, k), k)
  {
    FlushFrame(e, k, TurnId(Get(e, k)));
    EndBehind(e, EmitFrame(Flush(e, k), k, TurnId(Get(e, k))), k);
  }

  lemma EventReady(e: E, k: Key, ev: Event, mintTurn: bool, mintLane: bool)
    requires Ready(e, k)
    ensures Keeps(e, HandleEvent(e, k, ev, mintTurn, mintLane), k)
  {
    match ev {
      case Thought(_) => ThinkReady(e, k, ev, mintTurn, mintLane);
      case Progress(_) => ThinkReady(e, k, ev, mintTurn, mintLane);
      case Text(_, _, _, _) =>
        if ev.complete && ev.parent != "" {
          CompleteEventReady(e, k, ev, mintTurn, mintLane);
        } else {
          TextEventReady(e, k, ev, mintTurn, mintLane);
        }
      case ToolStart(_, _, _) => ToolReady(e, k, ev, mintTurn, mintLane);
      case ToolUpdate(_, _) => ToolReady(e, k, ev, mintTurn, mintLane);
      case ToolMark(tool) => ToolMarkReady(e, k, tool, mintTurn, mintLane);
      case TurnEnd => EndArmReady(e, k);
      case Status => FlushFrame(e, k, TurnId(e.turns[k]));
      case Silent =>
    }
  }

  // ---------------------------------------------------------------- runs

  /** Visiting sources flushes the listed ones and leaves the rest as they were. */
  lemma {:induction false} FlushEachGood(e: E, keys: seq<Key>)
    requires Good(e)
    ensures var e' := FlushEach(e, keys);
      && Good(e') && (InOrder(e.trace) ==> InOrder(e'.trace)) && e'.clock == e.clock && e'.snap == e.snap
      && (forall j :: j in e'.turns ==> j in e.turns)
      && (forall j :: j in e'.turns && e'.turns[j].buf != [] ==> j !in keys && e'.turns[j] == e.turns[j])
  {
    if keys != [] {
      var n := |keys| - 1;
      FlushEachGood(e, keys[..n]);
      FlushOneGood(FlushEach(e, keys[..n]), keys[n]);
      assert keys == keys[..n] + [keys[n]];
    }
  }

  lemma FlushOneGood(e: E, k: Key)
    requires Good(e)
    ensures var e' := if Buffered(e, k) then Release(Flush(e, k), k) else e;
      && Good(e') && (InOrder(e.trace) ==> InOrder(e'.trace)) && e'.clock == e.clock && e'.snap == e.snap
      && (forall j :: j in e'.turns ==> j in e.turns)
      && (forall j :: j in e'.turns && e'.turns[j].buf != [] ==> j != k && e'.turns[j] == e.turns[j])
  {
    FlushGood(e, k);
    ReleaseGood(Flush(e, k), k);
  }

  lemma BlankGood(e: E, k: Key)
    requires Good(e) && k !in e.turns
    ensures Good(Put(e, k, BLANK))
  {
    var e' := Put(e, k, BLANK);
    EmptyText(e, e', k);
    forall j ensures PhaseView(e'.turns, j) == PhaseView(e.turns, j) {
    }
    forall j | j in e'.turns && e'.turns[j].phase != Quiet ensures e'.turns[j].main.Some? {
      assert j != k && PhaseStOk(e.turns[j], e.order);
    }
    SamePhases(e.turns, e'.turns, e.order, e.snap);
  }

  /** Every event of every source keeps the whole invariant and sends nothing ahead of text that arrived before it. */
  lemma HandleGood(e: E, k: Key, ev: Event, visit: seq<Key>, mintTurn: bool, mintLane: bool)
    requires Good(e) && Lists(visit, Others(e, k))
    ensures var e' := Handle(e, k, ev, visit, mintTurn, mintLane); Good(e') && (InOrder(e.trace) ==> InOrder(e'.trace))
  {
    FlushEachGood(e, visit);
    HandleSelects(e, k, visit);
    var e1 := FlushEach(e, visit);
    var e2 := if k in e1.turns then e1 else Put(e1, k, BLANK);
    EventReady(e2, k, ev, mintTurn, mintLane);
    ReleaseGood(HandleEvent(e2, k, ev, mintTurn, mintLane), k);
  }

  lemma FireGood(e: E, visit: seq<Key>)
    requires Good(e) && Lists(visit, e.turns.Keys)
    ensures Good(Fire(e, visit)) && (InOrder(e.trace) ==> InOrder(Fire(e, visit).trace)) && !AnyBuffered(Fire(e, visit).turns)
  {
    FlushEachGood(e, visit);
  }

  // ---------------------------------------------------------------- closing a conversation

  /** The invariant without its clause on main text, which a closing conversation gives up source by source. */
  ghost predicate Calm(e: E) {
    TextOk(e) && PhaseOk(e.turns, e.order) && SnapOk(e.turns, e.snap) && TimerOk(e.turns, e.timer, e.clock)
  }

  lemma FlushCalm(e: E, k: Key)
    requires Calm(e)
    ensures var e' := Flush(e, k);
      Calm(e') && Kept(e, e', k) && Get(e', k).buf == [] && (InOrder(e'.trace) <==> InOrder(e.trace)) && e.trace <= e'.trace
  {
    FlushText(e, k);
    KeptPhases(e.turns, Flush(e, k).turns, e.order, e.snap, k);
    FlushGrows(e, k);
    var e' := Flush(e, k);
    forall j | j in e'.turns && e'.turns[j].buf != [] ensures e'.turns[j] == e.turns[j] && e'.timer == e.timer {
      assert AnyBuffered(e'.turns);
    }
  }

  lemma FlushGrows(e: E, k: Key)
    ensures e.trace <= Flush(e, k).trace && (InOrder(Flush(e, k).trace) ==> InOrder(e.trace))
  {
    var trace' := Flush(e, k).trace;
    assert trace' == e.trace + trace'[|e.trace|..];
    InOrderPrefix(e.trace, trace'[|e.trace|..]);
  }

  lemma {:induction false} InOrderPrefix(trace: seq<Item>, rest: seq<Item>)
    ensures InOrder(trace + rest) ==> InOrder(trace)
  {
    if rest == [] {
      assert trace + rest == trace;
    } else {
      var n := |rest| - 1;
      InOrderPrefix(trace, rest[..n]);
      GoodSnoc(trace + rest[..n], rest[n]);
      assert trace + rest == trace + rest[..n] + [rest[n]];
    }
  }

  /** While a source of c holds text, something that arrived has not been sent. */
  lemma HolderUnsettled(turns: map<Key, St>, trace: seq<Item>, c: string)
    requires StreamOk(turns, trace) && BufOk(turns, trace)
    ensures Settled(trace, c) <==> NoHolder(turns, c)
  {
    if j :| j in turns && j.conv == c && turns[j].buf != [] {
      assert |Held(turns[j])| == |turns[j].buf|;
      assert |Emitted(trace, c) + Held(turns[j])| == |Arrived(trace, c)|;
    }
  }

  lemma AnnounceText(e: E, c: string, previous: Phase, now: Phase)
    requires TextOk(e)
    ensures TextOk(AnnounceAs(e, c, previous, now))
  {
    var e1 := e.(snap := if now == Quiet then e.snap - {c} else e.snap[c := now]);
    LogText(e1, PhaseFrame(c, now));
  }

  lemma EndCalmText(e: E, k: Key, now: Phase, previous: Phase)
    requires TextOk(e) && k in e.turns && e.turns[k].buf == []
    ensures TextOk(AnnounceAs(Put(e, k, e.turns[k].(main := None, phase := Quiet, order := 0)), k.conv, previous, now))
  {
    var e1 := Put(e, k, e.turns[k].(main := None, phase := Quiet, order := 0));
    EmptyText(e, e1, k);
    AnnounceText(e1, k.conv, previous, now);
  }

  lemma EndCalm(e: E, k: Key)
    requires Calm(e) && k in e.turns && e.turns[k].buf == []
    ensures Calm(EndTurn(e, k)) && EndTurn(e, k).turns == e.turns[k := e.turns[k].(main := None, phase := Quiet, order := 0)]
  {
    var e1 := Put(e, k, e.turns[k].(main := None, phase := Quiet, order := 0));
    EndPhases(e, k);
    EndCalmText(e, k, Projected(e1.turns, k.conv), Projected(e.turns, k.conv));
  }

  function Blanked(e: E, k: Key): E {
    Release(Put(e, k, Get(e, k).(lanes := map[], launchers := map[], childTools := map[])), k)
  }

  lemma BlankedCalm(e: E, k: Key)
    requires Calm(e) && k in e.turns && e.turns[k].buf == [] && e.turns[k].main.None?
    ensures Calm(Blanked(e, k)) && Blanked(e, k) == e.(turns := e.turns - {k})
  {
    var e' := Blanked(e, k);
    assert e'.turns == e.turns - {k};
    EmptyText(e, e', k);
    assert PhaseStOk(e.turns[k], e.order);
    forall j ensures PhaseView(e'.turns, j) == PhaseView(e.turns, j) {
    }
    forall j | j in e'.turns && e'.turns[j].phase != Quiet ensures e'.turns[j].main.Some? {
      assert PhaseStOk(e.turns[j], e.order);
    }
    SamePhases(e.turns, e'.turns, e.order, e.snap);
  }

  /** Closing the source announces something: its turn was open, and the projection is idle or has changed. */
  ghost predicate Announces(turns: map<Key, St>, k: Key)
    requires k in turns
  {
    turns[k].main.Some? && (Projected(turns - {k}, k.conv) == Quiet || Projected(turns - {k}, k.conv) != Projected(turns, k.conv))
  }

  /** One source's closing: it is gone, its text is out, and it announced the remaining projection or nothing. */
  ghost predicate ClosedOne(e: E, e': E, k: Key) {
    && k in e.turns && e'.turns == e.turns - {k} && e'.order == e.order && e'.clock == e.clock && e.trace <= e'.trace
    && (forall d :: d != k.conv ==> Shown(e'.snap, d) == Shown(e.snap, d))
    && (InOrder(e'.trace) <==> InOrder(e.trace) && (Announces(e.turns, k) ==> NoHolder(e'.turns, k.conv)))
    && (forall i :: |e.trace| <= i < |e'.trace| && e'.trace[i].PhaseFrame? ==>
          e'.trace[i] == PhaseFrame(k.conv, Projected(e'.turns, k.conv)) && Announces(e.turns, k))
  }

  lemma {:induction false} DeltasOnly(conv: string, lane: nat, n: nat, parts: seq<Bytes>)
    ensures forall i :: 0 <= i < |Deltas(conv, lane, n, parts)| ==> Deltas(conv, lane, n, parts)[i].Delta?
    decreases |parts|
  {
    if parts != [] {
      DeltasOnly(conv, lane, n + 1, parts[1..]);
    }
  }

  lemma FlushOnlyDeltas(e: E, k: Key)
    ensures e.trace <= Flush(e, k).trace
    ensures forall i :: |e.trace| <= i < |Flush(e, k).trace| ==> Flush(e, k).trace[i].Delta?
  {
    var st := Get(e, k);
    var lane := LaneAt(st, st.parent);
    if st.buf != [] && lane.Some? {
      DeltasOnly(k.conv, lane.value.id, lane.value.next, Split(st.buf, MAX_DELTA_TEXT_BYTES));
    }
  }

  lemma KeptProjection(e: E, e': E, k: Key, c: string)
    requires Calm(e) && Calm(e') && Kept(e, e', k)
    ensures Projected(e'.turns, c) == Projected(e.turns, c)
  {
    SameProjection(e.turns, e'.turns, e.order, e'.order, c);
  }

  /** What is left after the flush: the closing without its text. */
  ghost predicate CloseShape(e: E, e1: E, e': E, k: Key)
    requires k in e.turns
  {
    && e'.turns == e.turns - {k} && e'.order == e.order && e'.clock == e.clock
    && e'.trace == (if Announces(e.turns, k) then e1.trace + [PhaseFrame(k.conv, Projected(e'.turns, k.conv))] else e1.trace)
    && (forall d :: d != k.conv ==> Shown(e'.snap, d) == Shown(e.snap, d))
  }

  lemma FlushKept(e: E, k: Key)
    requires Calm(e)
    ensures Kept(e, Flush(e, k), k) && Get(Flush(e, k), k).buf == [] && Flush(e, k).turns - {k} == e.turns - {k}
  {
    FlushText(e, k);
    assert Flush(e, k).turns - {k} == e.turns - {k};
  }

  lemma FlushProjection(e: E, k: Key)
    requires Calm(e)
    ensures Projected(Flush(e, k).turns, k.conv) == Projected(e.turns, k.conv)
  {
    FlushCalm(e, k);
    KeptProjection(e, Flush(e, k), k, k.conv);
  }

  lemma BlankedShape(e: E, k: Key)
    requires k in e.turns && e.turns[k].buf == [] && e.turns[k].main.None?
    ensures Blanked(e, k) == e.(turns := e.turns - {k})
  {
    assert Blanked(e, k).turns == e.turns - {k};
  }

  function Ended(st: St): St {
    st.(main := None, phase := Quiet, order := 0)
  }

  /** Ending the turn projects as if the source were gone. */
  lemma EndProjection(turns: map<Key, St>, limit: nat, k: Key)
    requires PhaseOk(turns, limit) && k in turns
    ensures Projected(turns[k := Ended(turns[k])], k.conv) == Projected(turns - {k}, k.conv)
  {
    var turns' := turns[k := Ended(turns[k])];
    assert PhaseOk(turns', limit) && PhaseOk(turns - {k}, limit);
    SameProjection(turns', turns - {k}, limit, limit, k.conv);
  }

  lemma EndShape(e: E, k: Key)
    requires PhaseOk(e.turns, e.order) && k in e.turns
    ensures var e', now := EndTurn(e, k), Projected(e.turns - {k}, k.conv);
      && e'.turns == e.turns[k := Ended(e.turns[k])] && e'.order == e.order && e'.clock == e.clock
      && e'.trace == (if now == Quiet || now != Projected(e.turns, k.conv) then e.trace + [PhaseFrame(k.conv, now)] else e.trace)
      && (forall d :: d != k.conv ==> Shown(e'.snap, d) == Shown(e.snap, d))
  {
    var e1, previous := Put(e, k, Ended(e.turns[k])), Projected(e.turns, k.conv);
    EndProjection(e.turns, e.order, k);
    assert EndTurn(e, k) == Announce(e1, k.conv, previous);
    AnnounceElsewhere(e1, k.conv, previous);
  }

  lemma GoneShape(e: E, e2: E, k: Key, now: Phase)
    requires k in e.turns && e.turns[k].main.Some? && e.turns[k].buf == [] && now == Projected(e.turns - {k}, k.conv)
    requires e2.turns == e.turns[k := Ended(e.turns[k])] && e2.order == e.order && e2.clock == e.clock
    requires e2.trace == (if now == Quiet || now != Projected(e.turns, k.conv) then e.trace + [PhaseFrame(k.conv, now)] else e.trace)
    requires forall d :: d != k.conv ==> Shown(e2.snap, d) == Shown(e.snap, d)
    ensures CloseShape(e, e, Blanked(e2, k), k)
  {
    BlankedShape(e2, k);
    assert e2.turns - {k} == e.turns - {k};
  }

  lemma CloseTurnShape(e: E, k: Key)
    requires PhaseOk(e.turns, e.order) && k in e.turns && e.turns[k].main.Some? && e.turns[k].buf == []
    ensures CloseShape(e, e, Blanked(EndTurn(e, k), k), k)
  {
    EndShape(e, k);
    GoneShape(e, EndTurn(e, k), k, Projected(e.turns - {k}, k.conv));
  }

  lemma CloseTurnCalm(e: E, k: Key)
    requires Calm(e) && k in e.turns && e.turns[k].buf == []
    ensures Calm(Blanked(EndTurn(e, k), k))
  {
    EndCalm(e, k);
    BlankedCalm(EndTurn(e, k), k);
  }

  lemma CloseCalm(e: E, k: Key)
    requires Calm(e) && k in e.turns
    ensures Calm(CloseOne(e, k))
  {
    FlushCalm(e, k);
    if e.turns[k].main.Some? {
      CloseTurnCalm(Flush(e, k), k);
    } else {
      BlankedCalm(Flush(e, k), k);
    }
  }

  lemma CloseKeepsShape(e: E, k: Key)
    requires Calm(e) && k in e.turns
    ensures CloseShape(e, Flush(e, k), CloseOne(e, k), k)
  {
    var e1 := Flush(e, k);
    FlushKept(e, k);
    if e.turns[k].main.Some? {
      FlushPhases(e, k);
      FlushProjection(e, k);
      CloseTurnShape(e1, k);
      assert CloseOne(e, k) == Blanked(EndTurn(e1, k), k);
    } else {
      BlankedShape(e1, k);
      assert CloseOne(e, k) == Blanked(e1, k);
    }
  }

  lemma FlushPhases(e: E, k: Key)
    requires Calm(e)
    ensures PhaseOk(Flush(e, k).turns, Flush(e, k).order)
  {
    FlushCalm(e, k);
  }

  lemma CloseFacts(e: E, k: Key)
    requires Calm(e) && k in e.turns
    ensures Calm(CloseOne(e, k)) && ClosedOne(e, CloseOne(e, k), k)
  {
    CloseCalm(e, k);
    CloseKeepsShape(e, k);
    FlushCalm(e, k);
    FlushOnlyDeltas(e, k);
    CloseOrderStep(e, Flush(e, k), CloseOne(e, k), k);
  }

  /** The announcement is in order exactly when nobody else of the conversation still holds text. */
  lemma CloseOrderStep(e: E, e1: E, e': E, k: Key)
    requires TextOk(e1) && k in e.turns && CloseShape(e, e1, e', k)
    requires k in e1.turns && e1.turns[k].buf == [] && e1.turns.Keys == e.turns.Keys
    requires forall j :: j in e.turns && j != k ==> e1.turns[j] == e.turns[j]
    requires InOrder(e1.trace) <==> InOrder(e.trace)
    ensures InOrder(e'.trace) <==> InOrder(e.trace) && (Announces(e.turns, k) ==> NoHolder(e'.turns, k.conv))
  {
    HolderUnsettled(e1.turns, e1.trace, k.conv);
    GoodSnoc(e1.trace, PhaseFrame(k.conv, Projected(e'.turns, k.conv)));
    assert NoHolder(e1.turns, k.conv) <==> NoHolder(e'.turns, k.conv);
  }

  /** The sources left when the first i of the list are closed. */
  function Left(turns: map<Key, St>, keys: seq<Key>, i: nat): map<Key, St>
    requires i <= |keys|
  {
    map k | k in turns && k !in keys[..i] :: turns[k]
  }

  lemma LeftStep(turns: map<Key, St>, keys: seq<Key>, i: nat)
    requires i < |keys| && keys[i] in turns && forall j, k :: 0 <= j < k < |keys| ==> keys[j] != keys[k]
    ensures keys[i] in Left(turns, keys, i) && Left(turns, keys, i)[keys[i]] == turns[keys[i]]
    ensures Left(turns, keys, i) - {keys[i]} == Left(turns, keys, i + 1)
  {
    assert keys[..i + 1] == keys[..i] + [keys[i]];
  }

  ghost predicate OrderAt(turns: map<Key, St>, c: string, keys: seq<Key>, m: nat)
    requires m < |keys|
  {
    keys[m] in Left(turns, keys, m) && (Announces(Left(turns, keys, m), keys[m]) ==> NoHolder(Left(turns, keys, m + 1), c))
  }

  ghost predicate AnnouncedAt(turns: map<Key, St>, c: string, keys: seq<Key>, m: nat, item: Item)
    requires m < |keys|
  {
    && keys[m] in Left(turns, keys, m) && Announces(Left(turns, keys, m), keys[m])
    && item == PhaseFrame(c, Projected(Left(turns, keys, m + 1), c))
  }

  ghost predicate AnnouncedBy(turns: map<Key, St>, c: string, keys: seq<Key>, i: nat, item: Item)
    requires i <= |keys|
  {
    exists m :: 0 <= m < i && AnnouncedAt(turns, c, keys, m, item)
  }

  /** How far the closing has come after i sources. */
  ghost predicate ClosedTo(e: E, ei: E, c: string, keys: seq<Key>, i: nat)
    requires i <= |keys|
  {
    && ei.turns == Left(e.turns, keys, i) && ei.order == e.order && ei.clock == e.clock && e.trace <= ei.trace
    && (forall d :: d != c ==> Shown(ei.snap, d) == Shown(e.snap, d))
    && (InOrder(ei.trace) <==> InOrder(e.trace) && forall m :: 0 <= m < i ==> OrderAt(e.turns, c, keys, m))
    && (forall x :: |e.trace| <= x < |ei.trace| && ei.trace[x].PhaseFrame? ==> AnnouncedBy(e.turns, c, keys, i, ei.trace[x]))
  }

  ghost predicate SourcesInOrder(e: E, c: string, keys: seq<Key>) {
    && (forall j :: 0 <= j < |keys| ==> keys[j] in e.turns && keys[j].conv == c)
    && (forall j, k :: 0 <= j < k < |keys| ==> keys[j] != keys[k])
  }

  lemma ClosedStep(e: E, ei: E, e': E, c: string, keys: seq<Key>, i: nat)
    requires SourcesInOrder(e, c, keys) && i < |keys| && ClosedTo(e, ei, c, keys, i) && ClosedOne(ei, e', keys[i])
    ensures ClosedTo(e, e', c, keys, i + 1)
  {
    LeftStep(e.turns, keys, i);
    assert OrderAt(e.turns, c, keys, i) <==> (Announces(ei.turns, keys[i]) ==> NoHolder(e'.turns, c));
    forall x | |e.trace| <= x < |e'.trace| && e'.trace[x].PhaseFrame? ensures AnnouncedBy(e.turns, c, keys, i + 1, e'.trace[x]) {
      if x < |ei.trace| {
        assert e'.trace[x] == ei.trace[x];
        assert AnnouncedBy(e.turns, c, keys, i, ei.trace[x]);
      } else {
        assert AnnouncedAt(e.turns, c, keys, i, e'.trace[x]);
      }
    }
  }

  lemma {:induction false} CloseRun(e: E, c: string, keys: seq<Key>, i: nat)
    requires Calm(e) && SourcesInOrder(e, c, keys) && i <= |keys|
    ensures Calm(CloseEach(e, keys[..i])) && ClosedTo(e, CloseEach(e, keys[..i]), c, keys, i)
  {
    if i == 0 {
      assert Left(e.turns, keys, 0) == e.turns;
    } else {
      CloseRun(e, c, keys, i - 1);
      var ei := CloseEach(e, keys[..i - 1]);
      LeftStep(e.turns, keys, i - 1);
      CloseFacts(ei, keys[i - 1]);
      ClosedStep(e, ei, CloseOne(ei, keys[i - 1]), c, keys, i - 1);
      CloseEachStep(e, keys, i);
    }
  }

  lemma CloseEachStep(e: E, keys: seq<Key>, i: nat)
    requires 0 < i <= |keys|
    ensures CloseEach(e, keys[..i]) == CloseOne(CloseEach(e, keys[..i - 1]), keys[i - 1])
  {
    assert keys[..i][..i - 1] == keys[..i - 1];
  }

  lemma LeftPhases(turns: map<Key, St>, limit: nat, keys: seq<Key>, i: nat)
    requires PhaseOk(turns, limit) && i <= |keys|
    ensures PhaseOk(Left(turns, keys, i), limit)
  {
    var left := Left(turns, keys, i);
    forall k | k in left ensures PhaseStOk(left[k], limit) {
      assert PhaseStOk(turns[k], limit);
    }
  }

  /** The last source in closing order is the projection, if there is one. */
  lemma LastIsLatest(e: E, c: string, keys: seq<Key>, k: Key)
    requires PhaseOk(e.turns, e.order) && CloseOrder(e, c, keys) && Latest(e.turns, c, k)
    ensures keys != [] && Latest(e.turns, c, keys[|keys| - 1])
  {
    assert k in SourcesOf(e, c);
    var j :| 0 <= j < |keys| && keys[j] == k;
    var last := keys[|keys| - 1];
    assert last in SourcesOf(e, c);
    assert PhaseStOk(e.turns[k], e.order) && PhaseStOk(e.turns[last], e.order);
  }

  /** Closing in order keeps the projection until the last source is gone. */
  lemma LeftProjection(e: E, c: string, keys: seq<Key>, i: nat)
    requires PhaseOk(e.turns, e.order) && CloseOrder(e, c, keys) && i <= |keys|
    ensures Projected(Left(e.turns, keys, i), c) == (if i < |keys| then Projected(e.turns, c) else Quiet)
  {
    var left := Left(e.turns, keys, i);
    LeftPhases(e.turns, e.order, keys, i);
    ProjectedNone(left, e.order, c);
    ProjectedNone(e.turns, e.order, c);
    if i == |keys| {
      assert keys[..i] == keys;
      assert forall k :: k in left && k.conv == c ==> k in SourcesOf(e, c);
    } else if some :| some in e.turns && some.conv == c && Running(e.turns[some]) {
      var k := HasLatest(e.turns, c, some);
      LastIsLatest(e, c, keys, k);
      var last := keys[|keys| - 1];
      assert last !in keys[..i];
      assert Latest(left, c, last);
      ProjectedIs(left, e.order, c, last);
      ProjectedIs(e.turns, e.order, c, last);
    }
  }

  /** A source announces its closing exactly when its turn was open and no other source runs or it closes last; what it
      announces is idle. */
  lemma AnnouncesIff(e: E, c: string, keys: seq<Key>, m: nat)
    requires PhaseOk(e.turns, e.order) && CloseOrder(e, c, keys) && SourcesInOrder(e, c, keys) && m < |keys|
    ensures keys[m] in Left(e.turns, keys, m)
    ensures Announces(Left(e.turns, keys, m), keys[m]) <==>
      e.turns[keys[m]].main.Some? && (Projected(e.turns, c) == Quiet || m == |keys| - 1)
    ensures Announces(Left(e.turns, keys, m), keys[m]) ==> Projected(Left(e.turns, keys, m + 1), c) == Quiet
  {
    LeftStep(e.turns, keys, m);
    LeftProjection(e, c, keys, m);
    LeftProjection(e, c, keys, m + 1);
  }

  lemma CloseOrderLists(e: E, c: string, keys: seq<Key>)
    requires CloseOrder(e, c, keys)
    ensures SourcesInOrder(e, c, keys)
  {
    forall j | 0 <= j < |keys| ensures keys[j] in e.turns && keys[j].conv == c {
      assert keys[j] in SourcesOf(e, c);
    }
  }

  /** Closing a conversation with any number of open sources announces only idle, never a restored running phase. */
  lemma CloseAnnouncesOnlyIdle(e: E, c: string, keys: seq<Key>, x: nat)
    requires Calm(e) && CloseOrder(e, c, keys)
    requires |e.trace| <= x < |CloseEach(e, keys).trace| && CloseEach(e, keys).trace[x].PhaseFrame?
    ensures CloseEach(e, keys).trace[x] == PhaseFrame(c, Quiet)
  {
    CloseOrderLists(e, c, keys);
    CloseRun(e, c, keys, |keys|);
    assert keys[..|keys|] == keys;
    var item := CloseEach(e, keys).trace[x];
    assert AnnouncedBy(e.turns, c, keys, |keys|, item);
    var m :| 0 <= m < |keys| && AnnouncedAt(e.turns, c, keys, m, item);
    AnnouncesIff(e, c, keys, m);
  }

  /** A source with an open turn closes ahead of one that holds text, and no source of the conversation is running. */
  ghost predicate ClosesAheadOfText(e: E, c: string, keys: seq<Key>)
    requires SourcesInOrder(e, c, keys)
  {
    Projected(e.turns, c) == Quiet && exists m, j :: 0 <= m < j < |keys| && e.turns[keys[m]].main.Some? && e.turns[keys[j]].buf != []
  }

  lemma LeftHolders(e: E, c: string, keys: seq<Key>, i: nat)
    requires CloseOrder(e, c, keys) && SourcesInOrder(e, c, keys) && i <= |keys|
    ensures NoHolder(Left(e.turns, keys, i), c) <==> forall j :: i <= j < |keys| ==> e.turns[keys[j]].buf == []
  {
    var left := Left(e.turns, keys, i);
    forall j | i <= j < |keys| ensures keys[j] in left {
      assert forall m :: 0 <= m < i ==> keys[m] != keys[j];
    }
    forall k | k in left && k.conv == c ensures exists j :: i <= j < |keys| && keys[j] == k {
      assert k in SourcesOf(e, c);
      var j :| 0 <= j < |keys| && keys[j] == k;
      assert forall m :: 0 <= m < i ==> keys[..i][m] == keys[m];
    }
  }

  lemma OrderAtIff(e: E, c: string, keys: seq<Key>, m: nat)
    requires PhaseOk(e.turns, e.order) && CloseOrder(e, c, keys) && SourcesInOrder(e, c, keys) && m < |keys|
    ensures OrderAt(e.turns, c, keys, m) <==>
      !(Projected(e.turns, c) == Quiet && e.turns[keys[m]].main.Some? && exists j :: m < j < |keys| && e.turns[keys[j]].buf != [])
  {
    AnnouncesIff(e, c, keys, m);
    LeftHolders(e, c, keys, m + 1);
  }

  /** Closing sends its announcements behind all text exactly when no open source closes ahead of held text while none
      runs. The list of sources and the projection before the call decide it. */
  lemma CloseInOrderIff(e: E, c: string, keys: seq<Key>)
    requires Calm(e) && CloseOrder(e, c, keys) && InOrder(e.trace)
    ensures SourcesInOrder(e, c, keys)
    ensures InOrder(CloseEach(e, keys).trace) <==> !ClosesAheadOfText(e, c, keys)
  {
    CloseOrderLists(e, c, keys);
    CloseRun(e, c, keys, |keys|);
    assert keys[..|keys|] == keys;
    forall m | 0 <= m < |keys|
      ensures OrderAt(e.turns, c, keys, m) <==>
        !(Projected(e.turns, c) == Quiet && e.turns[keys[m]].main.Some? && exists j :: m < j < |keys| && e.turns[keys[j]].buf != [])
    {
      OrderAtIff(e, c, keys, m);
    }
  }

  lemma CloseGood(e: E, c: string, keys: seq<Key>)
    requires Good(e) && CloseOrder(e, c, keys)
    ensures Good(CloseEach(e, keys)) && SourcesOf(CloseEach(e, keys), c) == {}
  {
    CloseOrderLists(e, c, keys);
    CloseRun(e, c, keys, |keys|);
    assert keys[..|keys|] == keys;
    var e' := CloseEach(e, keys);
    forall k | k in e'.turns ensures k.conv != c && k in e.turns && e'.turns[k] == e.turns[k] {
      assert k.conv == c ==> k in SourcesOf(e, c);
    }
  }

  // ---------------------------------------------------------------- theorems over every run

  /** visit and keys are the orders in which one iteration over the retained sources happened to go. */
  datatype Step =
    | StepHandle(k: Key, ev: Event, visit: seq<Key>, mintTurn: bool, mintLane: bool)
    | StepFire(visit: seq<Key>)
    | StepClose(c: string, keys: seq<Key>)
    | StepTick(elapsed: nat)

  ghost predicate Enabled(e: E, step: Step) {
    match step
    case StepHandle(k, _, visit, _, _) => k.conv != "" && Lists(visit, Others(e, k))
    case StepFire(visit) => Lists(visit, e.turns.Keys)
    case StepClose(c, keys) => CloseOrder(e, c, keys)
    case StepTick(_) => true
  }

  ghost function Apply(e: E, step: Step): E {
    if !Enabled(e, step) then e
    else match step
      case StepHandle(k, ev, visit, mintTurn, mintLane) => Handle(e, k, ev, visit, mintTurn, mintLane)
      case StepFire(visit) => Fire(e, visit)
      case StepClose(_, keys) => CloseEach(e, keys)
      case StepTick(elapsed) => e.(clock := e.clock + elapsed)
  }

  ghost function Run(facts: bool, steps: seq<Step>): E {
    if steps == [] then Initial(facts) else Apply(Run(facts, steps[..|steps| - 1]), steps[|steps| - 1])
  }

  lemma StepGood(e: E, step: Step)
    requires Good(e)
    ensures Good(Apply(e, step))
  {
    if Enabled(e, step) {
      match step {
        case StepHandle(k, ev, visit, mintTurn, mintLane) => HandleGood(e, k, ev, visit, mintTurn, mintLane);
        case StepFire(visit) => FireGood(e, visit);
        case StepClose(c, keys) => CloseGood(e, c, keys);
        case StepTick(elapsed) => TickGood(e, elapsed);
      }
    }
  }

  lemma TickGood(e: E, elapsed: nat)
    requires Good(e)
    ensures Good(e.(clock := e.clock + elapsed))
  {
  }

  lemma InitialGood(facts: bool)
    ensures Good(Initial(facts)) && InOrder(Initial(facts).trace)
  {
    var e := Initial(facts);
    forall c ensures Shown(e.snap, c) == Projected(e.turns, c) {
    }
  }

  lemma {:induction false} RunGood(facts: bool, steps: seq<Step>)
    ensures Good(Run(facts, steps))
  {
    if steps == [] {
      InitialGood(facts);
    } else {
      RunGood(facts, steps[..|steps| - 1]);
      StepGood(Run(facts, steps[..|steps| - 1]), steps[|steps| - 1]);
    }
  }

  /** In every reachable state at most one source of a conversation holds text, and what was sent, followed by what is
      held, is exactly what arrived, byte for byte and lane for lane in arrival order. */
  lemma TextIsExact(facts: bool, steps: seq<Step>, c: string, k: Key)
    requires k.conv == c && k in Run(facts, steps).turns && Run(facts, steps).turns[k].buf != []
    ensures var e := Run(facts, steps);
      OnlyHolder(e.turns, c, k) && Emitted(e.trace, c) + Held(e.turns[k]) == Arrived(e.trace, c)
  {
    RunGood(facts, steps);
  }

  lemma NoTextHeldBack(facts: bool, steps: seq<Step>, c: string)
    ensures var e := Run(facts, steps); NoHolder(e.turns, c) <==> Emitted(e.trace, c) == Arrived(e.trace, c)
  {
    RunGood(facts, steps);
    var e := Run(facts, steps);
    HolderUnsettled(e.turns, e.trace, c);
  }

  /** The text of one lane within a labelled stream. */
  function Only(stream: seq<(nat, Byte)>, lane: nat): Bytes {
    if stream == [] then []
    else
      var n := |stream| - 1;
      Only(stream[..n], lane) + (if stream[n].0 == lane then [stream[n].1] else [])
  }

  lemma {:induction false} OnlyConcat(a: seq<(nat, Byte)>, b: seq<(nat, Byte)>, lane: nat)
    ensures Only(a + b, lane) == Only(a, lane) + Only(b, lane)
  {
    if b == [] {
      assert a + b == a;
    } else {
      var n := |b| - 1;
      OnlyConcat(a, b[..n], lane);
      assert (a + b)[..|a + b| - 1] == a + b[..n];
    }
  }

  lemma {:induction false} OnlyLabel(lane: nat, text: Bytes, which: nat)
    ensures Only(Label(lane, text), which) == if lane == which then text else []
  {
    if text != [] {
      var n := |text| - 1;
      OnlyLabel(lane, text[..n], which);
      assert Label(lane, text)[..n] == Label(lane, text[..n]);
    }
  }

  /** Lane by lane: the deltas of a lane followed by its buffer concatenate to the text received there. */
  lemma LaneTextIsExact(facts: bool, steps: seq<Step>, k: Key, lane: nat)
    requires k in Run(facts, steps).turns && Run(facts, steps).turns[k].buf != []
    ensures var e := Run(facts, steps);
      var held := LaneAt(e.turns[k], e.turns[k].parent);
      && held.Some?
      && Only(Emitted(e.trace, k.conv), lane) + (if held.value.id == lane then e.turns[k].buf else []) == Only(Arrived(e.trace, k.conv), lane)
  {
    RunGood(facts, steps);
    var e := Run(facts, steps);
    var held := LaneAt(e.turns[k], e.turns[k].parent);
    OnlyConcat(Emitted(e.trace, k.conv), Held(e.turns[k]), lane);
    OnlyLabel(held.value.id, e.turns[k].buf, lane);
  }

  lemma {:induction false} NumberedAt(trace: seq<Item>, i: nat)
    requires Numbered(trace) && i < |trace|
    ensures DeltaOk(trace[..i], trace[i])
  {
    if i < |trace| - 1 {
      NumberedAt(trace[..|trace| - 1], i);
      assert trace[..|trace| - 1][..i] == trace[..i];
    }
  }

  /** Every delta of every run carries the count of its lane's earlier deltas, is non-empty, at most 10000 bytes, and
      valid UTF-8 whenever all text received before it was. */
  lemma DeltasAreNumbered(facts: bool, steps: seq<Step>, i: nat)
    requires i < |Run(facts, steps).trace| && Run(facts, steps).trace[i].Delta?
    ensures var trace := Run(facts, steps).trace;
      && trace[i].number == Count(trace[..i], trace[i].lane) && 0 < |trace[i].text| <= MAX_DELTA_TEXT_BYTES
      && (ValidArrivals(trace[..i]) ==> ValidUtf8(trace[i].text))
  {
    RunGood(facts, steps);
    NumberedAt(Run(facts, steps).trace, i);
  }

  ghost predicate IsRun(states: seq<E>, facts: bool, steps: seq<Step>) {
    && |states| == |steps| + 1 && states[0] == Initial(facts)
    && (forall i :: 0 <= i < |steps| ==> states[i + 1] == Apply(states[i], steps[i]))
  }

  /** The step does not close an open source ahead of held text. */
  ghost predicate ClosesInOrder(e: E, step: Step) {
    step.StepClose? && CloseOrder(e, step.c, step.keys) ==>
      !(SourcesInOrder(e, step.c, step.keys) && ClosesAheadOfText(e, step.c, step.keys))
  }

  lemma StepInOrder(e: E, step: Step)
    requires Good(e) && InOrder(e.trace) && ClosesInOrder(e, step)
    ensures InOrder(Apply(e, step).trace)
  {
    if Enabled(e, step) {
      match step {
        case StepHandle(k, ev, visit, mintTurn, mintLane) => HandleGood(e, k, ev, visit, mintTurn, mintLane);
        case StepFire(visit) => FireGood(e, visit);
        case StepClose(c, keys) => CloseInOrderIff(e, c, keys);
        case StepTick(_) =>
      }
    }
  }

  lemma {:induction false} RunInOrder(states: seq<E>, facts: bool, steps: seq<Step>, n: nat)
    requires IsRun(states, facts, steps) && n <= |steps| && forall i :: 0 <= i < n ==> ClosesInOrder(states[i], steps[i])
    ensures Good(states[n]) && InOrder(states[n].trace)
  {
    if n == 0 {
      InitialGood(facts);
    } else {
      RunInOrder(states, facts, steps, n - 1);
      StepGood(states[n - 1], steps[n - 1]);
      StepInOrder(states[n - 1], steps[n - 1]);
    }
  }

  lemma {:induction false} InOrderAt(trace: seq<Item>, i: nat)
    requires InOrder(trace) && i < |trace|
    ensures FrameOk(trace[..i], trace[i])
  {
    if i < |trace| - 1 {
      InOrderAt(trace[..|trace| - 1], i);
      assert trace[..|trace| - 1][..i] == trace[..i];
    }
  }

  /** Every content, status or phase frame follows all text of its conversation that arrived before it, over every run
      whose closings pass the check of CloseInOrderIff. */
  lemma FramesFollowText(states: seq<E>, facts: bool, steps: seq<Step>, i: nat)
    requires IsRun(states, facts, steps) && forall j :: 0 <= j < |steps| ==> ClosesInOrder(states[j], steps[j])
    requires i < |states[|steps|].trace| && (states[|steps|].trace[i].Frame? || states[|steps|].trace[i].PhaseFrame?)
    ensures Settled(states[|steps|].trace[..i], states[|steps|].trace[i].conv)
  {
    RunInOrder(states, facts, steps, |steps|);
    InOrderAt(states[|steps|].trace, i);
  }

  /** The turn-opened record is the exception: it is written before the source's own held child text exactly when there
      is such text. */
  lemma OpenedRecordAheadOfTextIff(e: E, k: Key)
    requires Ready(e, k) && e.facts && e.turns[k].main.None?
    ensures StartTurn(e, k, true).0.trace == e.trace + [Opened(k.conv, e.ids)]
    ensures Settled(e.trace, k.conv) <==> e.turns[k].buf == []
  {
    HolderUnsettled(e.turns, e.trace, k.conv);
  }

  /** After every event the snapshot shows the phase of the most recently active running source of each conversation,
      and nothing exactly when none is running. */
  lemma SnapshotIsProjection(facts: bool, steps: seq<Step>, c: string)
    ensures var e := Run(facts, steps);
      && (c in e.snap ==> exists k :: Latest(e.turns, c, k) && e.snap[c] == e.turns[k].phase)
      && (c !in e.snap <==> forall k :: k in e.turns && k.conv == c ==> !Running(e.turns[k]))
  {
    RunGood(facts, steps);
    var e := Run(facts, steps);
    ProjectedNone(e.turns, e.order, c);
    assert Shown(e.snap, c) == Projected(e.turns, c);
    if some :| some in e.turns && some.conv == c && Running(e.turns[some]) {
      var k := HasLatest(e.turns, c, some);
      ProjectedIs(e.turns, e.order, c, k);
    }
  }

  /** While any conversation holds text the shared timer is armed and due no later than one window after that text's
      oldest chunk arrived. */
  lemma TimerCoversHeldText(facts: bool, steps: seq<Step>, k: Key)
    requires k in Run(facts, steps).turns && Run(facts, steps).turns[k].buf != []
    ensures var e := Run(facts, steps);
      e.timer.Some? && e.timer.value <= e.turns[k].since + WINDOW && e.turns[k].since <= e.clock
  {
    RunGood(facts, steps);
  }

  const A: Key := Key("c", 0)
  const B: Key := Key("c", 1)
  const OPEN: St := BLANK.(main := Some(Lane(1, 0)))
  const HOLDS: St := BLANK.(lanes := map["p" := Lane(2, 0)], buf := [65], msg := "m", parent := "p")

  /** A progress report opens a turn of source A that never shows a phase. */
  lemma OpensQuietly()
    ensures Apply(Initial(false), StepHandle(A, ToolMark("t"), [], true, true))
            == E(map[A := OPEN], 0, map[], [Frame("c", 1)], 2, None, 0, false)
  {
    var e0 := Initial(false);
    assert Others(e0, A) == {} && Enabled(e0, StepHandle(A, ToolMark("t"), [], true, true));
    var e1 := Put(e0, A, BLANK);
    assert FlushEach(e0, []) == e0;
    var e2 := StartTurn(e1, A, true).0;
    assert e2.turns == map[A := OPEN] && e2.ids == 2;
    assert Flush(e2, A) == e2;
    assert HandleEvent(e1, A, ToolMark("t"), true, true) == EmitFrame(e2, A, 1);
  }

  /** Then source B takes in a piece of child text. */
  lemma HoldsBehind(e: E)
    requires e.turns == map[A := OPEN] && e.ids == 2 && e.clock == 0
    ensures Apply(e, StepHandle(B, Text("p", "m", [65], false), [A], true, true)).turns == map[A := OPEN, B := HOLDS]
  {
    var ev := Text("p", "m", [65], false);
    assert Others(e, B) == {A} && Enabled(e, StepHandle(B, ev, [A], true, true));
    assert [A][..0] == [] && FlushEach(e, []) == e && FlushEach(e, [A]) == e;
    var e1 := Put(e, B, BLANK);
    var e2 := EnsureLane(e1, B, "p", true).0;
    assert e2.turns[B] == BLANK.(lanes := map["p" := Lane(2, 0)]);
    assert HandleEvent(e1, B, ev, true, true) == Take(e2, B, "p", "m", [65]);
    assert Take(e2, B, "p", "m", [65]).turns[B] == HOLDS;
  }

  lemma RunTwo(facts: bool, first: Step, second: Step)
    ensures Run(facts, [first, second]) == Apply(Apply(Initial(facts), first), second)
  {
    assert [first, second][..1] == [first] && [first][..0] == [];
    assert Run(facts, [first]) == Apply(Initial(facts), first);
  }

  /** Closing can announce idle ahead of held text: the condition of CloseInOrderIff is reachable. */
  lemma AheadIsReachable(first: Step, second: Step)
    requires first == StepHandle(A, ToolMark("t"), [], true, true)
    requires second == StepHandle(B, Text("p", "m", [65], false), [A], true, true)
    ensures var e := Run(false, [first, second]);
      CloseOrder(e, "c", [A, B]) && SourcesInOrder(e, "c", [A, B]) && ClosesAheadOfText(e, "c", [A, B])
  {
    RunTwo(false, first, second);
    OpensQuietly();
    HoldsBehind(Apply(Initial(false), first));
    AheadInState(Run(false, [first, second]));
  }

  lemma AheadInState(e: E)
    requires e.turns == map[A := OPEN, B := HOLDS]
    ensures CloseOrder(e, "c", [A, B]) && SourcesInOrder(e, "c", [A, B]) && ClosesAheadOfText(e, "c", [A, B])
  {
    var keys := [A, B];
    assert SourcesOf(e, "c") == {A, B};
    assert e.turns[keys[0]].main.Some? && e.turns[keys[1]].buf != [];
    forall k ensures !Latest(e.turns, "c", k) {
    }
  }

  const CHILD: St := BLANK.(lanes := map["p" := Lane(1, 0)], buf := [65], msg := "m", parent := "p")

  /** From the start, source A takes in a piece of child text. */
  lemma HoldsChildText()
    ensures Apply(Initial(true), StepHandle(A, Text("p", "m", [65], false), [], true, true))
            == E(map[A := CHILD], 0, map[], [Arrive("c", 1, [65])], 2, Some(WINDOW), 0, true)
  {
    var e0, ev := Initial(true), Text("p", "m", [65], false);
    assert Others(e0, A) == {} && Enabled(e0, StepHandle(A, ev, [], true, true));
    assert FlushEach(e0, []) == e0;
    var e1 := Put(e0, A, BLANK);
    var e2 := EnsureLane(e1, A, "p", true).0;
    assert e2.turns == map[A := BLANK.(lanes := map["p" := Lane(1, 0)])];
    assert HandleEvent(e1, A, ev, true, true) == Take(e2, A, "p", "m", [65]);
    assert [] + [65] == [65];
    assert Taken(e2, e2.turns[A], "p", "m", [65]) == CHILD;
    assert Take(e2, A, "p", "m", [65]).turns == map[A := CHILD];
  }

  lemma OneDelta()
    ensures Deltas("c", 1, 0, Split([65], MAX_DELTA_TEXT_BYTES)) == [Delta("c", 1, 0, [65])]
  {
    assert Split([65], MAX_DELTA_TEXT_BYTES) == [[65]];
    assert [[65]][1..] == [];
  }

  /** Then a progress report opens a turn of the same source: the record is written first, the held text after it. */
  lemma OpensAheadOfText(e: E)
    requires e == E(map[A := CHILD], 0, map[], [Arrive("c", 1, [65])], 2, Some(WINDOW), 0, true)
    ensures Apply(e, StepHandle(A, ToolMark("t"), [], true, true)).trace
            == [Arrive("c", 1, [65]), Opened("c", 2), Delta("c", 1, 0, [65]), Frame("c", 2)]
  {
    assert Others(e, A) == {} && Enabled(e, StepHandle(A, ToolMark("t"), [], true, true));
    assert FlushEach(e, []) == e;
    var e1 := StartTurn(e, A, true).0;
    assert e1.trace == [Arrive("c", 1, [65]), Opened("c", 2)];
    OneDelta();
    FlushShape(e1, A, Lane(1, 0));
    assert Flush(e1, A).trace == e1.trace + [Delta("c", 1, 0, [65])];
    assert TurnId(Get(e1, A)) == 2;
    assert HandleEvent(e, A, ToolMark("t"), true, true) == EmitFrame(Flush(e1, A), A, 2);
  }

  /** A run in which the turn-opened record precedes text that arrived before it. */
  lemma OpenedAheadIsReachable(first: Step, second: Step)
    requires first == StepHandle(A, Text("p", "m", [65], false), [], true, true)
    requires second == StepHandle(A, ToolMark("t"), [], true, true)
    ensures Run(true, [first, second]).trace == [Arrive("c", 1, [65]), Opened("c", 2), Delta("c", 1, 0, [65]), Frame("c", 2)]
  {
    RunTwo(true, first, second);
    HoldsChildText();
    OpensAheadOfText(Apply(Initial(true), first));
  }

  // ---------------------------------------------------------------- when the timer is armed for nothing

  /** The timer is armed exactly while some source holds text. */
  predicate TimerExact(e: E) {
    e.timer.Some? <==> AnyBuffered(e.turns)
  }

  /** The same sources hold text and the timer is as it was. */
  ghost predicate SameHeld(e: E, e': E) {
    e'.timer == e.timer && (AnyBuffered(e'.turns) <==> AnyBuffered(e.turns))
  }

  lemma AnyPut(turns: map<Key, St>, k: Key, st: St)
    ensures AnyBuffered(turns[k := st]) <==> st.buf != [] || exists j :: j in turns && j != k && turns[j].buf != []
  {
    var turns' := turns[k := st];
    if j :| j in turns && j != k && turns[j].buf != [] {
      assert j in turns' && turns'[j].buf != [];
    }
    if st.buf != [] {
      assert k in turns' && turns'[k].buf != [];
    }
  }

  /** A change of one entry that keeps its buffer keeps who holds text. */
  lemma PutHeld(e: E, e': E, k: Key, st: St)
    requires e'.turns == e.turns[k := st] && e'.timer == e.timer && st.buf == Get(e, k).buf
    ensures SameHeld(e, e')
  {
    AnyPut(e.turns, k, st);
    if j :| j in e.turns && e.turns[j].buf != [] {
      assert j == k || exists i :: i in e.turns && i != k && e.turns[i].buf != [];
    }
  }

  lemma ReleaseHeld(e: E, k: Key)
    ensures SameHeld(e, Release(e, k))
  {
    var e' := Release(e, k);
    if j :| j in e.turns && e.turns[j].buf != [] {
      assert j in e'.turns && e'.turns[j].buf != [];
    }
  }

  lemma SendHeld(e: E, k: Key, parent: string, text: Bytes)
    ensures SameHeld(e, Send(e, k, parent, text))
  {
    if LaneAt(Get(e, k), parent).Some? {
      var n := |Split(text, MAX_DELTA_TEXT_BYTES)|;
      AdvanceSt(Get(e, k), parent, n);
      PutHeld(e, Send(e, k, parent, text), k, Advance(Get(e, k), parent, n));
    }
  }

  lemma FlushExact(e: E, k: Key)
    requires TimerExact(e)
    ensures TimerExact(Flush(e, k))
  {
    if Get(e, k).buf != [] {
      assert AnyBuffered(e.turns);
    }
  }

  lemma StartHeld(e: E, k: Key, minted: bool)
    ensures SameHeld(e, StartTurn(e, k, minted).0)
  {
    if Get(e, k).main.None? && minted {
      PutHeld(e, StartTurn(e, k, minted).0, k, Get(e, k).(main := Some(Lane(e.ids, 0)), phase := Quiet));
    }
  }

  lemma EnsureHeld(e: E, k: Key, parent: string, minted: bool)
    ensures SameHeld(e, EnsureLane(e, k, parent, minted).0)
  {
    if parent != "" && parent !in Get(e, k).lanes && minted {
      PutHeld(e, EnsureLane(e, k, parent, minted).0, k, Get(e, k).(lanes := Get(e, k).lanes[parent := Lane(e.ids, 0)]));
    }
  }

  lemma ActivateHeld(e: E, k: Key, phase: Phase)
    ensures SameHeld(e, Activate(e, k, phase))
  {
    var st, previous := Get(e, k).(phase := phase, order := e.order + 1), Projected(e.turns, k.conv);
    var e1 := Put(e, k, st).(order := e.order + 1);
    assert Activate(e, k, phase) == Announce(e1, k.conv, previous);
    AnnounceElsewhere(e1, k.conv, previous);
    PutHeld(e, e1, k, st);
  }

  lemma EndHeld(e: E, k: Key)
    ensures SameHeld(e, EndTurn(e, k))
  {
    var e1, previous := Put(e, k, Ended(Get(e, k))), Projected(e.turns, k.conv);
    assert EndTurn(e, k) == Announce(e1, k.conv, previous);
    AnnounceElsewhere(e1, k.conv, previous);
    PutHeld(e, e1, k, Ended(Get(e, k)));
  }

  lemma RememberHeld(e: E, k: Key, tool: string, launcher: bool, origin: nat)
    ensures SameHeld(e, Remember(e, k, tool, launcher, origin))
  {
    var e' := Remember(e, k, tool, launcher, origin);
    if e' != e {
      PutHeld(e, e', k, Get(e, k).(launchers := Get(e, k).launchers[tool := origin]));
    }
  }

  lemma FixedHeld(e: E, k: Key, parent: string, tool: string, minted: bool)
    ensures SameHeld(e, FixedOrigin(e, k, parent, tool, minted).0)
  {
    var launched := At(Get(e, k).launchers, parent);
    EnsureHeld(e, k, parent, minted);
    var (e1, ok) := if launched != 0 then (e, true) else EnsureLane(e, k, parent, minted);
    if ok && tool != "" {
      var origin := FixedOrigin(e, k, parent, tool, minted).1;
      PutHeld(e1, FixedOrigin(e, k, parent, tool, minted).0, k, Get(e1, k).(childTools := Get(e1, k).childTools[tool := origin]));
    }
  }

  lemma ChildToolExact(e: E, k: Key, parent: string, tool: string, minted: bool)
    requires TimerExact(e)
    ensures TimerExact(ChildTool(e, k, parent, tool, minted).0)
  {
    FlushExact(e, k);
    FixedHeld(e, k, parent, tool, minted);
    FlushExact(FixedOrigin(e, k, parent, tool, minted).0, k);
  }

  /** Opening, flushing and activating keeps the timer exact. */
  lemma OpenExact(e: E, k: Key, minted: bool, phase: Phase)
    requires TimerExact(e)
    ensures var e1 := StartTurn(e, k, minted).0;
      TimerExact(e1) && TimerExact(Flush(e1, k)) && TimerExact(Activate(Flush(e1, k), k, phase))
  {
    StartHeld(e, k, minted);
    var e1 := StartTurn(e, k, minted).0;
    FlushExact(e1, k);
    ActivateHeld(Flush(e1, k), k, phase);
  }

  lemma ToolExact(e: E, k: Key, ev: Event, mintTurn: bool, mintLane: bool)
    requires TimerExact(e) && (ev.ToolStart? || ev.ToolUpdate?)
    ensures TimerExact(HandleEvent(e, k, ev, mintTurn, mintLane))
  {
    if ev.parent != "" {
      ChildToolExact(e, k, ev.parent, ev.tool, mintLane);
      var (e1, origin) := ChildTool(e, k, ev.parent, ev.tool, mintLane);
      if ev.ToolStart? {
        RememberHeld(e1, k, ev.tool, ev.launcher, origin);
      }
    } else {
      OpenExact(e, k, mintTurn, Responding);
      var e2 := Activate(Flush(StartTurn(e, k, mintTurn).0, k), k, Responding);
      if ev.ToolStart? {
        RememberHeld(e2, k, ev.tool, ev.launcher, TurnId(Get(e2, k)));
      }
    }
  }

  lemma ThinkExact(e: E, k: Key, ev: Event, mintTurn: bool, mintLane: bool)
    requires TimerExact(e) && (ev.Thought? || ev.Progress?)
    ensures TimerExact(HandleEvent(e, k, ev, mintTurn, mintLane))
  {
    OpenExact(e, k, mintTurn, Thinking);
  }

  lemma MarkExact(e: E, k: Key, ev: Event, mintTurn: bool, mintLane: bool)
    requires TimerExact(e) && (ev.ToolMark? || ev.Status?)
    ensures TimerExact(HandleEvent(e, k, ev, mintTurn, mintLane))
  {
    FlushExact(e, k);
    StartHeld(e, k, mintTurn);
    FlushExact(StartTurn(e, k, mintTurn).0, k);
  }

  lemma TurnEndExact(e: E, k: Key, ev: Event, mintTurn: bool, mintLane: bool)
    requires TimerExact(e) && ev.TurnEnd?
    ensures TimerExact(HandleEvent(e, k, ev, mintTurn, mintLane))
  {
    FlushExact(e, k);
    EndHeld(EmitFrame(Flush(e, k), k, TurnId(Get(e, k))), k);
  }

  /** No event but text arms the timer. */
  lemma OtherEventsExact(e: E, k: Key, ev: Event, mintTurn: bool, mintLane: bool)
    requires TimerExact(e) && !ev.Text?
    ensures TimerExact(HandleEvent(e, k, ev, mintTurn, mintLane))
  {
    match ev {
      case Thought(_) => ThinkExact(e, k, ev, mintTurn, mintLane);
      case Progress(_) => ThinkExact(e, k, ev, mintTurn, mintLane);
      case ToolStart(_, _, _) => ToolExact(e, k, ev, mintTurn, mintLane);
      case ToolUpdate(_, _) => ToolExact(e, k, ev, mintTurn, mintLane);
      case ToolMark(_) => MarkExact(e, k, ev, mintTurn, mintLane);
      case Status => MarkExact(e, k, ev, mintTurn, mintLane);
      case TurnEnd => TurnEndExact(e, k, ev, mintTurn, mintLane);
      case Silent =>
    }
  }

  lemma CompletedExact(e: E, k: Key, parent: string, text: Bytes)
    requires TimerExact(e)
    ensures TimerExact(Completed(e, k, parent, text))
  {
    var lane := LaneAt(Get(e, k), parent);
    SendHeld(Log(e, Arrive(k.conv, if lane.Some? then lane.value.id else 0, text)), k, parent, text);
  }

  /** Taking a chunk keeps the timer exact unless the chunk is empty and nobody holds text. */
  lemma TakeExactIff(e: E, k: Key, parent: string, msg: string, text: Bytes)
    requires TimerExact(e)
    ensures TimerExact(Take(e, k, parent, msg, text)) <==> text != [] || AnyBuffered(e.turns)
  {
    var st := Taken(e, Get(e, k), parent, msg, text);
    assert Take(e, k, parent, msg, text).turns == e.turns[k := st];
    AnyPut(e.turns, k, st);
    if j :| j in e.turns && e.turns[j].buf != [] {
      assert j == k || exists i :: i in e.turns && i != k && e.turns[i].buf != [];
    }
  }

  /** The chunk passes the minting of its turn and of its lane. */
  predicate Minted(st: St, ev: Event, mintTurn: bool, mintLane: bool)
    requires ev.Text?
  {
    if ev.parent == "" then st.main.Some? || mintTurn else ev.parent in st.lanes || mintLane
  }

  /** The chunk continues what its source holds. */
  predicate ContinuesHeld(st: St, ev: Event)
    requires ev.Text?
  {
    st.buf != [] && ev.parent == st.parent && ev.msg == st.msg
  }

  /** Text still held when the chunk itself is taken: its own source's if the chunk continues it, and that of others. */
  predicate HeldElse(turns: map<Key, St>, k: Key) {
    exists j :: j in turns && j != k && turns[j].buf != []
  }

  /** What is held when the chunk itself is taken. */
  lemma HeldAtTake(e: E, e1: E, k: Key, ev: Event)
    requires ev.Text? && k in e.turns
    requires var st := e.turns[k]; e1 == if st.buf != [] && (ev.parent != st.parent || ev.msg != st.msg) then Flush(e, k) else e
    ensures k in e1.turns && e1.turns[k].lanes.Keys == e.turns[k].lanes.Keys
    ensures AnyBuffered(e1.turns) <==> ContinuesHeld(e.turns[k], ev) || HeldElse(e.turns, k)
  {
    FlushLeaves(e, k);
    AnyHeldElse(e1.turns, k);
  }

  lemma AddTextExactIff(e: E, k: Key, ev: Event, mintLane: bool)
    requires TimerExact(e) && ev.Text? && k in e.turns
    ensures TimerExact(AddText(e, k, ev, mintLane)) <==>
      !(ev.text == [] && (ev.parent == "" || ev.parent in e.turns[k].lanes || mintLane)
        && !ContinuesHeld(e.turns[k], ev) && !HeldElse(e.turns, k))
  {
    var st := e.turns[k];
    FlushExact(e, k);
    var e1 := if st.buf != [] && (ev.parent != st.parent || ev.msg != st.msg) then Flush(e, k) else e;
    HeldAtTake(e, e1, k, ev);
    EnsureHeld(e1, k, ev.parent, mintLane);
    var (e2, ok) := EnsureLane(e1, k, ev.parent, mintLane);
    if ok {
      ActivateHeld(e2, k, Responding);
      TakeExactIff(if ev.parent == "" then Activate(e2, k, Responding) else e2, k, ev.parent, ev.msg, ev.text);
    }
  }

  lemma AnyHeldElse(turns: map<Key, St>, k: Key)
    requires k in turns
    ensures AnyBuffered(turns) <==> turns[k].buf != [] || HeldElse(turns, k)
  {
    if j :| j in turns && turns[j].buf != [] {
      assert j == k || HeldElse(turns, k);
    }
  }

  /** A flush empties its source and leaves the buffers of the others and every lane in place. */
  lemma FlushLeaves(e: E, k: Key)
    requires k in e.turns
    ensures var e' := Flush(e, k);
      && k in e'.turns && (e.turns[k].buf != [] ==> e'.turns[k].buf == []) && e'.turns[k].lanes.Keys == e.turns[k].lanes.Keys
      && (HeldElse(e'.turns, k) <==> HeldElse(e.turns, k))
  {
    var st, e' := e.turns[k], Flush(e, k);
    if st.buf != [] {
      var e1 := Send(e, k, st.parent, st.buf);
      AdvanceKept(st, st.parent, |Split(st.buf, MAX_DELTA_TEXT_BYTES)|);
      assert e'.turns == e1.turns[k := Cleared(Get(e1, k))];
      SameElse(e.turns, e'.turns, k);
    }
  }

  lemma SameElse(turns: map<Key, St>, turns': map<Key, St>, k: Key)
    requires turns.Keys == turns'.Keys && forall j :: j in turns && j != k ==> turns'[j] == turns[j]
    ensures HeldElse(turns', k) <==> HeldElse(turns, k)
  {
  }

  /** The chunk is empty, it is not one of a complete block, and it is taken while nothing else is held. */
  predicate EmptyAlone(st: St, elsewhere: bool, ev: Event, mintTurn: bool, mintLane: bool)
    requires ev.Text?
  {
    && ev.text == [] && !(ev.complete && ev.parent != "") && Minted(st, ev, mintTurn, mintLane)
    && !ContinuesHeld(st, ev) && !elsewhere
  }

  lemma CompleteExact(e: E, k: Key, ev: Event, mintTurn: bool, mintLane: bool)
    requires TimerExact(e) && ev.Text? && ev.complete && ev.parent != ""
    ensures TimerExact(HandleText(e, k, ev, mintTurn, mintLane))
  {
    FlushExact(e, k);
    EnsureHeld(Flush(e, k), k, ev.parent, mintLane);
    CompletedExact(EnsureLane(Flush(e, k), k, ev.parent, mintLane).0, k, ev.parent, ev.text);
  }

  lemma MainTextExactIff(e: E, k: Key, ev: Event, mintTurn: bool, mintLane: bool)
    requires TimerExact(e) && ev.Text? && ev.parent == "" && k in e.turns
    ensures TimerExact(HandleText(e, k, ev, mintTurn, mintLane)) <==>
      !EmptyAlone(e.turns[k], HeldElse(e.turns, k), ev, mintTurn, mintLane)
  {
    StartHeld(e, k, mintTurn);
    var (e1, ok) := StartTurn(e, k, mintTurn);
    SameElse(e.turns, e1.turns, k);
    if ok {
      AddTextExactIff(e1, k, ev, mintLane);
    }
  }

  lemma TextExactIff(e: E, k: Key, ev: Event, mintTurn: bool, mintLane: bool)
    requires TimerExact(e) && ev.Text? && k in e.turns
    ensures TimerExact(HandleText(e, k, ev, mintTurn, mintLane)) <==>
      !EmptyAlone(e.turns[k], HeldElse(e.turns, k), ev, mintTurn, mintLane)
  {
    if ev.parent == "" {
      MainTextExactIff(e, k, ev, mintTurn, mintLane);
    } else if ev.complete {
      CompleteExact(e, k, ev, mintTurn, mintLane);
    } else {
      AddTextExactIff(e, k, ev, mintLane);
    }
  }

  /** Flushing leaves every other source's entry alone. */
  lemma FlushOthersSame(e: E, k: Key, j: Key)
    requires j != k
    ensures j in Release(Flush(e, k), k).turns <==> j in e.turns
    ensures j in e.turns ==> Release(Flush(e, k), k).turns[j] == e.turns[j]
  {
    FlushOne(e, k);
  }

  lemma FlushOne(e: E, k: Key)
    ensures Flush(e, k).turns == e.turns || Flush(e, k).turns == e.turns[k := Get(Flush(e, k), k)]
  {
    var st := Get(e, k);
    if st.buf != [] {
      var e1 := Send(e, k, st.parent, st.buf);
      assert e1.turns == e.turns || e1.turns == e.turns[k := Get(e1, k)];
      assert Flush(e, k).turns == e1.turns[k := Cleared(Get(e1, k))];
    }
  }

  lemma {:induction false} FlushEachExact(e: E, keys: seq<Key>)
    requires TimerExact(e)
    ensures TimerExact(FlushEach(e, keys))
  {
    if keys != [] {
      var n := |keys| - 1;
      FlushEachExact(e, keys[..n]);
      FlushExact(FlushEach(e, keys[..n]), keys[n]);
      ReleaseHeld(Flush(FlushEach(e, keys[..n]), keys[n]), keys[n]);
    }
  }

  lemma {:induction false} FlushEachLeaves(e: E, keys: seq<Key>, j: Key)
    requires j !in keys
    ensures j in FlushEach(e, keys).turns <==> j in e.turns
    ensures j in e.turns ==> FlushEach(e, keys).turns[j] == e.turns[j]
  {
    if keys != [] {
      var n := |keys| - 1;
      FlushEachLeaves(e, keys[..n], j);
      FlushOthersSame(FlushEach(e, keys[..n]), keys[n], j);
    }
  }

  /** Another conversation holds text. */
  predicate HeldAway(turns: map<Key, St>, c: string) {
    exists j :: j in turns && j.conv != c && turns[j].buf != []
  }

  /** After the conversation's other sources are flushed, only other conversations hold text beside the source itself. */
  lemma VisitedHeld(e: E, k: Key, visit: seq<Key>)
    requires Good(e) && Lists(visit, Others(e, k))
    ensures var e1 := FlushEach(e, visit); (HeldElse(e1.turns, k) <==> HeldAway(e.turns, k.conv)) && Get(e1, k) == Get(e, k)
  {
    var e1 := FlushEach(e, visit);
    FlushEachGood(e, visit);
    FlushEachLeaves(e, visit, k);
    if j :| j in e1.turns && j != k && e1.turns[j].buf != [] {
      assert j in e.turns && j !in visit && j !in Others(e, k);
      assert HeldAway(e.turns, k.conv);
    }
    if j :| j in e.turns && j.conv != k.conv && e.turns[j].buf != [] {
      FlushEachLeaves(e, visit, j);
      assert HeldElse(e1.turns, k);
    }
  }

  lemma SelectHeld(e: E, k: Key)
    ensures var e' := if k in e.turns then e else Put(e, k, BLANK);
      SameHeld(e, e') && k in e'.turns && e'.turns[k] == Get(e, k) && (HeldElse(e'.turns, k) <==> HeldElse(e.turns, k))
  {
    if k !in e.turns {
      PutHeld(e, Put(e, k, BLANK), k, BLANK);
      var e' := Put(e, k, BLANK);
      assert forall j :: j in e.turns && j != k ==> e'.turns[j] == e.turns[j];
    }
  }

  /** The step takes an empty chunk while nothing else is held. */
  predicate ArmsForNothing(e: E, step: Step) {
    step.StepHandle? && step.ev.Text?
    && EmptyAlone(Get(e, step.k), HeldAway(e.turns, step.k.conv), step.ev, step.mintTurn, step.mintLane)
  }

  lemma HandleExactIff(e: E, k: Key, ev: Event, visit: seq<Key>, mintTurn: bool, mintLane: bool)
    requires Good(e) && TimerExact(e) && Lists(visit, Others(e, k))
    ensures TimerExact(Handle(e, k, ev, visit, mintTurn, mintLane)) <==>
      !(ev.Text? && EmptyAlone(Get(e, k), HeldAway(e.turns, k.conv), ev, mintTurn, mintLane))
  {
    FlushEachExact(e, visit);
    VisitedHeld(e, k, visit);
    var e1 := FlushEach(e, visit);
    SelectHeld(e1, k);
    var e2 := if k in e1.turns then e1 else Put(e1, k, BLANK);
    if ev.Text? {
      TextExactIff(e2, k, ev, mintTurn, mintLane);
    } else {
      OtherEventsExact(e2, k, ev, mintTurn, mintLane);
    }
    ReleaseHeld(HandleEvent(e2, k, ev, mintTurn, mintLane), k);
  }

  lemma CloseOneExact(e: E, k: Key)
    requires TimerExact(e)
    ensures TimerExact(CloseOne(e, k))
  {
    FlushExact(e, k);
    var e1 := Flush(e, k);
    EndHeld(e1, k);
    var e2 := if Get(e1, k).main.Some? then EndTurn(e1, k) else e1;
    var st := Get(e2, k).(lanes := map[], launchers := map[], childTools := map[]);
    PutHeld(e2, Put(e2, k, st), k, st);
    ReleaseHeld(Put(e2, k, st), k);
  }

  lemma {:induction false} CloseExact(e: E, keys: seq<Key>)
    requires TimerExact(e)
    ensures TimerExact(CloseEach(e, keys))
  {
    if keys != [] {
      CloseExact(e, keys[..|keys| - 1]);
      CloseOneExact(CloseEach(e, keys[..|keys| - 1]), keys[|keys| - 1]);
    }
  }

  /** With the timer armed exactly while text is held, a step leaves it so if and only if it does not take an empty chunk
      while nothing else is held: the state and the event before the step decide it. */
  lemma TimerExactIff(e: E, step: Step)
    requires Good(e) && TimerExact(e) && Enabled(e, step)
    ensures TimerExact(Apply(e, step)) <==> !ArmsForNothing(e, step)
  {
    match step {
      case StepHandle(k, ev, visit, mintTurn, mintLane) => HandleExactIff(e, k, ev, visit, mintTurn, mintLane);
      case StepFire(visit) => FireGood(e, visit);
      case StepClose(_, keys) => CloseExact(e, keys);
      case StepTick(_) =>
    }
  }

  /** Over every run whose chunks all carry text the timer is armed exactly while some source holds text. */
  lemma {:induction false} TimerExactWithoutEmptyChunks(facts: bool, steps: seq<Step>)
    requires forall i :: 0 <= i < |steps| ==> !(steps[i].StepHandle? && steps[i].ev.Text? && steps[i].ev.text == [])
    ensures TimerExact(Run(facts, steps))
  {
    if steps != [] {
      var n := |steps| - 1;
      TimerExactWithoutEmptyChunks(facts, steps[..n]);
      RunGood(facts, steps[..n]);
      var e := Run(facts, steps[..n]);
      if Enabled(e, steps[n]) {
        TimerExactIff(e, steps[n]);
      }
    }
  }

  /** One empty chunk from the start leaves the timer armed with nobody holding text. */
  lemma EmptyChunkArms(first: Step)
    requires first == StepHandle(A, Text("", "m", [], false), [], true, true)
    ensures Run(false, [first]).timer.Some? && !AnyBuffered(Run(false, [first]).turns)
  {
    var e := Initial(false);
    assert [first][..0] == [];
    assert Run(false, [first]) == Apply(e, first);
    InitialGood(false);
    assert Others(e, A) == {} && Enabled(e, first);
    assert ArmsForNothing(e, first);
    TimerExactIff(e, first);
    StepGood(e, first);
  }

  // ---------------------------------------------------------------- the emitter object

  lemma {:induction false} DeltasSnoc(conv: string, lane: nat, n: nat, parts: seq<Bytes>, last: Bytes)
    ensures Deltas(conv, lane, n, parts + [last]) == Deltas(conv, lane, n, parts) + [Delta(conv, lane, n + |parts|, last)]
    decreases |parts|
  {
    if parts == [] {
      assert (parts + [last])[1..] == [];
    } else {
      DeltasSnoc(conv, lane, n + 1, parts[1..], last);
      assert (parts + [last])[1..] == parts[1..] + [last];
    }
  }

  lemma SendLoop(before: seq<Item>, conv: string, lane: Lane, parts: seq<Bytes>, i: nat)
    requires i < |parts|
    ensures before + Deltas(conv, lane.id, lane.next, parts[..i]) + [Delta(conv, lane.id, lane.next + i, parts[i])]
            == before + Deltas(conv, lane.id, lane.next, parts[..i + 1])
  {
    DeltasSnoc(conv, lane.id, lane.next, parts[..i], parts[i]);
    assert parts[..i + 1] == parts[..i] + [parts[i]];
  }

  lemma AdvanceNone(st: St, p: string)
    ensures Advance(st, p, 0) == st
  {
    if p != "" && p in st.lanes {
      assert st.lanes[p := st.lanes[p]] == st.lanes;
    }
  }

  lemma AdvanceTwice(st: St, p: string, n: nat)
    ensures Advance(Advance(st, p, n), p, 1) == Advance(st, p, n + 1)
  {
  }

  class Emitter {
    var turns: map<Key, St>
    var nextOrder: nat
    var snap: map<string, Phase>
    var trace: seq<Item>
    var ids: nat
    var timer: Option<nat>
    var clock: nat
    const facts: bool

    ghost function View(): E
      reads this
    {
      E(turns, nextOrder, snap, trace, ids, timer, clock, facts)
    }

    ghost predicate Valid()
      reads this
    {
      Good(View())
    }

    constructor (facts: bool)
      ensures Valid() && View() == Initial(facts)
    {
      this.facts := facts;
      turns, nextOrder, snap, trace, ids, timer, clock := map[], 0, map[], [], 1, None, 0;
      new;
      InitialGood(facts);
    }

    /** One delta on the lane; its counter advances after the emission. */
    method SendPiece(k: Key, parent: string, piece: Bytes)
      requires k in turns && LaneAt(turns[k], parent).Some?
      modifies this`turns, this`trace
      ensures var lane := LaneAt(old(turns)[k], parent).value;
        trace == old(trace) + [Delta(k.conv, lane.id, lane.next, piece)] && turns == old(turns)[k := Advance(old(turns)[k], parent, 1)]
    {
      var lane := LaneAt(turns[k], parent).value;
      trace := trace + [Delta(k.conv, lane.id, lane.next, piece)];
      turns := turns[k := Advance(turns[k], parent, 1)];
    }

    /** The emission loop: one delta per piece. */
    method SendPieces(k: Key, parent: string, parts: seq<Bytes>)
      requires k in turns && LaneAt(turns[k], parent).Some?
      modifies this`turns, this`trace
      ensures var lane := LaneAt(old(turns)[k], parent).value;
        trace == old(trace) + Deltas(k.conv, lane.id, lane.next, parts) && turns == old(turns)[k := Advance(old(turns)[k], parent, |parts|)]
    {
      ghost var st, before, was := turns[k], trace, turns;
      ghost var lane := LaneAt(st, parent).value;
      AdvanceNone(st, parent);
      for i := 0 to |parts|
        invariant trace == before + Deltas(k.conv, lane.id, lane.next, parts[..i])
        invariant turns == was[k := Advance(st, parent, i)]
      {
        AdvanceLanes(st, parent, i, parent);
        SendPiece(k, parent, parts[i]);
        SendLoop(before, k.conv, lane, parts, i);
        AdvanceTwice(st, parent, i);
      }
      assert parts[..|parts|] == parts;
    }

    method SendText(k: Key, parent: string, text: Bytes)
      requires k in turns && LaneAt(turns[k], parent).Some?
      modifies this`turns, this`trace
      ensures View() == Send(old(View()), k, parent, text)
    {
      var parts := SplitDeltaText(text, MAX_DELTA_TEXT_BYTES);
      SendPieces(k, parent, parts);
    }

    method AnyHeld() returns (some: bool)
      ensures some == AnyBuffered(turns)
    {
      var todo := turns.Keys;
      while todo != {}
        invariant todo <= turns.Keys && forall k :: k in turns && k !in todo ==> turns[k].buf == []
        decreases |todo|
      {
        var k :| k in todo;
        if turns[k].buf != [] {
          return true;
        }
        todo := todo - {k};
      }
      return false;
    }

    method FlushDelta(k: Key)
      requires k in turns && (turns[k].buf != [] ==> LaneAt(turns[k], turns[k].parent).Some?)
      modifies this`turns, this`trace, this`timer
      ensures View() == Flush(old(View()), k)
    {
      if turns[k].buf == [] {
        return;
      }
      SendText(k, turns[k].parent, turns[k].buf);
      turns := turns[k := turns[k].(buf := [], msg := "", parent := "")];
      var held := AnyHeld();
      if !held {
        timer := None;
      }
    }

    method ReleaseSource(k: Key)
      modifies this`turns
      ensures View() == Release(old(View()), k)
    {
      if k in turns && turns[k].main.None? && turns[k].buf == [] && turns[k].lanes == map[]
         && turns[k].launchers == map[] && turns[k].childTools == map[] {
        turns := turns - {k};
      }
    }

    method StartTurnIfNeeded(k: Key, minted: bool) returns (ok: bool)
      requires k in turns
      modifies this`turns, this`trace, this`ids
      ensures (View(), ok) == StartTurn(old(View()), k, minted)
    {
      if turns[k].main.Some? {
        return true;
      }
      if !minted {
        return false;
      }
      turns := turns[k := turns[k].(main := Some(Lane(ids, 0)), phase := Quiet)];
      if facts {
        trace := trace + [Opened(k.conv, ids)];
      }
      ids := ids + 1;
      ok := true;
    }

    method EnsureDeltaLane(k: Key, parent: string, minted: bool) returns (ok: bool)
      requires k in turns
      modifies this`turns, this`ids
      ensures (View(), ok) == EnsureLane(old(View()), k, parent, minted)
    {
      if parent == "" || parent in turns[k].lanes {
        return true;
      }
      if !minted {
        return false;
      }
      turns := turns[k := turns[k].(lanes := turns[k].lanes[parent := Lane(ids, 0)])];
      ids := ids + 1;
      ok := true;
    }

    /** runningPhase: one pass over the retained sources keeps the most recently active one. */
    method RunningPhase(c: string) returns (phase: Phase)
      requires PhaseOk(turns, nextOrder)
      ensures phase == Projected(turns, c)
    {
      var latest: Option<Key> := None;
      var todo := turns.Keys;
      while todo != {}
        invariant todo <= turns.Keys
        invariant latest.None? ==> forall j :: j in turns && j !in todo && j.conv == c ==> !Running(turns[j])
        invariant latest.Some? ==> latest.value in turns && latest.value.conv == c && Running(turns[latest.value])
        invariant latest.Some? ==> forall j :: j in turns && j !in todo && j.conv == c && Running(turns[j]) ==>
          turns[j].order <= turns[latest.value].order
        decreases |todo|
      {
        var k :| k in todo;
        if k.conv == c && Running(turns[k]) && (latest.None? || turns[latest.value].order < turns[k].order) {
          latest := Some(k);
        }
        todo := todo - {k};
      }
      if latest.Some? {
        ProjectedIs(turns, nextOrder, c, latest.value);
        return turns[latest.value].phase;
      }
      ProjectedNone(turns, nextOrder, c);
      return Quiet;
    }

    method PublishPhase(c: string, previous: Phase, now: Phase)
      modifies this`snap, this`trace
      ensures View() == AnnounceAs(old(View()), c, previous, now)
    {
      if now == previous && now != Quiet {
        return;
      }
      snap := if now == Quiet then snap - {c} else snap[c := now];
      trace := trace + [PhaseFrame(c, now)];
    }

    method SetPhase(k: Key, phase: Phase)
      requires k in turns && PhaseOk(turns, nextOrder) && turns[k].main.Some? && phase != Quiet
      modifies this`turns, this`nextOrder
      ensures View() == Activated(old(View()), k, phase)
    {
      nextOrder := nextOrder + 1;
      turns := turns[k := turns[k].(phase := phase, order := nextOrder)];
    }

    /** transitionTo a running phase. */
    method TransitionTo(k: Key, phase: Phase)
      requires k in turns && PhaseOk(turns, nextOrder) && turns[k].main.Some? && phase != Quiet
      modifies this`turns, this`nextOrder, this`snap, this`trace
      ensures View() == Activate(old(View()), k, phase)
    {
      ghost var e := View();
      ActivateIs(e, k, phase);
      var previous := RunningPhase(k.conv);
      SetPhase(k, phase);
      var now := RunningPhase(k.conv);
      PublishPhase(k.conv, previous, now);
      assert View() == AnnounceAs(Activated(e, k, phase), k.conv, previous, now);
    }

    /** transitionTo idle and endTurn. */
    method CloseTurn(k: Key)
      requires k in turns && PhaseOk(turns, nextOrder)
      modifies this`turns, this`snap, this`trace
      ensures View() == EndTurn(old(View()), k)
    {
      var previous := RunningPhase(k.conv);
      turns := turns[k := turns[k].(main := None, phase := Quiet, order := 0)];
      var now := RunningPhase(k.conv);
      PublishPhase(k.conv, previous, now);
    }
  
    method RememberLauncher(k: Key, tool: string, launcher: bool, origin: nat)
      requires k in turns
      modifies this`turns
      ensures View() == Remember(old(View()), k, tool, launcher, origin)
    {
      if tool == "" || !launcher {
        return;
      }
      var st := turns[k];
      if !(tool in st.launchers && st.launchers[tool] != 0) {
        turns := turns[k := st.(launchers := st.launchers[tool := origin])];
      }
    }

    method EmitAt(k: Key, turn: nat)
      modifies this`trace
      ensures View() == EmitFrame(old(View()), k, turn)
    {
      trace := trace + [Frame(k.conv, turn)];
    }

    method FixOriginOf(k: Key, parent: string, tool: string, minted: bool) returns (origin: nat, ok: bool)
      requires k in turns
      modifies this`turns, this`ids
      ensures (View(), origin, ok) == FixedOrigin(old(View()), k, parent, tool, minted)
    {
      origin := At(turns[k].launchers, parent);
      if origin == 0 {
        ok := EnsureDeltaLane(k, parent, minted);
        if !ok {
          return 0, false;
        }
        origin := if LaneAt(turns[k], parent).Some? then LaneAt(turns[k], parent).value.id else 0;
      }
      if tool != "" {
        turns := turns[k := turns[k].(childTools := turns[k].childTools[tool := origin])];
      }
      ok := true;
    }

    method EmitChildTool(k: Key, parent: string, tool: string, minted: bool) returns (origin: nat)
      requires Safe(View(), k) && Safe(FixedOrigin(View(), k, parent, tool, minted).0, k)
      modifies this`turns, this`trace, this`ids, this`timer
      ensures (View(), origin) == ChildTool(old(View()), k, parent, tool, minted)
    {
      origin := At(turns[k].childTools, tool);
      var ok := true;
      if origin == 0 {
        origin, ok := FixOriginOf(k, parent, tool, minted);
      }
      if ok {
        FlushDelta(k);
        EmitAt(k, origin);
      }
    }

    /** The tail of the text arm: the chunk joins the buffer and may start the window. */
    method TakeChunk(k: Key, parent: string, msg: string, text: Bytes)
      requires k in turns
      modifies this`turns, this`trace, this`timer
      ensures View() == Take(old(View()), k, parent, msg, text)
    {
      var st := turns[k];
      var wasEmpty := st.buf == [];
      var others := AnyHeld();
      turns := turns[k := st.(buf := st.buf + text, msg := msg, parent := parent, since := if wasEmpty then clock else st.since)];
      if wasEmpty && !others {
        timer := Some(clock + WINDOW);
      }
      var lane := LaneAt(st, parent);
      trace := trace + [Arrive(k.conv, if lane.Some? then lane.value.id else 0, text)];
    }

    /** emitCompleteChildText. */
    method EmitCompleteChildText(k: Key, ev: Event, mintTurn: bool, mintLane: bool)
      requires ev.Text? && ev.complete && ev.parent != "" && CompleteSafe(View(), k, ev.parent, mintLane)
      modifies this`turns, this`trace, this`ids, this`timer
      ensures View() == HandleText(old(View()), k, ev, mintTurn, mintLane)
    {
      FlushDelta(k);
      var ok := EnsureDeltaLane(k, ev.parent, mintLane);
      if ok {
        trace := trace + [Arrive(k.conv, LaneAt(turns[k], ev.parent).value.id, ev.text)];
        SendText(k, ev.parent, ev.text);
      }
    }

    method PlaceChunk(k: Key, ev: Event, mintLane: bool)
      requires ev.Text? && PlaceSafe(View(), k, ev, mintLane)
      modifies this
      ensures View() == PlaceText(old(View()), k, ev, mintLane)
    {
      var ok := EnsureDeltaLane(k, ev.parent, mintLane);
      if ok {
        if ev.parent == "" {
          TransitionTo(k, Responding);
        }
        TakeChunk(k, ev.parent, ev.msg, ev.text);
      }
    }

    method AddChunk(k: Key, ev: Event, mintLane: bool)
      requires ev.Text? && ChunkSafe(View(), k, ev, mintLane)
      modifies this
      ensures View() == AddText(old(View()), k, ev, mintLane)
    {
      if turns[k].buf != [] && (ev.parent != turns[k].parent || ev.msg != turns[k].msg) {
        FlushDelta(k);
      }
      PlaceChunk(k, ev, mintLane);
    }

    method HandleTextChunk(k: Key, ev: Event, mintTurn: bool, mintLane: bool)
      requires Ready(View(), k) && ev.Text?
      modifies this
      ensures View() == HandleText(old(View()), k, ev, mintTurn, mintLane)
    {
      if ev.complete && ev.parent != "" {
        CompleteIsSafe(View(), k, ev.parent, mintLane);
        EmitCompleteChildText(k, ev, mintTurn, mintLane);
        return;
      }
      var ok := true;
      if ev.parent == "" {
        StartReady(View(), k, mintTurn);
        ok := StartTurnIfNeeded(k, mintTurn);
      }
      if ok {
        ChunkIsSafe(View(), k, ev, mintLane);
        AddChunk(k, ev, mintLane);
      }
    }
  
    /** Opens the turn if needed and flushes; the shared head of the content arms. */
    method OpenAndFlush(k: Key, minted: bool) returns (ok: bool)
      requires Ready(View(), k)
      modifies this`turns, this`trace, this`ids, this`timer
      ensures ok == StartTurn(old(View()), k, minted).1
      ensures View() == (if ok then Flush(StartTurn(old(View()), k, minted).0, k) else StartTurn(old(View()), k, minted).0)
      ensures Safe(View(), k) && (ok ==> turns[k].main.Some?)
    {
      OpenIsSafe(View(), k, minted);
      ok := StartTurnIfNeeded(k, minted);
      if ok {
        FlushDelta(k);
      }
    }

    method OpenInPhase(k: Key, minted: bool, phase: Phase) returns (ok: bool)
      requires Ready(View(), k) && phase != Quiet
      modifies this
      ensures ok == StartTurn(old(View()), k, minted).1 && k in turns
      ensures View() == (var e := StartTurn(old(View()), k, minted).0; if ok then Activate(Flush(e, k), k, phase) else e)
    {
      ok := OpenAndFlush(k, minted);
      if ok {
        TransitionTo(k, phase);
      }
    }

    method HandleThinking(k: Key, ev: Event, mintTurn: bool, mintLane: bool)
      requires Ready(View(), k) && (ev.Thought? || ev.Progress?)
      modifies this
      ensures View() == HandleEvent(old(View()), k, ev, mintTurn, mintLane)
    {
      if ev.child {
        return;
      }
      var ok := OpenInPhase(k, mintTurn, Thinking);
      if ok && ev.Progress? {
        EmitAt(k, TurnId(turns[k]));
      }
    }

    method HandleChildTool(k: Key, ev: Event, mintTurn: bool, mintLane: bool)
      requires Ready(View(), k) && (ev.ToolStart? || ev.ToolUpdate?) && ev.parent != ""
      modifies this
      ensures View() == HandleEvent(old(View()), k, ev, mintTurn, mintLane)
    {
      ChildIsSafe(View(), k, ev.parent, ev.tool, mintLane);
      var origin := EmitChildTool(k, ev.parent, ev.tool, mintLane);
      if ev.ToolStart? {
        RememberLauncher(k, ev.tool, ev.launcher, origin);
      }
    }

    method HandleTool(k: Key, ev: Event, mintTurn: bool, mintLane: bool)
      requires Ready(View(), k) && (ev.ToolStart? || ev.ToolUpdate?)
      modifies this
      ensures View() == HandleEvent(old(View()), k, ev, mintTurn, mintLane)
    {
      if ev.parent != "" {
        HandleChildTool(k, ev, mintTurn, mintLane);
        return;
      }
      var ok := OpenInPhase(k, mintTurn, Responding);
      if ok {
        var turn := TurnId(turns[k]);
        if ev.ToolStart? {
          RememberLauncher(k, ev.tool, ev.launcher, turn);
        }
        EmitAt(k, turn);
      }
    }

    method HandleToolMark(k: Key, ev: Event, mintTurn: bool, mintLane: bool)
      requires Ready(View(), k) && ev.ToolMark?
      modifies this
      ensures View() == HandleEvent(old(View()), k, ev, mintTurn, mintLane)
    {
      var origin := At(turns[k].childTools, ev.tool);
      if origin != 0 {
        ReadySafe(View(), k);
        FlushDelta(k);
        EmitAt(k, origin);
        return;
      }
      StartReady(View(), k, mintTurn);
      FlushReady(StartTurn(View(), k, mintTurn).0, k);
      var ok := OpenAndFlush(k, mintTurn);
      if ok {
        EmitAt(k, TurnId(turns[k]));
      }
    }

    method HandleStatus(k: Key, ev: Event, mintTurn: bool, mintLane: bool)
      requires EndSafe(View(), k) && ev.Status?
      modifies this
      ensures View() == HandleEvent(old(View()), k, ev, mintTurn, mintLane)
    {
      var turn := TurnId(turns[k]);
      FlushDelta(k);
      EmitAt(k, turn);
    }

    method HandleTurnEnd(k: Key, ev: Event, mintTurn: bool, mintLane: bool)
      requires EndSafe(View(), k) && ev.TurnEnd?
      modifies this
      ensures View() == HandleEvent(old(View()), k, ev, mintTurn, mintLane)
    {
      if turns[k].main.Some? {
        var turn := TurnId(turns[k]);
        FlushDelta(k);
        EmitAt(k, turn);
        CloseTurn(k);
      }
    }

    method Dispatch(k: Key, ev: Event, mintTurn: bool, mintLane: bool)
      requires Ready(View(), k)
      modifies this
      ensures View() == HandleEvent(old(View()), k, ev, mintTurn, mintLane)
    {
      match ev {
        case Thought(_) => HandleThinking(k, ev, mintTurn, mintLane);
        case Progress(_) => HandleThinking(k, ev, mintTurn, mintLane);
        case Text(_, _, _, _) => HandleTextChunk(k, ev, mintTurn, mintLane);
        case ToolStart(_, _, _) => HandleTool(k, ev, mintTurn, mintLane);
        case ToolUpdate(_, _) => HandleTool(k, ev, mintTurn, mintLane);
        case ToolMark(_) => HandleToolMark(k, ev, mintTurn, mintLane);
        case Status =>
          EndIsSafe(View(), k);
          HandleStatus(k, ev, mintTurn, mintLane);
        case TurnEnd =>
          EndIsSafe(View(), k);
          HandleTurnEnd(k, ev, mintTurn, mintLane);
        case Silent =>
      }
    }

    method FlushIfHeld(k: Key)
      requires Valid()
      modifies this`turns, this`trace, this`timer
      ensures View() == (if Buffered(old(View()), k) then Release(Flush(old(View()), k), k) else old(View())) && Valid()
    {
      FlushOneGood(View(), k);
      if k in turns && turns[k].buf != [] {
        FlushDelta(k);
        ReleaseSource(k);
      }
    }

    /** Visits the given sources in some order; visit records it. */
    method FlushSources(which: set<Key>) returns (ghost visit: seq<Key>)
      requires Valid()
      modifies this`turns, this`trace, this`timer
      ensures View() == FlushEach(old(View()), visit) && Lists(visit, which) && Valid()
    {
      ghost var e := View();
      var todo := which;
      visit := [];
      while todo != {}
        invariant Valid() && View() == FlushEach(e, visit) && todo <= which
        invariant forall k :: k in which && k !in todo <==> k in visit
        invariant forall i, j :: 0 <= i < j < |visit| ==> visit[i] != visit[j]
        decreases |todo|
      {
        var k :| k in todo;
        assert (visit + [k])[..|visit|] == visit;
        FlushIfHeld(k);
        visit := visit + [k];
        todo := todo - {k};
      }
    }

    /** handleForSource. */
    method HandleForSource(k: Key, ev: Event, mintTurn: bool, mintLane: bool) returns (ghost visit: seq<Key>)
      requires Valid() && k.conv != ""
      modifies this
      ensures Lists(visit, Others(old(View()), k)) && View() == Handle(old(View()), k, ev, visit, mintTurn, mintLane)
      ensures Valid()
    {
      ghost var e := View();
      visit := FlushSources(set j | j in turns && j.conv == k.conv && j != k);
      HandleGood(e, k, ev, visit, mintTurn, mintLane);
      HandleSelects(e, k, visit);
      if k !in turns {
        turns := turns[k := BLANK];
      }
      Dispatch(k, ev, mintTurn, mintLane);
      ReleaseSource(k);
    }

    /** flushAll. */
    method FlushAll() returns (ghost visit: seq<Key>)
      requires Valid()
      modifies this`turns, this`trace, this`timer
      ensures Lists(visit, old(View()).turns.Keys) && View() == Fire(old(View()), visit) && Valid()
    {
      ghost var e := View();
      visit := FlushSources(turns.Keys);
      FireGood(e, visit);
      timer := None;
    }
  
    /** The sources of a conversation in closing order. */
    method SortSources(c: string) returns (keys: seq<Key>)
      ensures CloseOrder(View(), c, keys)
    {
      var todo := set k | k in turns && k.conv == c;
      keys := [];
      while todo != {}
        invariant todo <= SourcesOf(View(), c)
        invariant forall k :: k in keys <==> k in SourcesOf(View(), c) && k !in todo
        invariant forall i :: 0 <= i < |keys| ==> keys[i] in turns
        invariant forall i, j :: 0 <= i < j < |keys| ==> keys[i] != keys[j] && Precedes(turns, keys[i], keys[j])
        invariant forall i, k :: 0 <= i < |keys| && k in todo ==> Precedes(turns, keys[i], k)
        decreases |todo|
      {
        var k := FirstSource(todo, c);
        keys := keys + [k];
        todo := todo - {k};
      }
    }

    method FirstSource(among: set<Key>, c: string) returns (k: Key)
      requires among != {} && among <= turns.Keys && forall j :: j in among ==> j.conv == c
      ensures k in among && forall j :: j in among && j != k ==> Precedes(turns, k, j)
    {
      k :| k in among;
      var rest := among - {k};
      while rest != {}
        invariant k in among && rest <= among && k !in rest
        invariant forall j :: j in among && j !in rest && j != k ==> Precedes(turns, k, j)
        decreases |rest|
      {
        var j :| j in rest;
        if Precedes(turns, j, k) {
          k := j;
        }
        rest := rest - {j};
      }
    }

    method CloseSource(k: Key)
      requires Safe(View(), k) && Safe(Flush(View(), k), k)
      modifies this
      ensures View() == CloseOne(old(View()), k)
    {
      FlushDelta(k);
      if turns[k].main.Some? {
        CloseTurn(k);
      }
      turns := turns[k := turns[k].(lanes := map[], launchers := map[], childTools := map[])];
      ReleaseSource(k);
    }

    /** closeForConversation: every source, the least recently active first. */
    method CloseForConversation(c: string) returns (keys: seq<Key>)
      requires Valid()
      modifies this
      ensures CloseOrder(old(View()), c, keys) && View() == CloseEach(old(View()), keys) && Valid()
    {
      ghost var e := View();
      keys := SortSources(c);
      CloseGood(e, c, keys);
      CloseOrderLists(e, c, keys);
      for i := 0 to |keys|
        invariant View() == CloseEach(e, keys[..i])
      {
        CloseNext(e, c, keys, i);
        CloseSource(keys[i]);
      }
      assert keys[..|keys|] == keys;
    }
  }

  /** What one source's operations need of the state they run in. */
  predicate Safe(e: E, k: Key) {
    && k in e.turns && (e.turns[k].buf != [] ==> LaneAt(e.turns[k], e.turns[k].parent).Some?)
    && PhaseOk(e.turns, e.order)
  }

  lemma ReadySafe(e: E, k: Key)
    requires Ready(e, k)
    ensures Safe(e, k)
  {
  }

  predicate EndSafe(e: E, k: Key) {
    Safe(e, k) && Safe(Flush(e, k), k)
  }

  lemma EndIsSafe(e: E, k: Key)
    requires Ready(e, k)
    ensures EndSafe(e, k)
  {
    ReadySafe(e, k);
    FlushReady(e, k);
    ReadySafe(Flush(e, k), k);
  }

  lemma ChildIsSafe(e: E, k: Key, parent: string, tool: string, minted: bool)
    requires Ready(e, k)
    ensures Safe(e, k) && Safe(FixedOrigin(e, k, parent, tool, minted).0, k) && k in ChildTool(e, k, parent, tool, minted).0.turns
  {
    ReadySafe(e, k);
    FixedReady(e, k, parent, tool, minted);
    ReadySafe(FixedOrigin(e, k, parent, tool, minted).0, k);
    ChildToolReady(e, k, parent, tool, minted);
  }

  lemma CloseIsSafe(e: E, k: Key)
    requires Calm(e) && k in e.turns
    ensures Safe(e, k) && Safe(Flush(e, k), k)
  {
    FlushKept(e, k);
    FlushPhases(e, k);
  }

  lemma CloseThere(e: E, c: string, keys: seq<Key>, i: nat)
    requires Calm(e) && SourcesInOrder(e, c, keys) && i < |keys|
    ensures Calm(CloseEach(e, keys[..i])) && keys[i] in CloseEach(e, keys[..i]).turns
  {
    CloseRun(e, c, keys, i);
    LeftStep(e.turns, keys, i);
  }

  lemma CloseNext(e: E, c: string, keys: seq<Key>, i: nat)
    requires Calm(e) && SourcesInOrder(e, c, keys) && i < |keys|
    ensures var ei := CloseEach(e, keys[..i]);
      Safe(ei, keys[i]) && Safe(Flush(ei, keys[i]), keys[i]) && CloseEach(e, keys[..i + 1]) == CloseOne(ei, keys[i])
  {
    CloseThere(e, c, keys, i);
    CloseIsSafe(CloseEach(e, keys[..i]), keys[i]);
    CloseEachStep(e, keys, i + 1);
  }

  predicate CompleteSafe(e: E, k: Key, parent: string, mintLane: bool) {
    var (e2, ok) := EnsureLane(Flush(e, k), k, parent, mintLane);
    Safe(e, k) && Safe(Flush(e, k), k) && Safe(e2, k) && (ok ==> LaneAt(e2.turns[k], parent).Some?)
  }

  lemma CompleteIsSafe(e: E, k: Key, parent: string, mintLane: bool)
    requires Ready(e, k) && parent != ""
    ensures CompleteSafe(e, k, parent, mintLane)
  {
    ReadySafe(e, k);
    FlushReady(e, k);
    ReadySafe(Flush(e, k), k);
    EnsureReady(Flush(e, k), k, parent, mintLane);
    ReadySafe(EnsureLane(Flush(e, k), k, parent, mintLane).0, k);
  }

  predicate PlaceSafe(e: E, k: Key, ev: Event, mintLane: bool)
    requires ev.Text?
  {
    var e1 := EnsureLane(e, k, ev.parent, mintLane).0;
    Safe(e, k) && Safe(e1, k) && (ev.parent == "" ==> e1.turns[k].main.Some?)
  }

  predicate ChunkSafe(e: E, k: Key, ev: Event, mintLane: bool)
    requires ev.Text?
  {
    Safe(e, k) && PlaceSafe(Bounded(e, k, ev), k, ev, mintLane)
  }

  lemma ChunkIsSafe(e: E, k: Key, ev: Event, mintLane: bool)
    requires Ready(e, k) && ev.Text? && (ev.parent == "" ==> e.turns[k].main.Some?)
    ensures ChunkSafe(e, k, ev, mintLane)
  {
    var st := e.turns[k];
    ReadySafe(e, k);
    FlushReady(e, k);
    var e1 := if st.buf != [] && (ev.parent != st.parent || ev.msg != st.msg) then Flush(e, k) else e;
    ReadySafe(e1, k);
    EnsureReady(e1, k, ev.parent, mintLane);
    ReadySafe(EnsureLane(e1, k, ev.parent, mintLane).0, k);
  }

  lemma OpenIsSafe(e: E, k: Key, minted: bool)
    requires Ready(e, k)
    ensures var (e1, ok) := StartTurn(e, k, minted);
      && Safe(e, k) && Safe(e1, k) && (ok ==> Safe(Flush(e1, k), k) && Flush(e1, k).turns[k].main.Some?)
  {
    ReadySafe(e, k);
    StartReady(e, k, minted);
    var (e1, ok) := StartTurn(e, k, minted);
    ReadySafe(e1, k);
    if ok {
      FlushReady(e1, k);
      ReadySafe(Flush(e1, k), k);
    }
  }

  /** After the other sources' text is out, the event's own source is ready. */
  lemma HandleSelects(e: E, k: Key, visit: seq<Key>)
    requires Good(e) && Lists(visit, Others(e, k))
    ensures var e1 := FlushEach(e, visit); Ready(if k in e1.turns then e1 else Put(e1, k, BLANK), k)
  {
    FlushEachGood(e, visit);
    var e1 := FlushEach(e, visit);
    if k !in e1.turns {
      BlankGood(e1, k);
    }
    var e2 := if k in e1.turns then e1 else Put(e1, k, BLANK);
    forall j | j in e2.turns && j.conv == k.conv && j != k ensures e2.turns[j].buf == [] {
      assert j in Others(e, k);
    }
  }
}