/** The daemon's live-state owner: generations, revisions, reservations and retirement.
    Each critical section of the owner's mutex is one step. */
module LiveState {
  import opened Common

  type ConvId = string

  /** Envelope types. The first twenty are the retained families; the next three map into them. */
  datatype Kind =
    | TurnState | Stall | ApiRetry | Compacting | ThinkingProgress | ToolProgress
    | BackgroundTaskProgress | RateLimited | ContextUsage | ModelAnnounced | SessionFacts
    | McpStatus | SlashCommandList | ModelList
    | ModalShown | QuestionShown | Resetting | SessionError | ReplySuggestion | SessionSettings
    | ModalDismissed | QuestionDismissed | SessionSettingsUpdated
    | OtherKind

  const FAMILIES: seq<Kind> := [
    TurnState, Stall, ApiRetry, Compacting, ThinkingProgress, ToolProgress,
    BackgroundTaskProgress, RateLimited, ContextUsage, ModelAnnounced, SessionFacts,
    McpStatus, SlashCommandList, ModelList,
    ModalShown, QuestionShown, Resetting, SessionError, ReplySuggestion, SessionSettings]

  function Family(k: Kind): Kind {
    match k
    case ModalDismissed => ModalShown
    case QuestionDismissed => QuestionShown
    case SessionSettingsUpdated => SessionSettings
    case _ => k
  }

  predicate Dismissal(k: Kind) {
    k.ModalDismissed? || k.QuestionDismissed?
  }

  /** Families a stopped conversation still accepts. */
  predicate Control(k: Kind) {
    || Family(k) in {ModalShown, QuestionShown, Resetting, SessionError, ReplySuggestion, SessionSettings}
    || k in {ContextUsage, McpStatus, SlashCommandList, ModelList}
  }

  /** Progress that cannot outlive its process. */
  predicate Progress(k: Kind) {
    k.ToolProgress? || k.ThinkingProgress? || k.BackgroundTaskProgress?
  }

  datatype Provenance = Provenance(kind: string, session: string)

  datatype Tag = NoTag | NullTag | SessionTag(session: string)

  function TagOf(p: Provenance): Tag {
    if p.kind == "none" then NullTag else if p.session == "" then NoTag else SessionTag(p.session)
  }

  datatype Payload = EmptyObject | Phase(running: bool) | Opaque(id: int)

  /** wellFormed stands for valid JSON within the envelope size cap. */
  datatype Envelope = Envelope(kind: Kind, payload: Payload, tag: Tag, cleared: bool, wellFormed: bool)

  predicate ValidEnvelope(e: Envelope) {
    e.wellFormed && !e.kind.OtherKind? && (e.cleared ==> e.payload.EmptyObject?)
  }

  datatype Key = Key(family: Kind, id: string)
  datatype RevisionKey = RevisionKey(generation: nat, key: Key)
  datatype Reading = Reading(envelope: Envelope, conv: ConvId, generation: nat, id: string, revision: nat,
                             answerable: Option<bool>)
  datatype ProducerKey = ProducerKey(session: string, incarnation: nat)
  datatype Source = Source(conv: ConvId, generation: nat, provenance: Provenance, producer: ProducerKey)

  const NO_SOURCE: Source := Source("", 0, Provenance("", ""), ProducerKey("", 0))

  datatype Conversation = Conversation(
    generation: nat, session: string, incarnation: nat, stopped: bool,
    readings: map<Key, Reading>, revisions: map<RevisionKey, nat>, scopes: map<Key, string>,
    catalogReply: nat)
  {
    /** The ordering counter of key in the current generation. */
    function Counter(key: Key): nat {
      if RevisionKey(generation, key) in revisions then revisions[RevisionKey(generation, key)] else 0
    }

    function Bump(key: Key): Conversation {
      this.(revisions := revisions[RevisionKey(generation, key) := Counter(key) + 1])
    }

    /** A retained reading that carries the newest revision of its key. */
    predicate Settled(key: Key) {
      key in readings && readings[key].revision == Counter(key)
    }
  }

  datatype Operation = Operation(source: Source, key: Key, revision: nat, generation: nat, replyOnly: bool)

  /** published is the sequence of readings handed to the publisher. */
  datatype State = State(
    conversations: map<ConvId, Conversation>, sources: map<ProducerKey, Source>, turns: set<Source>,
    nextGeneration: nat, published: seq<Reading>)

  const INITIAL: State := State(map[], map[], {}, 0, [])

  // ---------------------------------------------------------------- steps

  function Put(s: State, conv: ConvId, c: Conversation): State {
    s.(conversations := s.conversations[conv := c])
  }

  function Fresh(s: State, conv: ConvId, session: string): State {
    Put(s, conv, Conversation(s.nextGeneration + 1, session, 0, false, map[], map[], map[], 0))
    .(nextGeneration := s.nextGeneration + 1)
  }

  function Release(s: State, conv: ConvId): State {
    s.(sources := map k | k in s.sources && s.sources[k].conv != conv :: s.sources[k],
       turns := set src | src in s.turns && src.conv != conv)
  }

  predicate Accepts(s: State, src: Source, kind: Kind) {
    && src.conv in s.conversations
    && src.generation != 0
    && src.generation == s.conversations[src.conv].generation
    && (s.conversations[src.conv].stopped ==> Control(kind))
  }

  function Admit(s: State, src: Source, e: Envelope, id: string, scope: string, answerable: Option<bool>)
    : (State, Option<Reading>)
  {
    var tagged := e.(tag := TagOf(src.provenance));
    if !Accepts(s, src, e.kind) || !ValidEnvelope(tagged) then (s, None)
    else
      var key := Key(Family(e.kind), id);
      var c := s.conversations[src.conv].Bump(key);
      var r := Reading(tagged, src.conv, src.generation, id, c.Counter(key), answerable);
      var c' := if Dismissal(e.kind) then c.(readings := c.readings - {key}, scopes := c.scopes - {key})
                else c.(readings := c.readings[key := r], scopes := c.scopes[key := scope]);
      (Put(s, src.conv, c').(published := s.published + [r]), Some(r))
  }

  function ClearedMarker(family: Kind): Envelope {
    Envelope(family, EmptyObject, NoTag, true, true)
  }

  function AdmitMarkers(s: State, src: Source, families: seq<Kind>): State {
    if families == [] then s
    else
      var n := |families| - 1;
      Admit(AdmitMarkers(s, src, families[..n]), src, ClearedMarker(families[n]), "", "", None).0
  }

  function Advanced(s: State, conv: ConvId, session: string): State
    requires conv in s.conversations
  {
    var c := s.conversations[conv];
    var g := c.generation + 1;
    Release(Put(s, conv, Conversation(g, session, c.incarnation, false, map[], map[], map[], 0)), conv)
    .(nextGeneration := if g > s.nextGeneration then g else s.nextGeneration)
  }

  function AdvanceOver(s: State, conv: ConvId, session: string, p: Provenance, families: seq<Kind>): State
    requires conv in s.conversations
  {
    AdmitMarkers(Advanced(s, conv, session),
                 Source(conv, s.conversations[conv].generation + 1, p, ProducerKey("", 0)), families)
  }

  function Advance(s: State, conv: ConvId, session: string, p: Provenance): State
    requires conv in s.conversations
  {
    AdvanceOver(s, conv, session, p, FAMILIES)
  }

  /** First section of capture: an already bound producer. */
  function CaptureBound(s: State, key: ProducerKey, p: Provenance): (State, Option<Source>) {
    if key !in s.sources then (s, None)
    else if p.kind == "" then (s, Some(s.sources[key]))
    else
      var bound := s.sources[key].(provenance := p);
      (s.(sources := s.sources[key := bound]), Some(bound))
  }

  /** The end of capture: the producer joins the conversation its session owns. */
  function Joined(s: State, key: ProducerKey, p: Provenance, conv: ConvId): State
    requires conv in s.conversations
  {
    var c := s.conversations[conv];
    var s2 := Put(s, conv, c.(incarnation := if key.incarnation > c.incarnation then key.incarnation else c.incarnation));
    if c.stopped then s2 else s2.(sources := s2.sources[key := Source(conv, c.generation, p, key)])
  }

  /** Second section of capture, after the session resolved to conv. */
  function CaptureResolved(s: State, key: ProducerKey, p: Provenance, activation: bool, conv: ConvId): (State, Source) {
    if key in s.sources then (s, s.sources[key].(provenance := p))
    else if conv in s.conversations && key.incarnation < s.conversations[conv].incarnation then (s, NO_SOURCE)
    else
      var s1 := if conv !in s.conversations then Fresh(s, conv, key.session)
                else if Reactivates(s.conversations[conv], key, p, activation) then Advance(s, conv, key.session, p)
                else s;
      if conv !in s1.conversations || s1.conversations[conv].session != key.session then (s1, NO_SOURCE)
      else
        (Joined(s1, key, p, conv), Source(conv, s1.conversations[conv].generation, p, key))
  }

  predicate Reactivates(c: Conversation, key: ProducerKey, p: Provenance, activation: bool) {
    || (activation && (c.session != key.session || (c.incarnation != 0 && c.incarnation != key.incarnation) || c.stopped))
    || (c.stopped && p.kind != "")
  }

  function TransitionProvenance(newSession: string, agent: string): Provenance {
    if newSession == "" then Provenance("none", "")
    else if agent == "claude" || agent == "codex" then Provenance(agent, newSession)
    else Provenance("", "")
  }

  /** First section of transition. */
  function TransitionKnown(s: State, conv: ConvId, newSession: string, agent: string): State {
    if conv !in s.conversations then s
    else Advance(s, conv, newSession, TransitionProvenance(newSession, agent))
  }

  /** Second section of transition, after the session resolved to conv. */
  function TransitionResolved(s: State, conv: ConvId, previous: string, newSession: string, agent: string): State {
    var s1 := if conv in s.conversations then s else Fresh(s, conv, previous);
    Advance(s1, conv, newSession, TransitionProvenance(newSession, agent))
  }

  /** Control capture: current is the registry's session for conv. */
  function CaptureControl(s: State, conv: ConvId, session: string, noSession: bool, current: string): (State, Source) {
    var s1 := if conv in s.conversations then s else Fresh(s, conv, current);
    var p := if session != "" then Provenance("", session) else if noSession then Provenance("none", "")
             else Provenance("", "");
    if session != "" && s1.conversations[conv].session != session then (s1, NO_SOURCE)
    else (s1, Source(conv, s1.conversations[conv].generation, p, ProducerKey("", 0)))
  }

  function Begin(s: State, src: Source, kind: Kind, id: string): (State, Operation) {
    var key := Key(Family(kind), id);
    if src.conv in s.conversations && s.conversations[src.conv].generation == src.generation
       && (s.conversations[src.conv].stopped ==> Control(kind))
    then
      var c := s.conversations[src.conv].Bump(key);
      (Put(s, src.conv, c), Operation(src, key, c.Counter(key), src.generation, false))
    else (s, Operation(src, key, 0, src.generation, false))
  }

  /** The reservation still owns its key's ordering. */
  predicate Owns(s: State, op: Operation) {
    && op.source.conv in s.conversations
    && s.conversations[op.source.conv].generation == op.source.generation
    && s.conversations[op.source.conv].Counter(op.key) == op.revision
  }

  predicate Completes(s: State, op: Operation, e: Envelope) {
    && op.revision != 0
    && Family(e.kind) == op.key.family
    && ValidEnvelope(e.(tag := TagOf(op.source.provenance)))
    && Owns(s, op)
    && op.generation == op.source.generation
    && (s.conversations[op.source.conv].stopped ==> Control(e.kind))
  }

  function CompletedReading(op: Operation, e: Envelope): Reading {
    Reading(e.(tag := TagOf(op.source.provenance)), op.source.conv, op.source.generation, op.key.id, op.revision, None)
  }

  function Complete(s: State, op: Operation, e: Envelope): (State, bool) {
    if !Completes(s, op, e) then (s, false)
    else
      var c := s.conversations[op.source.conv];
      if op.replyOnly then
        (if e.kind.ModelList? then Put(s, op.source.conv, c.(catalogReply := op.revision)) else s, false)
      else if op.key in c.readings && c.readings[op.key].revision == op.revision then (s, false)
      else
        var r := CompletedReading(op, e);
        var c' := if Dismissal(e.kind) then c.(readings := c.readings - {op.key})
                  else c.(readings := c.readings[op.key := r]);
        (Put(s, op.source.conv, c').(published := s.published + [r]), true)
  }

  function Next(s: State, op: Operation): (State, Operation) {
    if op.revision == 0 then (s, op)
    else if !Owns(s, op) then (s, op.(revision := 0))
    else
      var c := s.conversations[op.source.conv].Bump(op.key);
      (Put(s, op.source.conv, c), op.(revision := c.Counter(op.key)))
  }

  function Retain(s: State, r: Reading): (State, bool) {
    if r.revision == 0 || !ValidEnvelope(r.envelope) || r.conv !in s.conversations
       || r.generation != s.conversations[r.conv].generation || s.conversations[r.conv].stopped
    then (s, false)
    else
      var c := s.conversations[r.conv];
      var key := Key(Family(r.envelope.kind), r.id);
      if r.revision <= c.Counter(key) then (s, false)
      else
        var c1 := c.(revisions := c.revisions[RevisionKey(c.generation, key) := r.revision]);
        (Put(s, r.conv, if Dismissal(r.envelope.kind) then c1.(readings := c1.readings - {key})
                        else c1.(readings := c1.readings[key := r])), true)
  }

  function Retire(s: State, src: Source, key: Key): State {
    if src.conv !in s.conversations || s.conversations[src.conv].generation != src.generation
       || key !in s.conversations[src.conv].readings
    then s
    else
      var c := s.conversations[src.conv];
      Put(s, src.conv, c.(readings := c.readings - {key}, scopes := c.scopes - {key}).Bump(key))
  }

  /** What one stream event does to the readings, in order. */
  datatype Effect = AdmitEffect(envelope: Envelope, id: string, scope: string) | RetireEffect(key: Key)

  function Effects(s: State, src: Source, effects: seq<Effect>): State {
    if effects == [] then s
    else
      var last := effects[|effects| - 1];
      var s1 := Effects(s, src, effects[..|effects| - 1]);
      match last
      case AdmitEffect(e, id, scope) => Admit(s1, src, e, id, scope, None).0
      case RetireEffect(key) => Retire(s1, src, key)
  }

  predicate Streaming(s: State, src: Source) {
    && src.conv in s.conversations
    && s.conversations[src.conv].generation == src.generation
    && !s.conversations[src.conv].stopped
  }

  function AcceptEvent(s: State, src: Source, effects: seq<Effect>): State {
    if src.generation == 0 || !Streaming(s, src) then s
    else Effects(s.(turns := s.turns + {src}), src, effects)
  }

  /** The counters of c after one more revision of each key in gone. */
  function BumpedRevisions(c: Conversation, gone: set<Key>): map<RevisionKey, nat> {
    map rk | rk in c.revisions.Keys + (set key | key in gone :: RevisionKey(c.generation, key)) ::
      if rk.generation == c.generation && rk.key in gone then c.Counter(rk.key) + 1
      else if rk in c.revisions then c.revisions[rk] else 0
  }

  function RetireKeys(c: Conversation, gone: set<Key>): Conversation {
    c.(readings := c.readings - gone, scopes := c.scopes - gone, revisions := BumpedRevisions(c, gone))
  }

  function ProgressKeys(c: Conversation): set<Key> {
    set key | key in c.readings && Progress(key.family)
  }

  /** Retires every progress reading of one conversation. */
  function RetireProgress(c: Conversation): Conversation {
    RetireKeys(c, ProgressKeys(c))
  }

  function CloseProducer(s: State, src: Source, effects: seq<Effect>): State {
    if src.generation == 0 then s
    else
      var s1 := AcceptEvent(s, src, effects);
      if src.conv !in s1.conversations || s1.conversations[src.conv].generation != src.generation then s1
      else
        var s2 := Release(s1, src.conv);
        Put(s2, src.conv, RetireProgress(s2.conversations[src.conv].(stopped := true)))
  }

  function Remove(s: State, conv: ConvId): State {
    Release(s, conv).(conversations := s.conversations - {conv})
  }

  /** daemonLiveCurrent: whether a queued reading may still be delivered. */
  predicate Current(s: State, r: Reading) {
    r.conv in s.conversations && s.conversations[r.conv].generation == r.generation &&
    var c := s.conversations[r.conv];
    var key := Key(Family(r.envelope.kind), r.id);
    var retained := if key in c.readings then c.readings[key].revision else 0;
    if r.envelope.cleared then true
    else if Dismissal(r.envelope.kind) then c.Counter(key) == r.revision
    else if r.envelope.kind.ModelList? then
      r.revision == (if retained > c.catalogReply then retained else c.catalogReply)
    else key in c.readings &&
         (|| retained == r.revision
          || (r.envelope.kind.TurnState? && 0 < r.revision <= retained
              && r.envelope.payload.Phase? && r.envelope.payload.running))
  }

  datatype Step =
    | StepCaptureBound(key: ProducerKey, provenance: Provenance)
    | StepCaptureResolved(key: ProducerKey, provenance: Provenance, activation: bool, conv: ConvId)
    | StepCaptureControl(conv: ConvId, session: string, noSession: bool, current: string)
    | StepTransitionKnown(conv: ConvId, newSession: string, agent: string)
    | StepTransitionResolved(conv: ConvId, previous: string, newSession: string, agent: string)
    | StepAdmit(src: Source, envelope: Envelope, id: string, scope: string, answerable: Option<bool>)
    | StepBegin(src: Source, kind: Kind, id: string)
    | StepComplete(op: Operation, envelope: Envelope)
    | StepNext(op: Operation)
    | StepRetain(reading: Reading)
    | StepEvent(src: Source, effects: seq<Effect>)
    | StepClose(src: Source, effects: seq<Effect>)
    | StepRemove(conv: ConvId)

  function Apply(s: State, step: Step): State {
    match step
    case StepCaptureBound(key, p) => CaptureBound(s, key, p).0
    case StepCaptureResolved(key, p, activation, conv) => CaptureResolved(s, key, p, activation, conv).0
    case StepCaptureControl(conv, session, noSession, current) => CaptureControl(s, conv, session, noSession, current).0
    case StepTransitionKnown(conv, newSession, agent) => TransitionKnown(s, conv, newSession, agent)
    case StepTransitionResolved(conv, previous, newSession, agent) => TransitionResolved(s, conv, previous, newSession, agent)
    case StepAdmit(src, e, id, scope, answerable) => Admit(s, src, e, id, scope, answerable).0
    case StepBegin(src, kind, id) => Begin(s, src, kind, id).0
    case StepComplete(op, e) => Complete(s, op, e).0
    case StepNext(op) => Next(s, op).0
    case StepRetain(r) => Retain(s, r).0
    case StepEvent(src, effects) => AcceptEvent(s, src, effects)
    case StepClose(src, effects) => CloseProducer(s, src, effects)
    case StepRemove(conv) => Remove(s, conv)
  }

  function Run(s: State, steps: seq<Step>): State {
    if steps == [] then s else Apply(Run(s, steps[..|steps| - 1]), steps[|steps| - 1])
  }

  // ---------------------------------------------------------------- invariant

  predicate ReadingOk(conv: ConvId, c: Conversation, key: Key) {
    key in c.readings ==>
      var r := c.readings[key];
      && r.conv == conv
      && r.generation == c.generation
      && key == Key(Family(r.envelope.kind), r.id)
      && 1 <= r.revision <= c.Counter(key)
      && ValidEnvelope(r.envelope) && !Dismissal(r.envelope.kind)
      && (c.stopped ==> !Progress(key.family))
  }

  predicate WellFormed(conv: ConvId, c: Conversation, next: nat) {
    && 1 <= c.generation <= next
    && forall key :: key in c.readings ==> ReadingOk(conv, c, key)
  }

  predicate SourceOk(s: State, key: ProducerKey) {
    key in s.sources ==>
      var src := s.sources[key];
      && src.producer == key
      && Streaming(s, src)
      && s.conversations[src.conv].session == key.session
      && key.incarnation <= s.conversations[src.conv].incarnation
  }

  /** A published reading is not ahead of its conversation, and one that carries its key's newest revision is the
      retained one or was a dismissal. */
  predicate Behind(s: State, r: Reading) {
    && 1 <= r.generation && 1 <= r.revision
    && (if r.conv in s.conversations then
          var c, key := s.conversations[r.conv], Key(Family(r.envelope.kind), r.id);
          || r.generation < c.generation
          || (r.generation == c.generation && r.revision <= c.Counter(key)
              && (r.revision == c.Counter(key) ==> Dismissal(r.envelope.kind) || c.Settled(key)))
        else r.generation <= s.nextGeneration)
  }

  /** Publication never rolls a key back: generations, then revisions, only rise, and a revision comes again only after a
      dismissal carried it. */
  predicate InOrder(a: Reading, b: Reading) {
    a.conv == b.conv ==>
      && a.generation <= b.generation
      && (Family(a.envelope.kind) == Family(b.envelope.kind) && a.id == b.id && a.generation == b.generation
          ==> a.revision <= b.revision && (a.revision == b.revision ==> Dismissal(a.envelope.kind)))
  }

  predicate PublishedOk(s: State) {
    && (forall i {:trigger Behind(s, s.published[i])} :: 0 <= i < |s.published| ==> Behind(s, s.published[i]))
    && (forall i, j {:trigger InOrder(s.published[i], s.published[j])} ::
          0 <= i < j < |s.published| ==> InOrder(s.published[i], s.published[j]))
  }

  ghost predicate Inv(s: State) {
    && (forall conv :: conv in s.conversations ==> WellFormed(conv, s.conversations[conv], s.nextGeneration))
    && (forall key :: key in s.sources ==> SourceOk(s, key))
    && (forall src :: src in s.turns ==> Streaming(s, src))
    && PublishedOk(s)
  }

  /** s' may follow s: no counter falls back, and a reading that holds the newest revision of its key
      is displaced only by a newer revision. */
  ghost predicate Later(s: State, s': State) {
    && s.nextGeneration <= s'.nextGeneration
    && s.published <= s'.published
    && (forall conv :: conv in s'.conversations ==> conv in s.conversations || s.nextGeneration < s'.conversations[conv].generation)
    && (forall conv :: conv in s.conversations && conv in s'.conversations ==>
          LaterConversation(s.conversations[conv], s'.conversations[conv]))
  }

  ghost predicate LaterConversation(c: Conversation, c': Conversation) {
    && c.generation <= c'.generation
    && (c.generation == c'.generation ==> forall key :: LaterKey(c, c', key))
  }

  predicate LaterKey(c: Conversation, c': Conversation, key: Key) {
    && c.Counter(key) <= c'.Counter(key)
    && (c.Counter(key) == c'.Counter(key) && c.Settled(key) ==> c'.Settled(key) && c'.readings[key] == c.readings[key])
  }

  lemma LaterTransitive(a: State, b: State, c: State)
    requires Inv(a) && Inv(b) && Later(a, b) && Later(b, c)
    ensures Later(a, c)
  {
    forall conv | conv in a.conversations && conv in c.conversations
      ensures LaterConversation(a.conversations[conv], c.conversations[conv])
    {
        if conv in b.conversations && a.conversations[conv].generation == c.conversations[conv].generation {
        forall key ensures LaterKey(a.conversations[conv], c.conversations[conv], key) {
          assert LaterKey(a.conversations[conv], b.conversations[conv], key);
          assert LaterKey(b.conversations[conv], c.conversations[conv], key);
        }
      }
    }
  }

  // ---------------------------------------------------------------- every step keeps the invariant

  /** c' may replace c inside one generation. */
  ghost predicate Replaces(c: Conversation, c': Conversation) {
    && c'.generation == c.generation && c'.session == c.session && c'.stopped == c.stopped
    && c.incarnation <= c'.incarnation
    && (forall key :: LaterKey(c, c', key))
  }

  /** Replacing a conversation inside its generation. */
  lemma PutKeeps(s: State, conv: ConvId, c': Conversation)
    requires Inv(s) && conv in s.conversations
    requires Replaces(s.conversations[conv], c') && WellFormed(conv, c', s.nextGeneration)
    ensures Inv(Put(s, conv, c')) && Later(s, Put(s, conv, c'))
  {
    var s' := Put(s, conv, c');
    forall key | key in s'.sources ensures SourceOk(s', key) {
      assert SourceOk(s, key);
    }
    forall i | 0 <= i < |s'.published| ensures Behind(s', s'.published[i]) {
      var r := s.published[i];
      assert Behind(s, r);
      assert LaterKey(s.conversations[conv], c', Key(Family(r.envelope.kind), r.id));
    }
    forall other | other in s.conversations && other in s'.conversations
      ensures LaterConversation(s.conversations[other], s'.conversations[other])
    {
    }
  }

  /** Publishing the newest revision of a key, ahead of everything published before, keeps publication in order. */
  lemma PublishKeeps(s: State, r: Reading)
    requires Inv(s) && r.conv in s.conversations && r.generation == s.conversations[r.conv].generation
    requires 1 <= r.revision == s.conversations[r.conv].Counter(Key(Family(r.envelope.kind), r.id))
    requires Dismissal(r.envelope.kind) || s.conversations[r.conv].Settled(Key(Family(r.envelope.kind), r.id))
    requires forall i :: 0 <= i < |s.published| ==> InOrder(s.published[i], r)
    ensures Inv(s.(published := s.published + [r])) && Later(s, s.(published := s.published + [r]))
  {
    var s' := s.(published := s.published + [r]);
    forall key | key in s'.sources ensures SourceOk(s', key) {
      assert SourceOk(s, key);
    }
    forall i | 0 <= i < |s'.published| ensures Behind(s', s'.published[i]) {
      if i < |s.published| {
        assert Behind(s, s.published[i]);
      } else {
        assert WellFormed(r.conv, s.conversations[r.conv], s.nextGeneration);
      }
    }
    forall i, j | 0 <= i < j < |s'.published| ensures InOrder(s'.published[i], s'.published[j]) {
      if j < |s.published| {
        assert InOrder(s.published[i], s.published[j]);
      }
    }
  }

  /** A reading whose revision nothing retained carries yet comes after everything published. */
  lemma AheadOfPublished(s: State, r: Reading)
    requires Inv(s) && r.conv in s.conversations && r.generation == s.conversations[r.conv].generation
    requires var c, key := s.conversations[r.conv], Key(Family(r.envelope.kind), r.id);
      c.Counter(key) <= r.revision && (c.Counter(key) == r.revision ==> !c.Settled(key))
    ensures forall i :: 0 <= i < |s.published| ==> InOrder(s.published[i], r)
  {
    forall i | 0 <= i < |s.published| ensures InOrder(s.published[i], r) {
      assert Behind(s, s.published[i]);
    }
  }

  lemma PutPublishKeeps(s: State, c': Conversation, r: Reading)
    requires Inv(s) && r.conv in s.conversations
    requires Replaces(s.conversations[r.conv], c') && WellFormed(r.conv, c', s.nextGeneration)
    requires r.generation == c'.generation && 1 <= r.revision == c'.Counter(Key(Family(r.envelope.kind), r.id))
    requires Dismissal(r.envelope.kind) || c'.Settled(Key(Family(r.envelope.kind), r.id))
    requires var c, key := s.conversations[r.conv], Key(Family(r.envelope.kind), r.id);
      c.Counter(key) == r.revision ==> !c.Settled(key)
    ensures var s' := Put(s, r.conv, c').(published := s.published + [r]); Inv(s') && Later(s, s')
  {
    assert LaterKey(s.conversations[r.conv], c', Key(Family(r.envelope.kind), r.id));
    AheadOfPublished(s, r);
    PutKeeps(s, r.conv, c');
    var mid := Put(s, r.conv, c');
    PublishKeeps(mid, r);
    LaterTransitive(s, mid, mid.(published := s.published + [r]));
  }

  /** One more revision of a key. */
  lemma BumpReplaces(conv: ConvId, c: Conversation, next: nat, key: Key)
    requires WellFormed(conv, c, next)
    ensures Replaces(c, c.Bump(key)) && WellFormed(conv, c.Bump(key), next)
  {
    forall k | k in c.readings ensures ReadingOk(conv, c.Bump(key), k) {
      assert ReadingOk(conv, c, k);
    }
  }

  /** A reading installed at its key's newest revision, which nothing retained carries yet. */
  lemma InstallReplaces(conv: ConvId, c: Conversation, next: nat, key: Key, r: Reading, scopes: map<Key, string>)
    requires WellFormed(conv, c, next) && !c.Settled(key)
    requires r.conv == conv && r.generation == c.generation && key == Key(Family(r.envelope.kind), r.id)
    requires 1 <= r.revision == c.Counter(key) && ValidEnvelope(r.envelope) && !Dismissal(r.envelope.kind)
    requires c.stopped ==> !Progress(key.family)
    ensures var c' := c.(readings := c.readings[key := r], scopes := scopes);
      Replaces(c, c') && WellFormed(conv, c', next)
  {
    var c' := c.(readings := c.readings[key := r], scopes := scopes);
    forall k | k in c'.readings ensures ReadingOk(conv, c', k) {
      assert k != key ==> ReadingOk(conv, c, k);
    }
  }

  /** A key dropped at its newest revision, which nothing retained carries. */
  lemma DropReplaces(conv: ConvId, c: Conversation, next: nat, key: Key, scopes: map<Key, string>)
    requires WellFormed(conv, c, next) && !c.Settled(key)
    ensures var c' := c.(readings := c.readings - {key}, scopes := scopes);
      Replaces(c, c') && WellFormed(conv, c', next)
  {
    var c' := c.(readings := c.readings - {key}, scopes := scopes);
    forall k | k in c'.readings ensures ReadingOk(conv, c', k) {
      assert ReadingOk(conv, c, k);
    }
  }

  lemma ReplacesTransitive(a: Conversation, b: Conversation, c: Conversation)
    requires Replaces(a, b) && Replaces(b, c)
    ensures Replaces(a, c)
  {
    forall key ensures LaterKey(a, c, key) {
      assert LaterKey(a, b, key) && LaterKey(b, c, key);
    }
  }

  lemma AdmitKeeps(s: State, src: Source, e: Envelope, id: string, scope: string, answerable: Option<bool>)
    requires Inv(s)
    ensures Inv(Admit(s, src, e, id, scope, answerable).0) && Later(s, Admit(s, src, e, id, scope, answerable).0)
  {
    var (s', r) := Admit(s, src, e, id, scope, answerable);
    if r.Some? {
      var c := s.conversations[src.conv];
      AdmitConversation(src.conv, c, s.nextGeneration, Key(Family(e.kind), id), scope, r.value);
      PutPublishKeeps(s, s'.conversations[src.conv], r.value);
    }
  }

  lemma AdmitConversation(conv: ConvId, c: Conversation, next: nat, key: Key, scope: string, r: Reading)
    requires WellFormed(conv, c, next)
    requires r.conv == conv && r.generation == c.generation && key == Key(Family(r.envelope.kind), r.id)
    requires r.revision == c.Counter(key) + 1 && ValidEnvelope(r.envelope)
    requires c.stopped ==> Control(r.envelope.kind)
    ensures var d := c.Bump(key);
      var c' := if Dismissal(r.envelope.kind) then d.(readings := d.readings - {key}, scopes := d.scopes - {key})
                else d.(readings := d.readings[key := r], scopes := d.scopes[key := scope]);
      Replaces(c, c') && WellFormed(conv, c', next)
  {
    var d := c.Bump(key);
    BumpReplaces(conv, c, next, key);
    assert ReadingOk(conv, c, key);
    if Dismissal(r.envelope.kind) {
      DropReplaces(conv, d, next, key, d.scopes - {key});
      ReplacesTransitive(c, d, d.(readings := d.readings - {key}, scopes := d.scopes - {key}));
    } else {
      InstallReplaces(conv, d, next, key, r, d.scopes[key := scope]);
      ReplacesTransitive(c, d, d.(readings := d.readings[key := r], scopes := d.scopes[key := scope]));
    }
  }

  lemma {:induction false} MarkersKeep(s: State, src: Source, families: seq<Kind>)
    requires Inv(s)
    ensures Inv(AdmitMarkers(s, src, families)) && Later(s, AdmitMarkers(s, src, families))
  {
    if families != [] {
      var n := |families| - 1;
      MarkersKeep(s, src, families[..n]);
      var mid := AdmitMarkers(s, src, families[..n]);
      AdmitKeeps(mid, src, ClearedMarker(families[n]), "", "", None);
      LaterTransitive(s, mid, AdmitMarkers(s, src, families));
    }
  }

  lemma ReleaseKeeps(s: State, conv: ConvId)
    requires Inv(s)
    ensures Inv(Release(s, conv)) && Later(s, Release(s, conv))
  {
    var s' := Release(s, conv);
    forall key | key in s'.sources ensures SourceOk(s', key) {
      assert SourceOk(s, key);
    }
    forall i | 0 <= i < |s'.published| ensures Behind(s', s'.published[i]) {
      assert Behind(s, s.published[i]);
    }
  }

  /** A conversation at a generation above everything issued to it, with nothing bound to it. */
  lemma RaisedKeeps(s: State, conv: ConvId, c: Conversation, next: nat)
    requires Inv(s)
    requires s.nextGeneration <= next && 1 <= c.generation <= next && c.readings == map[]
    requires if conv in s.conversations then s.conversations[conv].generation < c.generation
             else s.nextGeneration < c.generation
    ensures var s' := Release(Put(s, conv, c), conv).(nextGeneration := next); Inv(s') && Later(s, s')
  {
    var s' := Release(Put(s, conv, c), conv).(nextGeneration := next);
    forall key | key in s'.sources ensures SourceOk(s', key) {
      assert SourceOk(s, key);
    }
    forall i | 0 <= i < |s'.published| ensures Behind(s', s'.published[i]) {
      assert Behind(s, s.published[i]);
    }
  }

  lemma FreshKeeps(s: State, conv: ConvId, session: string)
    requires Inv(s) && conv !in s.conversations
    ensures Inv(Fresh(s, conv, session)) && Later(s, Fresh(s, conv, session))
  {
    var s' := Fresh(s, conv, session);
    forall key | key in s'.sources ensures SourceOk(s', key) {
      assert SourceOk(s, key);
    }
    forall i | 0 <= i < |s'.published| ensures Behind(s', s'.published[i]) {
      assert Behind(s, s.published[i]);
    }
  }

  lemma RaiseKeeps(s: State, conv: ConvId, session: string)
    requires Inv(s) && conv in s.conversations
    ensures Inv(Advanced(s, conv, session)) && Later(s, Advanced(s, conv, session))
  {
    AdvanceOverKeeps(s, conv, session, Provenance("", ""), []);
  }

  lemma AdvanceOverKeeps(s: State, conv: ConvId, session: string, p: Provenance, families: seq<Kind>)
    requires Inv(s) && conv in s.conversations
    ensures var s' := AdvanceOver(s, conv, session, p, families);
      && Inv(s') && Later(s, s')
      && conv in s'.conversations
      && s'.conversations[conv].generation == s.conversations[conv].generation + 1
      && s'.conversations[conv].session == session && !s'.conversations[conv].stopped
      && s'.conversations[conv].incarnation == s.conversations[conv].incarnation
  {
    var mid := Advanced(s, conv, session);
    var src := Source(conv, s.conversations[conv].generation + 1, p, ProducerKey("", 0));
    RaisedKeeps(s, conv, mid.conversations[conv], mid.nextGeneration);
    MarkersKeep(mid, src, families);
    MarkersFrame(mid, src, families);
    LaterTransitive(s, mid, AdmitMarkers(mid, src, families));
  }

  lemma AdvanceKeeps(s: State, conv: ConvId, session: string, p: Provenance)
    requires Inv(s) && conv in s.conversations
    ensures var s' := Advance(s, conv, session, p);
      && Inv(s') && Later(s, s')
      && conv in s'.conversations
      && s'.conversations[conv].generation == s.conversations[conv].generation + 1
      && s'.conversations[conv].session == session && !s'.conversations[conv].stopped
      && s'.conversations[conv].incarnation == s.conversations[conv].incarnation
  {
    AdvanceOverKeeps(s, conv, session, p, FAMILIES);
  }

  lemma {:induction false} MarkersFrame(s: State, src: Source, families: seq<Kind>)
    requires src.conv in s.conversations
    ensures src.conv in AdmitMarkers(s, src, families).conversations
    ensures var c, c' := s.conversations[src.conv], AdmitMarkers(s, src, families).conversations[src.conv];
      && c'.generation == c.generation && c'.session == c.session && c'.stopped == c.stopped
      && c'.incarnation == c.incarnation
  {
    if families != [] {
      MarkersFrame(s, src, families[..|families| - 1]);
    }
  }

  lemma CaptureResolvedKeeps(s: State, key: ProducerKey, p: Provenance, activation: bool, conv: ConvId)
    requires Inv(s)
    ensures var (s', src) := CaptureResolved(s, key, p, activation, conv);
      && Inv(s') && Later(s, s')
      && (src != NO_SOURCE ==> src.conv in s'.conversations && src.generation == s'.conversations[src.conv].generation)
  {
    if key in s.sources {
      assert SourceOk(s, key);
    } else if conv !in s.conversations {
      FreshKeeps(s, conv, key.session);
      JoinKeeps(Fresh(s, conv, key.session), key, p, conv);
      LaterTransitive(s, Fresh(s, conv, key.session), CaptureResolved(s, key, p, activation, conv).0);
    } else if key.incarnation >= s.conversations[conv].incarnation {
      if Reactivates(s.conversations[conv], key, p, activation) {
        AdvanceKeeps(s, conv, key.session, p);
        JoinKeeps(Advance(s, conv, key.session, p), key, p, conv);
        LaterTransitive(s, Advance(s, conv, key.session, p), CaptureResolved(s, key, p, activation, conv).0);
      } else if s.conversations[conv].session == key.session {
        JoinKeeps(s, key, p, conv);
      }
    }
  }

  lemma JoinKeeps(s: State, key: ProducerKey, p: Provenance, conv: ConvId)
    requires Inv(s) && conv in s.conversations && s.conversations[conv].session == key.session
    ensures Inv(Joined(s, key, p, conv)) && Later(s, Joined(s, key, p, conv))
  {
    var c := s.conversations[conv];
    var c' := c.(incarnation := if key.incarnation > c.incarnation then key.incarnation else c.incarnation);
    forall k | k in c'.readings ensures ReadingOk(conv, c', k) {
      assert ReadingOk(conv, c, k);
    }
    PutKeeps(s, conv, c');
    if !c.stopped {
      BindKeeps(Put(s, conv, c'), key, Source(conv, c.generation, p, key));
      LaterTransitive(s, Put(s, conv, c'), Joined(s, key, p, conv));
    }
  }

  /** Binding a producer to a live conversation of its own session. */
  lemma BindKeeps(s: State, key: ProducerKey, src: Source)
    requires Inv(s) && src.producer == key && Streaming(s, src)
    requires s.conversations[src.conv].session == key.session && key.incarnation <= s.conversations[src.conv].incarnation
    ensures var s' := s.(sources := s.sources[key := src]); Inv(s') && Later(s, s')
  {
    var s' := s.(sources := s.sources[key := src]);
    forall k | k in s'.sources ensures SourceOk(s', k) {
      assert k != key ==> SourceOk(s, k);
    }
    forall i | 0 <= i < |s'.published| ensures Behind(s', s'.published[i]) {
      assert Behind(s, s.published[i]);
    }
  }

  lemma BeginKeeps(s: State, src: Source, kind: Kind, id: string)
    requires Inv(s)
    ensures Inv(Begin(s, src, kind, id).0) && Later(s, Begin(s, src, kind, id).0)
  {
    var (s', op) := Begin(s, src, kind, id);
    if op.revision != 0 {
      BumpKeeps(s, src.conv, op.key);
    }
  }

  lemma BumpKeeps(s: State, conv: ConvId, key: Key)
    requires Inv(s) && conv in s.conversations
    ensures var s' := Put(s, conv, s.conversations[conv].Bump(key)); Inv(s') && Later(s, s')
  {
    BumpReplaces(conv, s.conversations[conv], s.nextGeneration, key);
    PutKeeps(s, conv, s.conversations[conv].Bump(key));
  }

  lemma CompleteKeeps(s: State, op: Operation, e: Envelope)
    requires Inv(s)
    ensures Inv(Complete(s, op, e).0) && Later(s, Complete(s, op, e).0)
  {
    var (s', ok) := Complete(s, op, e);
    if Completes(s, op, e) {
      var conv := op.source.conv;
      var c := s.conversations[conv];
      if ok {
        if Dismissal(e.kind) {
          DropReplaces(conv, c, s.nextGeneration, op.key, c.scopes);
        } else {
          InstallReplaces(conv, c, s.nextGeneration, op.key, CompletedReading(op, e), c.scopes);
        }
        PutPublishKeeps(s, s'.conversations[conv], CompletedReading(op, e));
      } else if op.replyOnly && e.kind.ModelList? {
        var c' := c.(catalogReply := op.revision);
        forall k | k in c'.readings ensures ReadingOk(conv, c', k) {
          assert ReadingOk(conv, c, k);
        }
        PutKeeps(s, conv, c');
      }
    }
  }

  lemma RetainKeeps(s: State, r: Reading)
    requires Inv(s)
    ensures Inv(Retain(s, r).0) && Later(s, Retain(s, r).0)
  {
    var (s', ok) := Retain(s, r);
    if ok {
      RetainConversation(r.conv, s.conversations[r.conv], s.nextGeneration, Key(Family(r.envelope.kind), r.id), r);
      PutKeeps(s, r.conv, s'.conversations[r.conv]);
    }
  }

  lemma RetainConversation(conv: ConvId, c: Conversation, next: nat, key: Key, r: Reading)
    requires WellFormed(conv, c, next)
    requires r.conv == conv && r.generation == c.generation && key == Key(Family(r.envelope.kind), r.id)
    requires c.Counter(key) < r.revision && ValidEnvelope(r.envelope) && !c.stopped
    ensures var d := c.(revisions := c.revisions[RevisionKey(c.generation, key) := r.revision]);
      var c' := if Dismissal(r.envelope.kind) then d.(readings := d.readings - {key}) else d.(readings := d.readings[key := r]);
      Replaces(c, c') && WellFormed(conv, c', next)
  {
    var d := c.(revisions := c.revisions[RevisionKey(c.generation, key) := r.revision]);
    forall k | k in d.readings ensures ReadingOk(conv, d, k) {
      assert ReadingOk(conv, c, k);
    }
    if key in c.readings {
      assert ReadingOk(conv, c, key);
    }
    assert Replaces(c, d);
    if Dismissal(r.envelope.kind) {
      DropReplaces(conv, d, next, key, d.scopes);
      ReplacesTransitive(c, d, d.(readings := d.readings - {key}));
    } else {
      InstallReplaces(conv, d, next, key, r, d.scopes);
      ReplacesTransitive(c, d, d.(readings := d.readings[key := r]));
    }
  }

  lemma RetireKeeps(s: State, src: Source, key: Key)
    requires Inv(s)
    ensures Inv(Retire(s, src, key)) && Later(s, Retire(s, src, key))
  {
    var s' := Retire(s, src, key);
    if src.conv in s.conversations && s.conversations[src.conv].generation == src.generation
       && key in s.conversations[src.conv].readings {
      RetireConversation(src.conv, s.conversations[src.conv], s.nextGeneration, {key});
      RetireIsBump(s.conversations[src.conv], key);
      PutKeeps(s, src.conv, s'.conversations[src.conv]);
    }
  }

  lemma RetireIsBump(c: Conversation, key: Key)
    ensures c.(readings := c.readings - {key}, scopes := c.scopes - {key}).Bump(key) == RetireKeys(c, {key})
  {
    RetireNone(c);
    RetireOneMore(c, {}, key);
    assert {} + {key} == {key};
  }

  lemma RetireConversation(conv: ConvId, c: Conversation, next: nat, gone: set<Key>)
    requires WellFormed(conv, c, next)
    ensures Replaces(c, RetireKeys(c, gone)) && WellFormed(conv, RetireKeys(c, gone), next)
  {
    var c' := RetireKeys(c, gone);
    forall key ensures c'.Counter(key) == c.Counter(key) + (if key in gone then 1 else 0) {
    }
    forall k | k in c'.readings ensures ReadingOk(conv, c', k) {
      assert ReadingOk(conv, c, k);
    }
  }

  lemma {:induction false} EffectsKeep(s: State, src: Source, effects: seq<Effect>)
    requires Inv(s)
    ensures Inv(Effects(s, src, effects)) && Later(s, Effects(s, src, effects))
  {
    if effects != [] {
      var n := |effects| - 1;
      EffectsKeep(s, src, effects[..n]);
      var mid := Effects(s, src, effects[..n]);
      match effects[n] {
        case AdmitEffect(e, id, scope) => AdmitKeeps(mid, src, e, id, scope, None);
        case RetireEffect(key) => RetireKeeps(mid, src, key);
      }
      LaterTransitive(s, mid, Effects(s, src, effects));
    }
  }

  lemma AcceptEventKeeps(s: State, src: Source, effects: seq<Effect>)
    requires Inv(s)
    ensures Inv(AcceptEvent(s, src, effects)) && Later(s, AcceptEvent(s, src, effects))
  {
    if src.generation != 0 && Streaming(s, src) {
      var s1 := s.(turns := s.turns + {src});
      forall k | k in s1.sources ensures SourceOk(s1, k) {
        assert SourceOk(s, k);
      }
      forall i | 0 <= i < |s1.published| ensures Behind(s1, s1.published[i]) {
        assert Behind(s, s.published[i]);
      }
      EffectsKeep(s1, src, effects);
      LaterTransitive(s, s1, AcceptEvent(s, src, effects));
    }
  }

  lemma CloseProducerKeeps(s: State, src: Source, effects: seq<Effect>)
    requires Inv(s)
    ensures Inv(CloseProducer(s, src, effects)) && Later(s, CloseProducer(s, src, effects))
  {
    if src.generation != 0 {
      AcceptEventKeeps(s, src, effects);
      var s1 := AcceptEvent(s, src, effects);
      if src.conv in s1.conversations && s1.conversations[src.conv].generation == src.generation {
        ReleaseKeeps(s1, src.conv);
        var s2 := Release(s1, src.conv);
        LaterTransitive(s, s1, s2);
        StopKeeps(s2, src.conv);
        LaterTransitive(s, s2, CloseProducer(s, src, effects));
      }
    }
  }

  /** Stopping a conversation that no source is bound to. */
  lemma ProgressRetired(s: State, conv: ConvId)
    requires Inv(s) && conv in s.conversations
    ensures var s' := Put(s, conv, RetireProgress(s.conversations[conv])); Inv(s') && Later(s, s')
  {
    var c := s.conversations[conv];
    RetireConversation(conv, c, s.nextGeneration, ProgressKeys(c));
    PutKeeps(s, conv, RetireProgress(c));
  }

  lemma StopKeeps(s: State, conv: ConvId)
    requires Inv(s) && conv in s.conversations
    requires forall key :: key in s.sources ==> s.sources[key].conv != conv
    requires forall src :: src in s.turns ==> src.conv != conv
    ensures var s' := Put(s, conv, RetireProgress(s.conversations[conv].(stopped := true))); Inv(s') && Later(s, s')
  {
    var d := RetireProgress(s.conversations[conv]);
    var mid := Put(s, conv, d);
    RetireThenStop(s, conv);
    ProgressRetired(s, conv);
    MarkStopped(mid, conv);
    LaterTransitive(s, mid, Put(mid, conv, d.(stopped := true)));
  }

  lemma RetireThenStop(s: State, conv: ConvId)
    requires conv in s.conversations
    ensures var d := RetireProgress(s.conversations[conv]);
      && ProgressKeys(d) == {}
      && Put(s, conv, RetireProgress(s.conversations[conv].(stopped := true))) == Put(Put(s, conv, d), conv, d.(stopped := true))
  {
    var c := s.conversations[conv];
    assert ProgressKeys(c.(stopped := true)) == ProgressKeys(c);
    assert BumpedRevisions(c.(stopped := true), ProgressKeys(c)) == BumpedRevisions(c, ProgressKeys(c));
    assert RetireProgress(c.(stopped := true)) == RetireProgress(c).(stopped := true);
    assert s.conversations[conv := RetireProgress(c)][conv := RetireProgress(c).(stopped := true)]
        == s.conversations[conv := RetireProgress(c).(stopped := true)];
  }

  lemma MarkStopped(s: State, conv: ConvId)
    requires Inv(s) && conv in s.conversations && ProgressKeys(s.conversations[conv]) == {}
    requires forall key :: key in s.sources ==> s.sources[key].conv != conv
    requires forall src :: src in s.turns ==> src.conv != conv
    ensures var s' := Put(s, conv, s.conversations[conv].(stopped := true)); Inv(s') && Later(s, s')
  {
    var c := s.conversations[conv];
    var c' := c.(stopped := true);
    var s' := Put(s, conv, c');
    forall k | k in c'.readings ensures ReadingOk(conv, c', k) {
      assert ReadingOk(conv, c, k);
      assert k !in ProgressKeys(c);
    }
    forall key | key in s'.sources ensures SourceOk(s', key) {
      assert SourceOk(s, key);
    }
    forall i | 0 <= i < |s'.published| ensures Behind(s', s'.published[i]) {
      assert Behind(s, s.published[i]);
    }
  }

  lemma RemoveKeeps(s: State, conv: ConvId)
    requires Inv(s)
    ensures Inv(Remove(s, conv)) && Later(s, Remove(s, conv))
  {
    var s' := Remove(s, conv);
    forall key | key in s'.sources ensures SourceOk(s', key) {
      assert SourceOk(s, key);
    }
    forall i | 0 <= i < |s'.published| ensures Behind(s', s'.published[i]) {
      assert Behind(s, s.published[i]);
    }
  }

  lemma TransitionResolvedKeeps(s: State, conv: ConvId, previous: string, newSession: string, agent: string)
    requires Inv(s)
    ensures var s' := TransitionResolved(s, conv, previous, newSession, agent); Inv(s') && Later(s, s')
  {
    var p := TransitionProvenance(newSession, agent);
    if conv in s.conversations {
      AdvanceKeeps(s, conv, newSession, p);
    } else {
      var s1 := Fresh(s, conv, previous);
      FreshKeeps(s, conv, previous);
      AdvanceKeeps(s1, conv, newSession, p);
      LaterTransitive(s, s1, Advance(s1, conv, newSession, p));
    }
  }

  lemma NextKeeps(s: State, op: Operation)
    requires Inv(s)
    ensures Inv(Next(s, op).0) && Later(s, Next(s, op).0)
  {
    if op.revision != 0 && Owns(s, op) {
      BumpKeeps(s, op.source.conv, op.key);
    }
  }

  lemma CaptureBoundKeeps(s: State, key: ProducerKey, p: Provenance)
    requires Inv(s)
    ensures Inv(CaptureBound(s, key, p).0) && Later(s, CaptureBound(s, key, p).0)
  {
    if key in s.sources && p.kind != "" {
      assert SourceOk(s, key);
      BindKeeps(s, key, s.sources[key].(provenance := p));
    }
  }

  /** Captures, transitions and removal. */
  lemma LifecycleKeeps(s: State, step: Step)
    requires Inv(s)
    requires step.StepCaptureBound? || step.StepCaptureResolved? || step.StepCaptureControl? || step.StepTransitionKnown?
             || step.StepTransitionResolved? || step.StepRemove?
    ensures Inv(Apply(s, step)) && Later(s, Apply(s, step))
  {
    match step {
      case StepCaptureBound(key, p) => CaptureBoundKeeps(s, key, p);
      case StepCaptureResolved(key, p, activation, conv) => CaptureResolvedKeeps(s, key, p, activation, conv);
      case StepCaptureControl(conv, session, noSession, current) =>
        if conv !in s.conversations {
          FreshKeeps(s, conv, current);
        }
      case StepTransitionKnown(conv, newSession, agent) =>
        if conv in s.conversations {
          AdvanceKeeps(s, conv, newSession, TransitionProvenance(newSession, agent));
        }
      case StepTransitionResolved(conv, previous, newSession, agent) =>
        TransitionResolvedKeeps(s, conv, previous, newSession, agent);
      case StepRemove(conv) => RemoveKeeps(s, conv);
    }
  }

  /** Work inside a generation. */
  lemma WorkKeeps(s: State, step: Step)
    requires Inv(s)
    requires step.StepAdmit? || step.StepBegin? || step.StepComplete? || step.StepNext? || step.StepRetain?
             || step.StepEvent? || step.StepClose?
    ensures Inv(Apply(s, step)) && Later(s, Apply(s, step))
  {
    match step {
      case StepAdmit(src, e, id, scope, answerable) => AdmitKeeps(s, src, e, id, scope, answerable);
      case StepBegin(src, kind, id) => BeginKeeps(s, src, kind, id);
      case StepComplete(op, e) => CompleteKeeps(s, op, e);
      case StepNext(op) => NextKeeps(s, op);
      case StepRetain(r) => RetainKeeps(s, r);
      case StepEvent(src, effects) => AcceptEventKeeps(s, src, effects);
      case StepClose(src, effects) => CloseProducerKeeps(s, src, effects);
    }
  }

  lemma StepKeeps(s: State, step: Step)
    requires Inv(s)
    ensures Inv(Apply(s, step)) && Later(s, Apply(s, step))
  {
    if step.StepAdmit? || step.StepBegin? || step.StepComplete? || step.StepNext? || step.StepRetain?
       || step.StepEvent? || step.StepClose? {
      WorkKeeps(s, step);
    } else {
      LifecycleKeeps(s, step);
    }
  }

  lemma {:induction false} RunKeeps(s: State, steps: seq<Step>)
    requires Inv(s)
    ensures Inv(Run(s, steps)) && Later(s, Run(s, steps))
  {
    if steps != [] {
      var n := |steps| - 1;
      RunKeeps(s, steps[..n]);
      var mid := Run(s, steps[..n]);
      StepKeeps(mid, steps[n]);
      LaterTransitive(s, mid, Run(s, steps));
    }
  }

  // ---------------------------------------------------------------- theorems over every run

  /** What holds of every retained reading and every bound source, whatever the interleaving. */
  lemma ReachableState(steps: seq<Step>)
    ensures var s := Run(INITIAL, steps);
      && Inv(s)
      && (forall conv, key :: conv in s.conversations && key in s.conversations[conv].readings ==>
            var r := s.conversations[conv].readings[key];
            && r.conv == conv && r.generation == s.conversations[conv].generation
            && key == Key(Family(r.envelope.kind), r.id)
            && 1 <= r.revision <= s.conversations[conv].Counter(key)
            && (s.conversations[conv].stopped ==> !Progress(key.family)))
      && (forall key :: key in s.sources ==>
            var src := s.sources[key];
            && src.producer == key && src.conv in s.conversations
            && src.generation == s.conversations[src.conv].generation
            && !s.conversations[src.conv].stopped
            && s.conversations[src.conv].session == key.session)
  {
    RunKeeps(INITIAL, steps);
    var s := Run(INITIAL, steps);
    forall conv, key | conv in s.conversations && key in s.conversations[conv].readings
      ensures ReadingOk(conv, s.conversations[conv], key)
    {
    }
    forall key | key in s.sources ensures SourceOk(s, key) {
    }
  }

  /** Over every run, publication of one key only moves to newer generations and revisions; a revision is published again
      only after a dismissal that carried it. */
  lemma PublishedInOrder(steps: seq<Step>, i: nat, j: nat)
    requires i < j < |Run(INITIAL, steps).published|
    ensures var a, b := Run(INITIAL, steps).published[i], Run(INITIAL, steps).published[j];
      a.conv == b.conv ==>
        && a.generation <= b.generation
        && (a.generation == b.generation && Family(a.envelope.kind) == Family(b.envelope.kind) && a.id == b.id
            ==> a.revision <= b.revision && (a.revision == b.revision ==> Dismissal(a.envelope.kind)))
  {
    RunKeeps(INITIAL, steps);
    assert InOrder(Run(INITIAL, steps).published[i], Run(INITIAL, steps).published[j]);
  }

  /** A reservation and an admission of one key and generation never share a revision, whichever came first; so a
      revision is published twice only by completing one reservation's dismissal again. */
  lemma AdmissionAfterReservation(s: State, steps: seq<Step>, src: Source, kind: Kind, other: Source, e: Envelope, id: string, scope: string)
    requires Inv(s) && src.conv == other.conv && src.generation == other.generation && Family(kind) == Family(e.kind)
    ensures var (s1, op) := Begin(s, src, kind, id);
      var late := Admit(Run(s1, steps), other, e, id, scope, None).1;
      op.revision != 0 && late.Some? ==> op.revision < late.value.revision
  {
    BeginKeeps(s, src, kind, id);
    CounterKept(Begin(s, src, kind, id).0, steps, src.conv, Key(Family(kind), id));
  }

  lemma ReservationAfterAdmission(s: State, steps: seq<Step>, src: Source, kind: Kind, other: Source, e: Envelope, id: string, scope: string)
    requires Inv(s) && src.conv == other.conv && src.generation == other.generation && Family(kind) == Family(e.kind)
    ensures var (s1, early) := Admit(s, other, e, id, scope, None);
      var op := Begin(Run(s1, steps), src, kind, id).1;
      op.revision != 0 && early.Some? ==> early.value.revision < op.revision
  {
    AdmitKeeps(s, other, e, id, scope, None);
    CounterKept(Admit(s, other, e, id, scope, None).0, steps, src.conv, Key(Family(kind), id));
  }

  /** Inside one generation a key's counter never falls. */
  lemma CounterKept(s: State, steps: seq<Step>, conv: ConvId, key: Key)
    requires Inv(s)
    ensures var s' := Run(s, steps);
      conv in s.conversations && conv in s'.conversations && s.conversations[conv].generation == s'.conversations[conv].generation
      ==> s.conversations[conv].Counter(key) <= s'.conversations[conv].Counter(key)
  {
    RunKeeps(s, steps);
    var s' := Run(s, steps);
    if conv in s.conversations && conv in s'.conversations {
      assert LaterConversation(s.conversations[conv], s'.conversations[conv]);
      if s.conversations[conv].generation == s'.conversations[conv].generation {
        assert LaterKey(s.conversations[conv], s'.conversations[conv], key);
      }
    }
  }

  /** A generation a conversation has left never comes back, even through removal and re-creation. */
  lemma GenerationNeverRepeats(first: seq<Step>, second: seq<Step>, third: seq<Step>, conv: ConvId)
    requires conv in Run(INITIAL, first).conversations
    requires var g := Run(INITIAL, first).conversations[conv].generation;
      var s := Run(Run(INITIAL, first), second);
      conv !in s.conversations || s.conversations[conv].generation != g
    ensures var g := Run(INITIAL, first).conversations[conv].generation;
      var s := Run(Run(Run(INITIAL, first), second), third);
      conv in s.conversations ==> g < s.conversations[conv].generation
  {
    LeftIsDead(first, second, conv);
    var b := Run(Run(INITIAL, first), second);
    RunKeeps(b, third);
    DeadStays(b, Run(b, third), conv, Run(INITIAL, first).conversations[conv].generation);
  }

  /** The conversation has left generation g for good. */
  predicate Dead(s: State, conv: ConvId, g: nat) {
    if conv in s.conversations then g < s.conversations[conv].generation else g <= s.nextGeneration
  }

  lemma DeadStays(s: State, s': State, conv: ConvId, g: nat)
    requires Inv(s) && Later(s, s') && Dead(s, conv, g)
    ensures Dead(s', conv, g)
  {
  }

  /** A capture that advances the conversation, for a new session or incarnation or after a stop, kills every generation
      it had reached. */
  lemma ReactivationKills(s: State, key: ProducerKey, p: Provenance, activation: bool, conv: ConvId, g: nat)
    requires Inv(s) && conv in s.conversations && g <= s.conversations[conv].generation
    requires key !in s.sources && s.conversations[conv].incarnation <= key.incarnation
    requires Reactivates(s.conversations[conv], key, p, activation)
    ensures Dead(CaptureResolved(s, key, p, activation, conv).0, conv, g)
  {
    AdvanceKeeps(s, conv, key.session, p);
  }

  /** A transition or a removal kills every generation the conversation had reached. */
  lemma InvalidationKills(s: State, conv: ConvId, g: nat, previous: string, newSession: string, agent: string)
    requires Inv(s)
    requires if conv in s.conversations then g <= s.conversations[conv].generation else g <= s.nextGeneration
    ensures Dead(TransitionResolved(s, conv, previous, newSession, agent), conv, g)
    ensures conv in s.conversations ==> Dead(TransitionKnown(s, conv, newSession, agent), conv, g)
    ensures Dead(Remove(s, conv), conv, g)
  {
    var p := TransitionProvenance(newSession, agent);
    if conv in s.conversations {
      AdvanceKeeps(s, conv, newSession, p);
    } else {
      FreshKeeps(s, conv, previous);
      AdvanceKeeps(Fresh(s, conv, previous), conv, newSession, p);
    }
  }

  /** Nothing captured in generation g of the conversation can act in s: no admission, event, close, reservation,
      completion, continuation or retention changes anything, no source is bound to it and no reading of it is judged
      current. */
  ghost predicate Refused(s: State, conv: ConvId, g: nat) {
    && (forall src: Source, e, id, scope, answerable :: src.conv == conv && src.generation == g ==>
          Admit(s, src, e, id, scope, answerable) == (s, None))
    && (forall src: Source, effects :: src.conv == conv && src.generation == g ==>
          AcceptEvent(s, src, effects) == s && CloseProducer(s, src, effects) == s)
    && (forall src: Source, kind, id :: src.conv == conv && src.generation == g ==>
          Begin(s, src, kind, id).0 == s && Begin(s, src, kind, id).1.revision == 0)
    && (forall op: Operation, e :: op.source.conv == conv && op.source.generation == g ==> Complete(s, op, e) == (s, false))
    && (forall op: Operation :: op.source.conv == conv && op.source.generation == g ==>
          Next(s, op).0 == s && Next(s, op).1.revision == 0)
    && (forall r: Reading :: r.conv == conv && r.generation == g ==> Retain(s, r) == (s, false) && !Current(s, r))
    && (forall key :: key in s.sources ==> !(s.sources[key].conv == conv && s.sources[key].generation == g))
  }

  lemma DeadIsRefused(s: State, conv: ConvId, g: nat)
    requires Inv(s) && Dead(s, conv, g)
    ensures Refused(s, conv, g)
  {
    forall key | key in s.sources ensures !(s.sources[key].conv == conv && s.sources[key].generation == g) {
      assert SourceOk(s, key);
    }
  }

  /** What was captured in a dead generation is refused after any further steps. */
  lemma DeadIsRefusedForever(s: State, steps: seq<Step>, conv: ConvId, g: nat)
    requires Inv(s) && Dead(s, conv, g)
    ensures Refused(Run(s, steps), conv, g)
  {
    RunKeeps(s, steps);
    DeadStays(s, Run(s, steps), conv, g);
    DeadIsRefused(Run(s, steps), conv, g);
  }

  /** However the conversation left a generation, by a transition, by a capture for a new session or incarnation, or by
      removal, that generation is dead. */
  lemma LeftIsDead(first: seq<Step>, second: seq<Step>, conv: ConvId)
    requires conv in Run(INITIAL, first).conversations
    requires var g := Run(INITIAL, first).conversations[conv].generation;
      var s := Run(Run(INITIAL, first), second);
      conv !in s.conversations || s.conversations[conv].generation != g
    ensures Inv(Run(Run(INITIAL, first), second))
    ensures Dead(Run(Run(INITIAL, first), second), conv, Run(INITIAL, first).conversations[conv].generation)
  {
    RunKeeps(INITIAL, first);
    var a := Run(INITIAL, first);
    assert WellFormed(conv, a.conversations[conv], a.nextGeneration);
    RunKeeps(a, second);
  }

  /** Whatever was captured before the conversation left its generation is refused for ever. */
  lemma LeftIsRefusedForever(first: seq<Step>, second: seq<Step>, third: seq<Step>, conv: ConvId)
    requires conv in Run(INITIAL, first).conversations
    requires var g := Run(INITIAL, first).conversations[conv].generation;
      var s := Run(Run(INITIAL, first), second);
      conv !in s.conversations || s.conversations[conv].generation != g
    ensures Refused(Run(Run(Run(INITIAL, first), second), third), conv, Run(INITIAL, first).conversations[conv].generation)
  {
    LeftIsDead(first, second, conv);
    DeadIsRefusedForever(Run(Run(INITIAL, first), second), third, conv, Run(INITIAL, first).conversations[conv].generation);
  }

  // ---------------------------------------------------------------- what is accepted, and what acceptance does

  /** The conversation is in generation g and takes readings of this kind. */
  predicate Serves(s: State, conv: ConvId, g: nat, kind: Kind) {
    && conv in s.conversations && s.conversations[conv].generation == g
    && (!s.conversations[conv].stopped || Control(kind))
  }

  /** The envelope can be retained and sent, whoever sends it. */
  predicate Fit(e: Envelope) {
    e.wellFormed && !e.kind.OtherKind? && (e.cleared ==> e.payload == EmptyObject)
  }

  /** The reading says what the envelope said, for the source's conversation, generation and session, under the id. */
  predicate Carries(r: Reading, src: Source, e: Envelope, id: string) {
    && r.envelope.kind == e.kind && r.envelope.payload == e.payload && r.envelope.cleared == e.cleared
    && r.envelope.tag == TagOf(src.provenance)
    && r.conv == src.conv && r.generation == src.generation && r.id == id
  }

  predicate SameKey(c: Conversation, c': Conversation, key: Key) {
    && (key in c.readings <==> key in c'.readings) && (key in c.readings ==> c'.readings[key] == c.readings[key])
    && (key in c.scopes <==> key in c'.scopes) && (key in c.scopes ==> c'.scopes[key] == c.scopes[key])
    && c'.Counter(key) == c.Counter(key)
  }

  /** Nothing but one key of one conversation changed. */
  ghost predicate OnlyAt(s: State, s': State, conv: ConvId, key: Key) {
    && s'.sources == s.sources && s'.turns == s.turns && s'.nextGeneration == s.nextGeneration
    && conv in s.conversations && s'.conversations.Keys == s.conversations.Keys
    && (forall other :: other in s.conversations && other != conv ==> s'.conversations[other] == s.conversations[other])
    && var c, c' := s.conversations[conv], s'.conversations[conv];
    && c'.generation == c.generation && c'.session == c.session && c'.incarnation == c.incarnation && c'.stopped == c.stopped
    && (forall k {:trigger SameKey(c, c', k)} :: k != key ==> SameKey(c, c', k))
  }

  /** Retained in place of whatever the key held, or, for a dismissal, nothing is held any more. */
  predicate Holds(c: Conversation, key: Key, r: Reading) {
    if Dismissal(r.envelope.kind) then key !in c.readings else key in c.readings && c.readings[key] == r
  }

  /** An envelope is admitted exactly when its source's generation is served and the envelope is fit. It is then retained
      and published, as it came, under the key's next revision, and nothing else moves. */
  lemma AdmittedIff(s: State, src: Source, e: Envelope, id: string, scope: string, answerable: Option<bool>)
    requires Inv(s)
    ensures var (s', r) := Admit(s, src, e, id, scope, answerable);
      if !Serves(s, src.conv, src.generation, e.kind) || !Fit(e) then r == None && s' == s
      else
        var key := Key(Family(e.kind), id);
        && r.Some? && Carries(r.value, src, e, id) && r.value.answerable == answerable
        && s'.published == s.published + [r.value] && OnlyAt(s, s', src.conv, key)
        && Holds(s'.conversations[src.conv], key, r.value)
        && (!Dismissal(e.kind) ==> key in s'.conversations[src.conv].scopes && s'.conversations[src.conv].scopes[key] == scope)
        && r.value.revision == s'.conversations[src.conv].Counter(key) == s.conversations[src.conv].Counter(key) + 1
  {
    assert src.conv in s.conversations ==> WellFormed(src.conv, s.conversations[src.conv], s.nextGeneration);
    if Admit(s, src, e, id, scope, answerable).1.Some? {
      AdmitOnlyAt(s, src, e, id, scope, answerable);
    }
  }

  lemma AdmitOnlyAt(s: State, src: Source, e: Envelope, id: string, scope: string, answerable: Option<bool>)
    requires Admit(s, src, e, id, scope, answerable).1.Some?
    ensures OnlyAt(s, Admit(s, src, e, id, scope, answerable).0, src.conv, Key(Family(e.kind), id))
  {
  }

  /** A reservation is granted exactly when its generation is served; it takes the key's next revision alone. */
  lemma ReservedIff(s: State, src: Source, kind: Kind, id: string)
    ensures var (s', op) := Begin(s, src, kind, id);
      && op.source == src && op.generation == src.generation && !op.replyOnly && op.key == Key(Family(kind), id)
      && if !Serves(s, src.conv, src.generation, kind) then op.revision == 0 && s' == s
         else
           && op.revision == s'.conversations[src.conv].Counter(op.key) == s.conversations[src.conv].Counter(op.key) + 1
           && OnlyAt(s, s', src.conv, op.key) && s'.published == s.published
           && s'.conversations[src.conv].readings == s.conversations[src.conv].readings
  {
  }

  /** A reservation that nothing overtook completes exactly when its generation is served, the envelope is fit and of its
      family, and no completion of it was retained before. What it says is then retained and published. */
  lemma CompletedIff(s: State, op: Operation, e: Envelope)
    requires Inv(s) && !op.replyOnly && op.generation == op.source.generation
    ensures var (s', done) := Complete(s, op, e);
      var conv := op.source.conv;
      && (done <==>
           && Serves(s, conv, op.source.generation, e.kind) && Fit(e) && Family(e.kind) == op.key.family
           && op.revision != 0 && s.conversations[conv].Counter(op.key) == op.revision
           && !s.conversations[conv].Settled(op.key))
      && if !done then s' == s
         else
           var r := CompletedReading(op, e);
           && OnlyAt(s, s', conv, op.key) && s'.published == s.published + [r]
           && Carries(r, op.source, e, op.key.id) && r.revision == op.revision
           && Holds(s'.conversations[conv], op.key, r) && s'.conversations[conv].Counter(op.key) == op.revision
  {
    if Complete(s, op, e).1 {
      CompleteOnlyAt(s, op, e);
    }
  }

  lemma CompleteOnlyAt(s: State, op: Operation, e: Envelope)
    requires Complete(s, op, e).1
    ensures OnlyAt(s, Complete(s, op, e).0, op.source.conv, op.key)
  {
  }

  /** A reply-only completion retains and publishes nothing; the model list it answers with is the current one from then
      on, in place of an older retained list. */
  lemma ReplyOnlyAnswers(s: State, op: Operation, e: Envelope)
    requires Inv(s) && op.replyOnly && op.generation == op.source.generation && e.kind.ModelList? && op.key.family.ModelList?
    requires Serves(s, op.source.conv, op.source.generation, e.kind) && Fit(e)
    requires op.revision != 0 && s.conversations[op.source.conv].Counter(op.key) == op.revision
    ensures var (s', done) := Complete(s, op, e);
      var c, c' := s.conversations[op.source.conv], s'.conversations[op.source.conv];
      && !done && s'.published == s.published && c'.readings == c.readings && c'.revisions == c.revisions
      && (!e.cleared ==> Current(s', CompletedReading(op, e)))
      && (op.key in c.readings && c.readings[op.key].revision < op.revision && !c.readings[op.key].envelope.cleared
          && c.readings[op.key].envelope.kind.ModelList?
          ==> !Current(s', c.readings[op.key]))
  {
    assert ReadingOk(op.source.conv, s.conversations[op.source.conv], op.key);
  }

  /** A continuation is granted exactly while the reservation stands. */
  lemma ContinuedIff(s: State, op: Operation)
    requires op.revision != 0
    ensures var (s', next) := Next(s, op);
      var conv := op.source.conv;
      && next == op.(revision := next.revision)
      && if !(&& conv in s.conversations && s.conversations[conv].generation == op.source.generation
              && s.conversations[conv].Counter(op.key) == op.revision)
         then next.revision == 0 && s' == s
         else
           && next.revision == s'.conversations[conv].Counter(op.key) == op.revision + 1
           && OnlyAt(s, s', conv, op.key) && s'.published == s.published
           && s'.conversations[conv].readings == s.conversations[conv].readings
  {
  }

  /** A delayed reading is retained exactly when its generation is live, it is fit and its revision is news. */
  lemma RetainedIff(s: State, r: Reading)
    ensures var (s', done) := Retain(s, r);
      var key := Key(Family(r.envelope.kind), r.id);
      && (done <==>
           && r.conv in s.conversations && s.conversations[r.conv].generation == r.generation
           && !s.conversations[r.conv].stopped && Fit(r.envelope)
           && s.conversations[r.conv].Counter(key) < r.revision)
      && (!done ==> s' == s)
      && (done ==>
           && OnlyAt(s, s', r.conv, key) && s'.published == s.published
           && Holds(s'.conversations[r.conv], key, r) && s'.conversations[r.conv].Counter(key) == r.revision)
  {
  }

  /** Retirement takes a retained reading away for good and uses up a revision. */
  lemma RetiredIff(s: State, src: Source, key: Key)
    ensures var s' := Retire(s, src, key);
      if src.conv in s.conversations && s.conversations[src.conv].generation == src.generation
         && key in s.conversations[src.conv].readings
      then
        && OnlyAt(s, s', src.conv, key) && s'.published == s.published
        && key !in s'.conversations[src.conv].readings && key !in s'.conversations[src.conv].scopes
        && s'.conversations[src.conv].Counter(key) == s.conversations[src.conv].Counter(key) + 1
      else s' == s
  {
  }

  /** The effect is about this key. */
  predicate About(effect: Effect, key: Key) {
    match effect
    case AdmitEffect(e, id, _) => Key(Family(e.kind), id) == key && Fit(e)
    case RetireEffect(k) => k == key
  }

  predicate AsLastSaid(c: Conversation, src: Source, effect: Effect, key: Key) {
    match effect
    case AdmitEffect(e, id, _) =>
      if Dismissal(e.kind) then key !in c.readings else key in c.readings && Carries(c.readings[key], src, e, id)
    case RetireEffect(_) => key !in c.readings
  }

  lemma EffectActs(s: State, src: Source, effect: Effect, key: Key)
    requires Inv(s) && Streaming(s, src)
    ensures var s' := Effects(s, src, [effect]);
      && Streaming(s', src)
      && if About(effect, key) then AsLastSaid(s'.conversations[src.conv], src, effect, key)
         else KeepsReading(s.conversations[src.conv], s'.conversations[src.conv], key)
  {
    assert [effect][..0] == [];
    assert WellFormed(src.conv, s.conversations[src.conv], s.nextGeneration);
    match effect {
      case AdmitEffect(e, id, scope) => AdmittedIff(s, src, e, id, scope, None);
      case RetireEffect(k) => RetiredIff(s, src, k);
    }
  }

  /** Effect i is the last one about the key. */
  predicate LastAbout(effects: seq<Effect>, i: int, key: Key) {
    0 <= i < |effects| && About(effects[i], key) && forall j :: i < j < |effects| ==> !About(effects[j], key)
  }

  predicate NoneAbout(effects: seq<Effect>, key: Key) {
    forall j :: 0 <= j < |effects| ==> !About(effects[j], key)
  }

  lemma AboutNext(effects: seq<Effect>, key: Key)
    requires effects != []
    ensures var n := |effects| - 1;
      && (NoneAbout(effects, key) <==> NoneAbout(effects[..n], key) && !About(effects[n], key))
      && (forall i :: LastAbout(effects, i, key) <==>
            (if i == n then About(effects[n], key) else LastAbout(effects[..n], i, key) && !About(effects[n], key)))
  {
    var n := |effects| - 1;
    assert forall j :: 0 <= j < n ==> effects[..n][j] == effects[j];
  }

  /** An event of a streaming source leaves each key as the last effect about it said, and the keys it says nothing about
      as they were. */
  lemma {:induction false} LastEffectDecides(s: State, src: Source, effects: seq<Effect>, key: Key)
    requires Inv(s) && Streaming(s, src)
    ensures var s' := Effects(s, src, effects);
      && Streaming(s', src)
      && (NoneAbout(effects, key) ==> KeepsReading(s.conversations[src.conv], s'.conversations[src.conv], key))
      && forall i :: LastAbout(effects, i, key) ==> AsLastSaid(s'.conversations[src.conv], src, effects[i], key)
  {
    if effects != [] {
      var n := |effects| - 1;
      LastEffectDecides(s, src, effects[..n], key);
      AboutNext(effects, key);
      var mid := Effects(s, src, effects[..n]);
      LastEffectActs(s, src, effects, key);
      forall i | LastAbout(effects, i, key)
        ensures AsLastSaid(Effects(s, src, effects).conversations[src.conv], src, effects[i], key)
      {
        if i < n {
          assert AsLastSaid(mid.conversations[src.conv], src, effects[..n][i], key);
          SaidStays(mid.conversations[src.conv], Effects(s, src, effects).conversations[src.conv], src, effects[i], key);
        }
      }
    }
  }

  lemma SaidStays(c: Conversation, c': Conversation, src: Source, effect: Effect, key: Key)
    requires AsLastSaid(c, src, effect, key) && KeepsReading(c, c', key)
    ensures AsLastSaid(c', src, effect, key)
  {
  }

  lemma LastEffectActs(s: State, src: Source, effects: seq<Effect>, key: Key)
    requires Inv(s) && effects != [] && Streaming(Effects(s, src, effects[..|effects| - 1]), src)
    ensures var n := |effects| - 1;
      var mid, s' := Effects(s, src, effects[..n]), Effects(s, src, effects);
      && Streaming(s', src)
      && if About(effects[n], key) then AsLastSaid(s'.conversations[src.conv], src, effects[n], key)
         else KeepsReading(mid.conversations[src.conv], s'.conversations[src.conv], key)
  {
    var n := |effects| - 1;
    EffectsKeep(s, src, effects[..n]);
    var mid := Effects(s, src, effects[..n]);
    EffectActs(mid, src, effects[n], key);
    assert [effects[n]][..0] == [] && Effects(s, src, effects) == Effects(mid, src, [effects[n]]);
  }

  /** The fit admissions of an event, in order. */
  function Admissions(effects: seq<Effect>): seq<Effect> {
    if effects == [] then []
    else
      var last := effects[|effects| - 1];
      Admissions(effects[..|effects| - 1]) + if last.AdmitEffect? && Fit(last.envelope) then [last] else []
  }

  predicate Announces(published: seq<Reading>, base: nat, src: Source, admitted: seq<Effect>) {
    && |published| == base + |admitted|
    && forall i :: 0 <= i < |admitted| ==>
         admitted[i].AdmitEffect? && Carries(published[base + i], src, admitted[i].envelope, admitted[i].id)
  }

  /** It publishes each of its fit admissions once, in order, and nothing else. */
  lemma {:induction false} EventPublishes(s: State, src: Source, effects: seq<Effect>)
    requires Inv(s) && Streaming(s, src)
    ensures Announces(Effects(s, src, effects).published, |s.published|, src, Admissions(effects))
  {
    if effects != [] {
      var n := |effects| - 1;
      EventPublishes(s, src, effects[..n]);
      EffectsKeep(s, src, effects[..n]);
      LastEffectDecides(s, src, effects[..n], Key(OtherKind, ""));
      var mid := Effects(s, src, effects[..n]);
      match effects[n] {
        case AdmitEffect(e, id, scope) => AdmittedIff(mid, src, e, id, scope, None);
        case RetireEffect(key) => RetiredIff(mid, src, key);
      }
    }
  }

  /** An event acts exactly for a source that is still streaming: each fit admission of it is published once and in order,
      and each key is left as its last effect said. */
  lemma EventActsIff(s: State, src: Source, effects: seq<Effect>, key: Key)
    requires Inv(s)
    ensures var s' := AcceptEvent(s, src, effects);
      if src.conv !in s.conversations || s.conversations[src.conv].generation != src.generation || s.conversations[src.conv].stopped
      then s' == s
      else
        && Streaming(s', src) && src in s'.turns && s'.sources == s.sources
        && Announces(s'.published, |s.published|, src, Admissions(effects))
        && (NoneAbout(effects, key) ==> KeepsReading(s.conversations[src.conv], s'.conversations[src.conv], key))
        && forall i :: LastAbout(effects, i, key) ==> AsLastSaid(s'.conversations[src.conv], src, effects[i], key)
  {
    if Streaming(s, src) {
      var begun := s.(turns := s.turns + {src});
      assert WellFormed(src.conv, s.conversations[src.conv], s.nextGeneration);
      AcceptEventKeeps(s, src, []);
      assert Effects(begun, src, []) == begun;
      LastEffectDecides(begun, src, effects, key);
      EventPublishes(begun, src, effects);
      EffectsSources(begun, src, effects);
    }
  }

  /** The end of a producer's stream stops exactly the conversation whose generation it belongs to: no source and no turn
      stays bound there, no progress reading is retained, and other conversations are as they were. */
  lemma CloseStops(s: State, src: Source, effects: seq<Effect>)
    requires Inv(s)
    ensures var s' := CloseProducer(s, src, effects);
      if src.conv !in s.conversations || s.conversations[src.conv].generation != src.generation then s' == s
      else
        && src.conv in s'.conversations && s'.conversations[src.conv].stopped
        && s'.conversations[src.conv].generation == src.generation
        && (forall key :: key in s'.conversations[src.conv].readings ==> !Progress(key.family))
        && (forall k :: k in s'.sources ==> s'.sources[k].conv != src.conv)
        && (forall t :: t in s'.turns ==> t.conv != src.conv)
        && (forall k :: k in s.sources && s.sources[k].conv != src.conv ==> k in s'.sources && s'.sources[k] == s.sources[k])
        && (forall other :: other != src.conv ==> Row(s', other) == Row(s, other))
  {
    if src.conv in s.conversations && s.conversations[src.conv].generation == src.generation {
      assert WellFormed(src.conv, s.conversations[src.conv], s.nextGeneration);
      var s1 := AcceptEvent(s, src, effects);
      AcceptEventKeeps(s, src, effects);
      if Streaming(s, src) {
        var begun := s.(turns := s.turns + {src});
        EffectsSources(begun, src, effects);
      }
      forall other | other != src.conv ensures Row(CloseProducer(s, src, effects), other) == Row(s, other) {
        EffectsElsewhere(s.(turns := s.turns + {src}), src, effects, other);
      }
      assert ProgressKeys(RetireProgress(s1.conversations[src.conv].(stopped := true))) == {};
    }
  }

  lemma {:induction false} EffectsSources(s: State, src: Source, effects: seq<Effect>)
    requires Streaming(s, src)
    ensures var s' := Effects(s, src, effects); s'.sources == s.sources && s'.turns == s.turns && Streaming(s', src)
  {
    if effects != [] {
      EffectsSources(s, src, effects[..|effects| - 1]);
    }
  }

  /** A producer that is not bound yet gets the conversation its session owns, at the generation it then has, unless a
      newer incarnation was there or the conversation belongs to another session and nothing reactivates it. */
  lemma CapturedIff(s: State, key: ProducerKey, p: Provenance, activation: bool, conv: ConvId)
    requires Inv(s) && key !in s.sources
    ensures var (s', src) := CaptureResolved(s, key, p, activation, conv);
      var known := conv in s.conversations;
      var other := known && s.conversations[conv].session != key.session;
      var stopped := known && s.conversations[conv].stopped;
      var replaced := known && s.conversations[conv].incarnation != 0 && s.conversations[conv].incarnation != key.incarnation;
      var advances := known && ((activation && (other || replaced || stopped)) || (stopped && p.kind != ""));
      if known && key.incarnation < s.conversations[conv].incarnation then src == NO_SOURCE && s' == s
      else if other && !advances then src == NO_SOURCE && s' == s
      else
        && conv in s'.conversations && src == Source(conv, s'.conversations[conv].generation, p, key)
        && s'.conversations[conv].session == key.session && s'.conversations[conv].incarnation >= key.incarnation
        && s'.conversations[conv].generation ==
             (if !known then s.nextGeneration + 1 else if advances then s.conversations[conv].generation + 1 else s.conversations[conv].generation)
        && s'.conversations[conv].stopped == (stopped && !advances)
        && (if stopped && !advances then key !in s'.sources else key in s'.sources && s'.sources[key] == src)
  {
    if conv in s.conversations && Reactivates(s.conversations[conv], key, p, activation) {
      AdvanceKeeps(s, conv, key.session, p);
    }
  }

  /** A bound producer keeps its source, under the provenance it last gave. */
  lemma BoundIff(s: State, key: ProducerKey, p: Provenance, activation: bool, conv: ConvId)
    requires key in s.sources
    ensures var (s', src) := CaptureBound(s, key, p);
      var now := s.sources[key].(provenance := if p.kind == "" then s.sources[key].provenance else p);
      && src == Some(now) && key in s'.sources && s'.sources[key] == now
      && s'.conversations == s.conversations && s'.published == s.published && s'.turns == s.turns
      && (forall other :: other != key ==> (other in s'.sources <==> other in s.sources)
                                           && (other in s.sources ==> s'.sources[other] == s.sources[other]))
    ensures CaptureResolved(s, key, p, activation, conv) == (s, s.sources[key].(provenance := p))
  {
  }

  /** A control takes the conversation's own generation, unless it asks for another session. */
  lemma ControlIff(s: State, conv: ConvId, session: string, noSession: bool, current: string)
    ensures var (s', src) := CaptureControl(s, conv, session, noSession, current);
      var owner := if conv in s.conversations then s.conversations[conv].session else current;
      && conv in s'.conversations && s'.conversations[conv].session == owner && s'.published == s.published
      && s'.sources == s.sources && s'.turns == s.turns
      && (conv in s.conversations ==> s' == s)
      && (conv !in s.conversations ==> s'.conversations[conv].generation == s.nextGeneration + 1)
      && (if session != "" && owner != session then src == NO_SOURCE
          else src.conv == conv && src.generation == s'.conversations[conv].generation
               && TagOf(src.provenance) == (if session != "" then SessionTag(session) else if noSession then NullTag else NoTag))
  {
  }

  /** A transition gives the conversation a new generation under the new session, with nobody bound to it and running
      again; other conversations are as they were. */
  lemma TransitionMoves(s: State, conv: ConvId, previous: string, newSession: string, agent: string)
    requires Inv(s)
    ensures var s' := TransitionResolved(s, conv, previous, newSession, agent);
      && conv in s'.conversations && s'.conversations[conv].session == newSession && !s'.conversations[conv].stopped
      && (conv in s.conversations ==> s'.conversations[conv].generation == s.conversations[conv].generation + 1
                                      && s' == TransitionKnown(s, conv, newSession, agent))
      && (conv !in s.conversations ==> s.nextGeneration < s'.conversations[conv].generation
                                       && TransitionKnown(s, conv, newSession, agent) == s)
      && (forall k :: k in s'.sources ==> s'.sources[k].conv != conv)
      && (forall t :: t in s'.turns ==> t.conv != conv)
      && (forall other :: other != conv ==> Row(s', other) == Row(s, other))
      && Tagged(s'.conversations[conv], if newSession == "" then NullTag
                                        else if agent in {"claude", "codex"} then SessionTag(newSession) else NoTag)
  {
    var s1 := if conv in s.conversations then s else Fresh(s, conv, previous);
    if conv !in s.conversations {
      FreshKeeps(s, conv, previous);
    }
    AdvanceMoves(s1, conv, newSession, TransitionProvenance(newSession, agent));
  }

  ghost predicate LeavesOthers(s: State, s': State, conv: ConvId) {
    && (forall k :: k in s'.sources ==> s'.sources[k].conv != conv)
    && (forall t :: t in s'.turns ==> t.conv != conv)
    && (forall other :: other != conv ==> Row(s', other) == Row(s, other))
  }

  lemma AdvanceOverMoves(s: State, conv: ConvId, session: string, p: Provenance, families: seq<Kind>)
    requires conv in s.conversations
    ensures var s' := AdvanceOver(s, conv, session, p, families);
      conv in s'.conversations && LeavesOthers(s, s', conv) && Tagged(s'.conversations[conv], TagOf(p))
  {
    var begun, src := Advanced(s, conv, session), Source(conv, s.conversations[conv].generation + 1, p, ProducerKey("", 0));
    MarkersTagged(begun, src, families);
    MarkersSources(begun, src, families);
    forall other | other != conv ensures Row(AdmitMarkers(begun, src, families), other) == Row(s, other) {
      MarkersElsewhere(begun, src, families, other);
    }
  }

  lemma AdvanceMoves(s: State, conv: ConvId, session: string, p: Provenance)
    requires Inv(s) && conv in s.conversations
    ensures var s' := Advance(s, conv, session, p);
      && conv in s'.conversations && s'.conversations[conv].session == session && !s'.conversations[conv].stopped
      && s'.conversations[conv].generation == s.conversations[conv].generation + 1
      && LeavesOthers(s, s', conv) && Tagged(s'.conversations[conv], TagOf(p))
  {
    AdvanceKeeps(s, conv, session, p);
    AdvanceOverMoves(s, conv, session, p, FAMILIES);
  }

  /** Every reading retained carries this session tag. */
  predicate Tagged(c: Conversation, tag: Tag) {
    forall key :: key in c.readings ==> c.readings[key].envelope.tag == tag
  }

  lemma {:induction false} MarkersTagged(s: State, src: Source, families: seq<Kind>)
    requires src.conv in s.conversations && Tagged(s.conversations[src.conv], TagOf(src.provenance))
    ensures var s' := AdmitMarkers(s, src, families);
      src.conv in s'.conversations && Tagged(s'.conversations[src.conv], TagOf(src.provenance))
  {
    if families != [] {
      MarkersTagged(s, src, families[..|families| - 1]);
    }
  }

  lemma {:induction false} MarkersSources(s: State, src: Source, families: seq<Kind>)
    ensures AdmitMarkers(s, src, families).sources == s.sources && AdmitMarkers(s, src, families).turns == s.turns
  {
    if families != [] {
      MarkersSources(s, src, families[..|families| - 1]);
    }
  }

  /** The step may give or take a reading of this key: it admits, completes, retains or retires there, brings an event or
      an end of the conversation's stream, or moves the conversation to another generation. */
  predicate Touches(step: Step, conv: ConvId, key: Key) {
    match step
    case StepCaptureBound(_, _) => false
    case StepCaptureResolved(_, _, activation, c) => c == conv
    case StepCaptureControl(_, _, _, _) => false
    case StepTransitionKnown(c, _, _) => c == conv
    case StepTransitionResolved(c, _, _, _) => c == conv
    case StepAdmit(src, e, id, _, _) => src.conv == conv && Key(Family(e.kind), id) == key
    case StepBegin(_, _, _) => false
    case StepComplete(op, _) => op.source.conv == conv && (op.key == key || op.replyOnly)
    case StepNext(_) => false
    case StepRetain(r) => r.conv == conv && Key(Family(r.envelope.kind), r.id) == key
    case StepEvent(src, _) => src.conv == conv
    case StepClose(src, _) => src.conv == conv
    case StepRemove(c) => c == conv
  }

  function Row(s: State, conv: ConvId): Option<Conversation> {
    if conv in s.conversations then Some(s.conversations[conv]) else None
  }

  lemma {:induction false} MarkersElsewhere(s: State, src: Source, families: seq<Kind>, other: ConvId)
    requires other != src.conv
    ensures Row(AdmitMarkers(s, src, families), other) == Row(s, other)
  {
    if families != [] {
      MarkersElsewhere(s, src, families[..|families| - 1], other);
    }
  }

  lemma AdvanceElsewhere(s: State, conv: ConvId, session: string, p: Provenance, other: ConvId)
    requires conv in s.conversations && other != conv
    ensures Row(Advance(s, conv, session, p), other) == Row(s, other)
  {
    MarkersElsewhere(Advanced(s, conv, session),
                     Source(conv, s.conversations[conv].generation + 1, p, ProducerKey("", 0)), FAMILIES, other);
  }

  lemma {:induction false} EffectsElsewhere(s: State, src: Source, effects: seq<Effect>, other: ConvId)
    requires other != src.conv
    ensures Row(Effects(s, src, effects), other) == Row(s, other)
  {
    if effects != [] {
      EffectsElsewhere(s, src, effects[..|effects| - 1], other);
    }
  }

  /** A step about one conversation leaves the others as they are. */
  lemma OthersUnmoved(s: State, step: Step, conv: ConvId, key: Key)
    requires conv in s.conversations && !Touches(step, conv, key)
    requires !(step.StepBegin? || step.StepNext? || step.StepAdmit? || step.StepComplete? || step.StepRetain?)
    ensures Row(Apply(s, step), conv) == Row(s, conv)
  {
    match step {
      case StepCaptureResolved(k, p, activation, c) =>
        if c in s.conversations {
          AdvanceElsewhere(s, c, k.session, p, conv);
        }
      case StepTransitionKnown(c, newSession, agent) =>
        if c in s.conversations {
          AdvanceElsewhere(s, c, newSession, TransitionProvenance(newSession, agent), conv);
        }
      case StepTransitionResolved(c, previous, newSession, agent) =>
        var s1 := if c in s.conversations then s else Fresh(s, c, previous);
        AdvanceElsewhere(s1, c, newSession, TransitionProvenance(newSession, agent), conv);
      case StepEvent(src, effects) =>
        EffectsElsewhere(s.(turns := s.turns + {src}), src, effects, conv);
      case StepClose(src, effects) =>
        EffectsElsewhere(s.(turns := s.turns + {src}), src, effects, conv);
      case StepCaptureControl(c, session, noSession, current) =>
      case StepCaptureBound(_, _) =>
      case StepRemove(_) =>
    }
  }

  predicate KeepsReading(c: Conversation, c': Conversation, key: Key) {
    && c'.generation == c.generation && c'.catalogReply == c.catalogReply
    && (key in c'.readings <==> key in c.readings) && (key in c.readings ==> c'.readings[key] == c.readings[key])
  }

  lemma ReserveUntouched(s: State, step: Step, conv: ConvId, key: Key)
    requires conv in s.conversations && (step.StepBegin? || step.StepNext?)
    ensures conv in Apply(s, step).conversations && KeepsReading(s.conversations[conv], Apply(s, step).conversations[conv], key)
  {
  }

  lemma WorkUntouched(s: State, step: Step, conv: ConvId, key: Key)
    requires conv in s.conversations && !Touches(step, conv, key) && (step.StepAdmit? || step.StepRetain?)
    ensures conv in Apply(s, step).conversations && KeepsReading(s.conversations[conv], Apply(s, step).conversations[conv], key)
  {
  }

  lemma CompleteUntouched(s: State, op: Operation, e: Envelope, conv: ConvId, key: Key)
    requires conv in s.conversations && !Touches(StepComplete(op, e), conv, key)
    ensures var s' := Complete(s, op, e).0; conv in s'.conversations && KeepsReading(s.conversations[conv], s'.conversations[conv], key)
  {
  }

  /** Reservations and continuations never take a reading away, nor does anything done to other keys. */
  lemma UntouchedStep(s: State, step: Step, conv: ConvId, key: Key)
    requires conv in s.conversations && !Touches(step, conv, key)
    ensures conv in Apply(s, step).conversations
    ensures KeepsReading(s.conversations[conv], Apply(s, step).conversations[conv], key)
  {
    match step {
      case StepBegin(_, _, _) => ReserveUntouched(s, step, conv, key);
      case StepNext(_) => ReserveUntouched(s, step, conv, key);
      case StepAdmit(_, _, _, _, _) => WorkUntouched(s, step, conv, key);
      case StepRetain(_) => WorkUntouched(s, step, conv, key);
      case StepComplete(op, e) => CompleteUntouched(s, op, e, conv, key);
      case _ =>
        OthersUnmoved(s, step, conv, key);
        assert Row(Apply(s, step), conv) == Row(s, conv);
    }
  }

  lemma {:induction false} UntouchedRun(s: State, steps: seq<Step>, conv: ConvId, key: Key)
    requires conv in s.conversations && forall i :: 0 <= i < |steps| ==> !Touches(steps[i], conv, key)
    ensures conv in Run(s, steps).conversations
    ensures KeepsReading(s.conversations[conv], Run(s, steps).conversations[conv], key)
  {
    if steps != [] {
      var n := |steps| - 1;
      UntouchedRun(s, steps[..n], conv, key);
      UntouchedStep(Run(s, steps[..n]), steps[n], conv, key);
    }
  }

  /** An accepted reading stays the current one, and retained, until something touches its key; reservations made
      meanwhile do not displace it. A model list is current unless a reply overtook it. */
  lemma AcceptedStaysCurrent(s: State, src: Source, e: Envelope, id: string, scope: string, answerable: Option<bool>, steps: seq<Step>)
    requires Inv(s) && Serves(s, src.conv, src.generation, e.kind) && Fit(e) && !Dismissal(e.kind)
    requires forall i :: 0 <= i < |steps| ==> !Touches(steps[i], src.conv, Key(Family(e.kind), id))
    ensures var (s1, r) := Admit(s, src, e, id, scope, answerable);
      var s2 := Run(s1, steps);
      && r.Some? && src.conv in s2.conversations && Holds(s2.conversations[src.conv], Key(Family(e.kind), id), r.value)
      && (Current(s2, r.value) <==> e.kind.ModelList? && !e.cleared ==> s.conversations[src.conv].catalogReply <= r.value.revision)
  {
    AdmittedIff(s, src, e, id, scope, answerable);
    UntouchedRun(Admit(s, src, e, id, scope, answerable).0, steps, src.conv, Key(Family(e.kind), id));
  }

  /** A published dismissal is current until its key's counter moves on; what it dismissed no longer is. */
  lemma DismissalStaysCurrent(s: State, src: Source, e: Envelope, id: string, scope: string, shown: Reading, steps: seq<Step>)
    requires Inv(s) && Serves(s, src.conv, src.generation, e.kind) && Fit(e) && Dismissal(e.kind) && !e.cleared
    requires shown.conv == src.conv && shown.id == id && Family(shown.envelope.kind) == Family(e.kind) && !shown.envelope.cleared
    requires shown.revision <= s.conversations[src.conv].Counter(Key(Family(e.kind), id))
    ensures var (s1, r) := Admit(s, src, e, id, scope, None);
      var s2 := Run(s1, steps);
      && r.Some? && Current(s1, r.value) && !Current(s1, shown)
      && (src.conv in s2.conversations && s2.conversations[src.conv].generation == src.generation ==>
            (Current(s2, r.value) <==> s2.conversations[src.conv].Counter(Key(Family(e.kind), id)) == r.value.revision))
  {
    AdmittedIff(s, src, e, id, scope, None);
  }

  /** A queued running phase may still be delivered after a later phase replaced it; a queued idle phase may not. */
  lemma ReplacedPhase(s: State, src: Source, e: Envelope, later: Envelope, id: string, scope: string)
    requires Inv(s) && Serves(s, src.conv, src.generation, TurnState) && Fit(e) && Fit(later) && !e.cleared
    requires e.kind == later.kind == TurnState
    ensures var (s1, r) := Admit(s, src, e, id, scope, None);
      var s2 := Admit(s1, src, later, id, scope, None).0;
      r.Some? && Current(s1, r.value) && (Current(s2, r.value) <==> e.payload.Phase? && e.payload.running)
  {
    AdmittedIff(s, src, e, id, scope, None);
    AdmitKeeps(s, src, e, id, scope, None);
    AdmittedIff(Admit(s, src, e, id, scope, None).0, src, later, id, scope, None);
  }

  /** What a stopped conversation still takes. */
  lemma StoppedTakes(s: State, src: Source, e: Envelope, id: string)
    requires Inv(s) && src.conv in s.conversations && s.conversations[src.conv].stopped
    requires s.conversations[src.conv].generation == src.generation && Fit(e)
    ensures Admit(s, src, e, id, "", None).1.Some? <==>
      e.kind in {ModalShown, ModalDismissed, QuestionShown, QuestionDismissed, Resetting, SessionError, ReplySuggestion,
                 SessionSettings, SessionSettingsUpdated, ContextUsage, McpStatus, SlashCommandList, ModelList}
  {
    AdmittedIff(s, src, e, id, "", None);
  }

  /** Over every run, what was captured is served as long as the conversation stays in its generation and runs: each fit
      envelope of that source is admitted, each reservation granted, each event acted on. */
  lemma CapturedIsServed(first: seq<Step>, second: seq<Step>, key: ProducerKey, p: Provenance, activation: bool, conv: ConvId,
                         e: Envelope, id: string, scope: string, kind: Kind)
    requires var (s1, src) := CaptureResolved(Run(INITIAL, first), key, p, activation, conv);
      var s := Run(s1, second);
      src != NO_SOURCE && Fit(e)
      && src.conv in s.conversations && s.conversations[src.conv].generation == src.generation && !s.conversations[src.conv].stopped
    ensures var (s1, src) := CaptureResolved(Run(INITIAL, first), key, p, activation, conv);
      var s := Run(s1, second);
      && Streaming(s, src) && src.generation != 0
      && Admit(s, src, e, id, scope, None).1.Some? && Carries(Admit(s, src, e, id, scope, None).1.value, src, e, id)
      && Begin(s, src, kind, id).1.revision != 0
  {
    RunKeeps(INITIAL, first);
    StepKeeps(Run(INITIAL, first), StepCaptureResolved(key, p, activation, conv));
    var (s1, src) := CaptureResolved(Run(INITIAL, first), key, p, activation, conv);
    RunKeeps(s1, second);
    var s := Run(s1, second);
    assert WellFormed(src.conv, s.conversations[src.conv], s.nextGeneration);
    AdmittedIff(s, src, e, id, scope, None);
    ReservedIff(s, src, kind, id);
  }

  /** A later reservation, update or generation has taken the operation's place. */
  predicate Overtaken(s: State, op: Operation) {
    || Dead(s, op.source.conv, op.source.generation)
    || (&& op.source.conv in s.conversations
        && s.conversations[op.source.conv].generation == op.source.generation
        && op.revision < s.conversations[op.source.conv].Counter(op.key))
  }

  /** Completing an overtaken reservation changes nothing, however late it arrives. */
  lemma OvertakenForever(s: State, steps: seq<Step>, op: Operation, e: Envelope)
    requires Inv(s) && Overtaken(s, op)
    ensures Complete(Run(s, steps), op, e) == (Run(s, steps), false)
    ensures Next(Run(s, steps), op).0 == Run(s, steps) && Next(Run(s, steps), op).1.revision == 0
  {
    RunKeeps(s, steps);
    var s' := Run(s, steps);
    var conv := op.source.conv;
    if Dead(s, conv, op.source.generation) {
      DeadStays(s, s', conv, op.source.generation);
    } else if conv in s'.conversations {
      assert LaterConversation(s.conversations[conv], s'.conversations[conv]);
      if s'.conversations[conv].generation == op.source.generation {
        assert LaterKey(s.conversations[conv], s'.conversations[conv], op.key);
      }
    }
  }

  /** Every accepted admission, reservation, continuation or retention on a key overtakes the operations before it. */
  lemma NewerWorkOvertakes(s: State, op: Operation, kind: Kind, e: Envelope, r: Reading)
    requires Inv(s) && Owns(s, op)
    requires Family(kind) == op.key.family && Family(e.kind) == op.key.family
    requires r.conv == op.source.conv && Key(Family(r.envelope.kind), r.id) == op.key
    ensures Begin(s, op.source, kind, op.key.id).1.revision != 0 ==> Overtaken(Begin(s, op.source, kind, op.key.id).0, op)
    ensures forall scope, ans :: Admit(s, op.source, e, op.key.id, scope, ans).1.Some? ==>
      Overtaken(Admit(s, op.source, e, op.key.id, scope, ans).0, op)
    ensures op.revision != 0 ==> Overtaken(Next(s, op).0, op)
    ensures Retain(s, r).1 ==> Overtaken(Retain(s, r).0, op)
  {
  }

  /** A reservation that retained a reading can never complete again. */
  lemma CompletesOnce(s: State, op: Operation, e: Envelope, steps: seq<Step>, again: Envelope)
    requires Inv(s) && Complete(s, op, e).1 && !Dismissal(e.kind)
    ensures var s' := Run(Complete(s, op, e).0, steps); Complete(s', op, again) == (s', false)
  {
    var s1 := Complete(s, op, e).0;
    var conv := op.source.conv;
    CompleteKeeps(s, op, e);
    RunKeeps(s1, steps);
    var s' := Run(s1, steps);
    assert s1.conversations[conv].Settled(op.key);
    if conv in s'.conversations && s'.conversations[conv].generation == op.source.generation {
      assert LaterConversation(s1.conversations[conv], s'.conversations[conv]);
      assert LaterKey(s1.conversations[conv], s'.conversations[conv], op.key);
    }
  }

  /** Completing twice in a row is accepted exactly when the first completion was a dismissal. */
  lemma SecondCompletion(s: State, op: Operation, e: Envelope, again: Envelope)
    requires Inv(s) && Complete(s, op, e).1
    ensures Complete(Complete(s, op, e).0, op, again).1 <==>
      && Dismissal(e.kind)
      && Family(again.kind) == op.key.family
      && ValidEnvelope(again.(tag := TagOf(op.source.provenance)))
  {
    if !Dismissal(e.kind) {
      CompletesOnce(s, op, e, [], again);
    }
  }

  lemma RunSnoc(s: State, steps: seq<Step>, step: Step)
    ensures Run(s, steps + [step]) == Apply(Run(s, steps), step)
  {
    assert (steps + [step])[..|steps|] == steps;
  }

  /** A modal control captured for a new conversation, and the reservation of its dismissal. */
  const CONTROL: Step := StepCaptureControl("c", "", false, "")
  const SOURCE: Source := Source("c", 1, Provenance("", ""), ProducerKey("", 0))
  const RESERVE: Step := StepBegin(SOURCE, ModalDismissed, "m")

  lemma ReservedRun()
    ensures Run(INITIAL, [CONTROL]) == Fresh(INITIAL, "c", "")
    ensures Run(INITIAL, [CONTROL, RESERVE]) == Begin(Fresh(INITIAL, "c", ""), SOURCE, ModalDismissed, "m").0
  {
    RunSnoc(INITIAL, [], CONTROL);
    assert [] + [CONTROL] == [CONTROL];
    RunSnoc(INITIAL, [CONTROL], RESERVE);
    assert [CONTROL] + [RESERVE] == [CONTROL, RESERVE];
  }

  /** The double acceptance does happen: a reservation made on a run from the start, completed twice as a dismissal. */
  lemma DismissalCompletesTwice() returns (op: Operation, e: Envelope)
    ensures CaptureControl(INITIAL, "c", "", false, "").1 == SOURCE
    ensures op == Begin(Run(INITIAL, [CONTROL]), SOURCE, ModalDismissed, "m").1 && op.revision == 1
    ensures var s := Run(INITIAL, [CONTROL, RESERVE]); Complete(s, op, e).1 && Complete(Complete(s, op, e).0, op, e).1
  {
    ReservedRun();
    op := Begin(Fresh(INITIAL, "c", ""), SOURCE, ModalDismissed, "m").1;
    e := Envelope(ModalDismissed, EmptyObject, NoTag, false, true);
    RunKeeps(INITIAL, [CONTROL, RESERVE]);
    SecondCompletion(Run(INITIAL, [CONTROL, RESERVE]), op, e, e);
  }

  /** A new generation starts from exactly one cleared marker per family, each at revision 1. */
  lemma AdvanceLeavesMarkers(s: State, conv: ConvId, session: string, p: Provenance)
    requires conv in s.conversations
    ensures conv in Advance(s, conv, session, p).conversations
    ensures var c := Advance(s, conv, session, p).conversations[conv];
      && (forall key :: key in c.readings <==> key.id == "" && key.family in FAMILIES)
      && (forall key :: key in c.readings ==> c.readings[key].envelope.cleared && c.readings[key].revision == 1)
  {
    FamiliesAreDistinct();
    AdvanceOverLeavesMarkers(s, conv, session, p, FAMILIES);
  }

  /** The position of a family in FAMILIES. */
  function Rank(k: Kind): nat {
    match k
    case TurnState => 0 case Stall => 1 case ApiRetry => 2 case Compacting => 3 case ThinkingProgress => 4
    case ToolProgress => 5 case BackgroundTaskProgress => 6 case RateLimited => 7 case ContextUsage => 8
    case ModelAnnounced => 9 case SessionFacts => 10 case McpStatus => 11 case SlashCommandList => 12
    case ModelList => 13 case ModalShown => 14 case QuestionShown => 15 case Resetting => 16
    case SessionError => 17 case ReplySuggestion => 18 case SessionSettings => 19
    case _ => 20
  }

  lemma FamiliesAreDistinct()
    ensures DistinctFamilies(FAMILIES)
  {
    var f := FAMILIES;
    assert Rank(f[0]) == 0 && Rank(f[1]) == 1 && Rank(f[2]) == 2 && Rank(f[3]) == 3 && Rank(f[4]) == 4;
    assert Rank(f[5]) == 5 && Rank(f[6]) == 6 && Rank(f[7]) == 7 && Rank(f[8]) == 8 && Rank(f[9]) == 9;
    assert Rank(f[10]) == 10 && Rank(f[11]) == 11 && Rank(f[12]) == 12 && Rank(f[13]) == 13 && Rank(f[14]) == 14;
    assert Rank(f[15]) == 15 && Rank(f[16]) == 16 && Rank(f[17]) == 17 && Rank(f[18]) == 18 && Rank(f[19]) == 19;
    RankedIsDistinct(f);
  }

  lemma RankedIsDistinct(f: seq<Kind>)
    requires |f| == 20 && forall i :: 0 <= i < 20 ==> Rank(f[i]) == i
    ensures DistinctFamilies(f)
  {
    forall i, j | 0 <= i < j < |f| ensures f[i] != f[j] {
      assert Rank(f[i]) == i && Rank(f[j]) == j;
    }
  }

  lemma AdvanceOverLeavesMarkers(s: State, conv: ConvId, session: string, p: Provenance, families: seq<Kind>)
    requires conv in s.conversations
    requires DistinctFamilies(families)
    ensures conv in AdvanceOver(s, conv, session, p, families).conversations
    ensures var c := AdvanceOver(s, conv, session, p, families).conversations[conv];
      && (forall key :: key in c.readings <==> key.id == "" && key.family in families)
      && (forall key :: key in c.readings ==> c.readings[key].envelope.cleared && c.readings[key].revision == 1)
  {
    assert HoldsMarkers(Advanced(s, conv, session).conversations[conv], s.conversations[conv].generation + 1, {});
    MarkersAre(Advanced(s, conv, session), Source(conv, s.conversations[conv].generation + 1, p, ProducerKey("", 0)), families);
  }

  /** The conversation holds exactly the cleared markers of families, each at revision 1. */
  ghost predicate HoldsMarkers(c: Conversation, generation: nat, families: set<Kind>) {
    && c.generation == generation && !c.stopped
    && (forall key :: key in c.readings <==> key.id == "" && key.family in families)
    && (forall key :: key !in c.readings ==> c.Counter(key) == 0)
    && (forall key :: key in c.readings ==> c.readings[key].envelope.cleared && c.readings[key].revision == 1)
  }

  lemma MarkerStep(s: State, src: Source, families: set<Kind>, f: Kind)
    requires src.generation != 0 && src.conv in s.conversations
    requires HoldsMarkers(s.conversations[src.conv], src.generation, families)
    requires f !in families && !f.OtherKind? && !Dismissal(f) && Family(f) == f
    ensures var s' := Admit(s, src, ClearedMarker(f), "", "", None).0;
      src.conv in s'.conversations && HoldsMarkers(s'.conversations[src.conv], src.generation, families + {f})
  {
    var c := s.conversations[src.conv];
    var key := Key(f, "");
    assert key !in c.readings && c.Counter(key) == 0;
    var c' := Admit(s, src, ClearedMarker(f), "", "", None).0.conversations[src.conv];
    assert c'.readings.Keys == c.readings.Keys + {key};
    forall k | k !in c'.readings ensures c'.Counter(k) == 0 {
      assert c'.Counter(k) == c.Counter(k);
    }
  }

  predicate DistinctFamilies(families: seq<Kind>) {
    && (forall i, j :: 0 <= i < j < |families| ==> families[i] != families[j])
    && (forall i :: 0 <= i < |families| ==> !families[i].OtherKind? && !Dismissal(families[i]) && Family(families[i]) == families[i])
  }

  function SetOf(families: seq<Kind>): set<Kind> {
    set f | f in families
  }

  lemma SetOfSnoc(families: seq<Kind>)
    requires families != [] && DistinctFamilies(families)
    ensures var n := |families| - 1;
      DistinctFamilies(families[..n]) && SetOf(families) == SetOf(families[..n]) + {families[n]} && families[n] !in SetOf(families[..n])
  {
    var n := |families| - 1;
    assert families == families[..n] + [families[n]];
  }

  lemma {:induction false} MarkersAre(s: State, src: Source, families: seq<Kind>)
    requires src.generation != 0 && src.conv in s.conversations && DistinctFamilies(families)
    requires HoldsMarkers(s.conversations[src.conv], src.generation, {})
    ensures var s' := AdmitMarkers(s, src, families);
      src.conv in s'.conversations && HoldsMarkers(s'.conversations[src.conv], src.generation, SetOf(families))
  {
    if families == [] {
      assert SetOf(families) == {};
    } else {
      SetOfSnoc(families);
      var front := families[..|families| - 1];
      MarkersAre(s, src, front);
      MarkerStep(AdmitMarkers(s, src, front), src, SetOf(front), families[|families| - 1]);
    }
  }

  // ---------------------------------------------------------------- the owner object

  lemma BumpOneMore(c: Conversation, done: set<Key>, key: Key)
    requires key !in done
    ensures BumpedRevisions(c, done)[RevisionKey(c.generation, key) := c.Counter(key) + 1] == BumpedRevisions(c, done + {key})
    ensures RetireKeys(c, done).Counter(key) == c.Counter(key)
  {
    var a := BumpedRevisions(c, done)[RevisionKey(c.generation, key) := c.Counter(key) + 1];
    var b := BumpedRevisions(c, done + {key});
    var before := set k | k in done :: RevisionKey(c.generation, k);
    var after := set k | k in done + {key} :: RevisionKey(c.generation, k);
    assert after == before + {RevisionKey(c.generation, key)};
    assert a.Keys == b.Keys;
  }

  lemma RetireNone(c: Conversation)
    ensures RetireKeys(c, {}) == c
  {
    assert c.readings - {} == c.readings;
    assert c.scopes - {} == c.scopes;
    assert BumpedRevisions(c, {}) == c.revisions;
  }

  lemma RetireOneMore(c: Conversation, done: set<Key>, key: Key)
    requires key !in done
    ensures var d := RetireKeys(c, done);
      d.(readings := d.readings - {key}, scopes := d.scopes - {key}).Bump(key) == RetireKeys(c, done + {key})
  {
    BumpOneMore(c, done, key);
    assert c.readings - done - {key} == c.readings - (done + {key});
    assert c.scopes - done - {key} == c.scopes - (done + {key});
  }

  class LiveOwner {
    var conversations: map<ConvId, Conversation>
    var sources: map<ProducerKey, Source>
    var turns: set<Source>
    var nextGeneration: nat
    var published: seq<Reading>

    ghost function View(): State
      reads this
    {
      State(conversations, sources, turns, nextGeneration, published)
    }

    ghost predicate Valid()
      reads this
    {
      Inv(View())
    }

    constructor ()
      ensures Valid() && View() == INITIAL
    {
      conversations, sources, turns, nextGeneration, published := map[], map[], {}, 0, [];
    }

    method ReleaseSources(conv: ConvId)
      requires Valid()
      modifies this`sources, this`turns
      ensures Valid() && View() == Release(old(View()), conv)
    {
      ReleaseKeeps(View(), conv);
      sources := map k | k in sources && sources[k].conv != conv :: sources[k];
      turns := set src | src in turns && src.conv != conv;
    }

    method AdmitLocked(src: Source, e: Envelope, id: string, scope: string, answerable: Option<bool>)
      returns (r: Option<Reading>)
      requires Valid()
      modifies this`conversations, this`published
      ensures Valid() && (View(), r) == Admit(old(View()), src, e, id, scope, answerable)
    {
      AdmitKeeps(View(), src, e, id, scope, answerable);
      if src.conv !in conversations || src.generation == 0 || src.generation != conversations[src.conv].generation
         || (conversations[src.conv].stopped && !Control(e.kind)) {
        return None;
      }
      var tagged := e.(tag := TagOf(src.provenance));
      if !ValidEnvelope(tagged) {
        return None;
      }
      var key := Key(Family(e.kind), id);
      var c := conversations[src.conv].Bump(key);
      var reading := Reading(tagged, src.conv, src.generation, id, c.Counter(key), answerable);
      if Dismissal(e.kind) {
        c := c.(readings := c.readings - {key}, scopes := c.scopes - {key});
      } else {
        c := c.(readings := c.readings[key := reading], scopes := c.scopes[key := scope]);
      }
      conversations := conversations[src.conv := c];
      published := published + [reading];
      r := Some(reading);
    }

    method NewConversation(conv: ConvId, session: string)
      requires Valid() && conv !in conversations
      modifies this`conversations, this`nextGeneration
      ensures Valid() && View() == Fresh(old(View()), conv, session)
    {
      FreshKeeps(View(), conv, session);
      nextGeneration := nextGeneration + 1;
      conversations := conversations[conv := Conversation(nextGeneration, session, 0, false, map[], map[], map[], 0)];
    }

    /** The raised conversation, with nothing bound to it. */
    method Raise(conv: ConvId, session: string)
      requires Valid() && conv in conversations
      modifies this`sources, this`turns, this`conversations, this`nextGeneration
      ensures Valid() && View() == Advanced(old(View()), conv, session)
    {
      ghost var before := View();
      RaiseKeeps(before, conv, session);
      var c := conversations[conv];
      var g := c.generation + 1;
      sources := map k | k in sources && sources[k].conv != conv :: sources[k];
      turns := set src | src in turns && src.conv != conv;
      conversations := conversations[conv := Conversation(g, session, c.incarnation, false, map[], map[], map[], 0)];
      if g > nextGeneration {
        nextGeneration := g;
      }
      assert View() == Advanced(before, conv, session);
    }

    method AdvanceLocked(conv: ConvId, session: string, p: Provenance, families: seq<Kind>)
      requires Valid() && conv in conversations
      modifies this
      ensures Valid() && View() == AdvanceOver(old(View()), conv, session, p, families)
    {
      var src := Source(conv, conversations[conv].generation + 1, p, ProducerKey("", 0));
      Raise(conv, session);
      MarkFamilies(src, families);
    }

    /** The loop that admits one cleared marker per family. */
    method MarkFamilies(src: Source, families: seq<Kind>)
      requires Valid()
      modifies this`conversations, this`published
      ensures Valid() && View() == AdmitMarkers(old(View()), src, families)
    {
      ghost var before := View();
      for i := 0 to |families|
        invariant Valid() && View() == AdmitMarkers(before, src, families[..i])
      {
        var _ := AdmitLocked(src, ClearedMarker(families[i]), "", "", None);
        assert families[..i + 1][..i] == families[..i];
      }
      assert families[..|families|] == families;
    }

    method Capture(key: ProducerKey, p: Provenance) returns (bound: Option<Source>)
      requires Valid()
      modifies this`sources
      ensures Valid() && (View(), bound) == CaptureBound(old(View()), key, p)
    {
      CaptureBoundKeeps(View(), key, p);
      if key !in sources {
        return None;
      }
      var src := sources[key];
      if p.kind != "" {
        src := src.(provenance := p);
        sources := sources[key := src];
      }
      bound := Some(src);
    }

    method CaptureAfterResolve(key: ProducerKey, p: Provenance, activation: bool, conv: ConvId) returns (src: Source)
      requires Valid()
      modifies this
      ensures Valid() && (View(), src) == CaptureResolved(old(View()), key, p, activation, conv)
    {
      CaptureResolvedKeeps(View(), key, p, activation, conv);
      if key in sources {
        return sources[key].(provenance := p);
      }
      if conv !in conversations {
        NewConversation(conv, key.session);
      } else if key.incarnation < conversations[conv].incarnation {
        return NO_SOURCE;
      } else if Reactivates(conversations[conv], key, p, activation) {
        AdvanceKeeps(View(), conv, key.session, p);
        AdvanceLocked(conv, key.session, p, FAMILIES);
      }
      var c := conversations[conv];
      if c.session != key.session {
        return NO_SOURCE;
      }
      src := Source(conv, c.generation, p, key);
      if key.incarnation > c.incarnation {
        c := c.(incarnation := key.incarnation);
      }
      conversations := conversations[conv := c];
      if !c.stopped {
        sources := sources[key := src];
      }
    }

    method CaptureForControl(conv: ConvId, session: string, noSession: bool, current: string) returns (src: Source)
      requires Valid()
      modifies this
      ensures Valid() && (View(), src) == CaptureControl(old(View()), conv, session, noSession, current)
    {
      if conv !in conversations {
        NewConversation(conv, current);
      }
      var p := if session != "" then Provenance("", session) else if noSession then Provenance("none", "")
               else Provenance("", "");
      if session != "" && conversations[conv].session != session {
        return NO_SOURCE;
      }
      src := Source(conv, conversations[conv].generation, p, ProducerKey("", 0));
    }

    method Transition(conv: ConvId, newSession: string, agent: string) returns (known: bool)
      requires Valid()
      modifies this
      ensures Valid() && View() == TransitionKnown(old(View()), conv, newSession, agent)
      ensures known <==> conv in old(conversations)
    {
      known := conv in conversations;
      if known {
        AdvanceLocked(conv, newSession, TransitionProvenance(newSession, agent), FAMILIES);
      }
    }

    method TransitionAfterResolve(conv: ConvId, previous: string, newSession: string, agent: string)
      requires Valid()
      modifies this
      ensures Valid() && View() == TransitionResolved(old(View()), conv, previous, newSession, agent)
    {
      if conv !in conversations {
        NewConversation(conv, previous);
      }
      AdvanceLocked(conv, newSession, TransitionProvenance(newSession, agent), FAMILIES);
    }

    method Reserve(src: Source, kind: Kind, id: string) returns (op: Operation)
      requires Valid()
      modifies this`conversations
      ensures Valid() && (View(), op) == Begin(old(View()), src, kind, id)
    {
      BeginKeeps(View(), src, kind, id);
      op := Operation(src, Key(Family(kind), id), 0, src.generation, false);
      if src.conv in conversations {
        var c := conversations[src.conv];
        if c.generation == src.generation && (!c.stopped || Control(kind)) {
          c := c.Bump(op.key);
          op := op.(revision := c.Counter(op.key));
          conversations := conversations[src.conv := c];
        }
      }
    }

    method CompleteOperation(op: Operation, e: Envelope) returns (ok: bool)
      requires Valid()
      modifies this`conversations, this`published
      ensures Valid() && (View(), ok) == Complete(old(View()), op, e)
    {
      CompleteKeeps(View(), op, e);
      if op.revision == 0 || Family(e.kind) != op.key.family || !ValidEnvelope(e.(tag := TagOf(op.source.provenance))) {
        return false;
      }
      var r := CompletedReading(op, e);
      if op.source.conv !in conversations {
        return false;
      }
      var c := conversations[op.source.conv];
      if (c.stopped && !Control(e.kind)) || c.generation != op.source.generation || c.generation != op.generation
         || c.Counter(op.key) != op.revision {
        return false;
      }
      if op.replyOnly {
        if e.kind.ModelList? {
          conversations := conversations[op.source.conv := c.(catalogReply := op.revision)];
        }
        return false;
      }
      if op.key in c.readings && c.readings[op.key].revision == op.revision {
        return false;
      }
      if Dismissal(e.kind) {
        c := c.(readings := c.readings - {op.key});
      } else {
        c := c.(readings := c.readings[op.key := r]);
      }
      conversations := conversations[op.source.conv := c];
      published := published + [r];
      ok := true;
    }

    method Continue(op: Operation) returns (next: Operation)
      requires Valid()
      modifies this`conversations
      ensures Valid() && (View(), next) == Next(old(View()), op)
    {
      NextKeeps(View(), op);
      if op.revision == 0 {
        return op;
      }
      if op.source.conv !in conversations || conversations[op.source.conv].generation != op.source.generation
         || conversations[op.source.conv].Counter(op.key) != op.revision {
        return op.(revision := 0);
      }
      var c := conversations[op.source.conv].Bump(op.key);
      conversations := conversations[op.source.conv := c];
      next := op.(revision := c.Counter(op.key));
    }

    method RetainReading(r: Reading) returns (ok: bool)
      requires Valid()
      modifies this`conversations
      ensures Valid() && (View(), ok) == Retain(old(View()), r)
    {
      RetainKeeps(View(), r);
      if r.revision == 0 || !ValidEnvelope(r.envelope) || r.conv !in conversations {
        return false;
      }
      var c := conversations[r.conv];
      var key := Key(Family(r.envelope.kind), r.id);
      if r.generation != c.generation || c.stopped || r.revision <= c.Counter(key) {
        return false;
      }
      c := c.(revisions := c.revisions[RevisionKey(c.generation, key) := r.revision]);
      if Dismissal(r.envelope.kind) {
        c := c.(readings := c.readings - {key});
      } else {
        c := c.(readings := c.readings[key := r]);
      }
      conversations := conversations[r.conv := c];
      ok := true;
    }

    method RetireLocked(src: Source, key: Key)
      requires Valid()
      modifies this`conversations
      ensures Valid() && View() == Retire(old(View()), src, key)
    {
      RetireKeeps(View(), src, key);
      if src.conv in conversations && conversations[src.conv].generation == src.generation
         && key in conversations[src.conv].readings {
        var c := conversations[src.conv];
        conversations := conversations[src.conv := c.(readings := c.readings - {key}, scopes := c.scopes - {key}).Bump(key)];
      }
    }

    method AcceptEventLocked(src: Source, effects: seq<Effect>)
      requires Valid()
      modifies this`conversations, this`turns, this`published
      ensures Valid() && View() == AcceptEvent(old(View()), src, effects)
    {
      if src.generation == 0 || src.conv !in conversations || conversations[src.conv].generation != src.generation
         || conversations[src.conv].stopped {
        return;
      }
      AcceptEventKeeps(View(), src, []);
      turns := turns + {src};
      ghost var start := View();
      var i := 0;
      while i < |effects|
        invariant 0 <= i <= |effects|
        invariant Valid() && View() == Effects(start, src, effects[..i])
      {
        match effects[i] {
          case AdmitEffect(e, id, scope) => var _ := AdmitLocked(src, e, id, scope, None);
          case RetireEffect(key) => RetireLocked(src, key);
        }
        assert effects[..i + 1][..i] == effects[..i];
        i := i + 1;
      }
      assert effects[..i] == effects;
    }

    method Close(src: Source, effects: seq<Effect>)
      requires Valid()
      modifies this
      ensures Valid() && View() == CloseProducer(old(View()), src, effects)
      ensures src.conv in conversations && conversations[src.conv].generation == src.generation && src.generation != 0 ==>
        && conversations[src.conv].stopped
        && (forall key :: key in conversations[src.conv].readings ==> !Progress(key.family))
        && (forall key :: key in sources ==> sources[key].conv != src.conv)
    {
      CloseProducerKeeps(View(), src, effects);
      if src.generation == 0 {
        return;
      }
      AcceptEventLocked(src, effects);
      if src.conv in conversations && conversations[src.conv].generation == src.generation {
        ReleaseSources(src.conv);
        var c := RetireAllProgress(conversations[src.conv].(stopped := true));
        conversations := conversations[src.conv := c];
      }
    }

    /** The loop over a stopped conversation's readings. */
    static method RetireAllProgress(start: Conversation) returns (c: Conversation)
      ensures c == RetireProgress(start)
    {
      c := start;
      var todo := ProgressKeys(start);
      ghost var all := todo;
      RetireNone(start);
      assert all - todo == {};
      while todo != {}
        invariant todo <= all
        invariant c == RetireKeys(start, all - todo)
        decreases |todo|
      {
        var key :| key in todo;
        RetireOneMore(start, all - todo, key);
        c := c.(readings := c.readings - {key}, scopes := c.scopes - {key}).Bump(key);
        assert all - (todo - {key}) == all - todo + {key};
        todo := todo - {key};
      }
      assert all - todo == all;
    }

    method RemoveConversation(conv: ConvId)
      requires Valid()
      modifies this
      ensures Valid() && View() == Remove(old(View()), conv)
    {
      RemoveKeeps(View(), conv);
      ReleaseSources(conv);
      conversations := conversations - {conv};
    }
  }
}
