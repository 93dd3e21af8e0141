/** The model-vocabulary store: retentions mark the held lists dirty, and one background writer drains them to the file.
    Each section of the mutex, each encoding and each file write is one step. */
module Vocabulary {
  import opened Common

  /** Claude's list and Codex's, by identity. */
  datatype Lists = Lists(claude: nat, codex: nat)

  type Body = seq<nat>

  /** Where a writer goroutine is: about to look, holding a snapshot, or done writing and about to record it. */
  datatype Writer = AtTop | Holds(snapshot: Lists, previous: Option<Body>) | Wrote(snapshot: Lists, body: Body)

  /** writers are the goroutines alive. taken is the last snapshot any of them took, and missed says that its encoding
      or its write failed. */
  datatype State = State(
    held: Lists, dirty: bool, writing: bool, closed: bool, lastWritten: Option<Body>,
    file: Option<Body>, writers: seq<Writer>, taken: Option<Lists>, missed: bool)

  /** A store just loaded: nothing unsaved, and the last body written is the file's. */
  function Loaded(held: Lists, file: Option<Body>): State {
    State(held, false, false, false, file, file, [], None, false)
  }

  datatype Step =
    | Retain(claude: nat)
    | RetainCodex(codex: nat, empty: bool)
    | Close
    | Look(w: nat)                       // the drain loop's first section
    | Write(w: nat, written: bool)       // encode outside the lock and write unless nothing changed
    | Record(w: nat)

  function Schedule(s: State): State {
    var s1 := s.(dirty := true);
    if s.closed || s.writing then s1 else s1.(writing := true, writers := s.writers + [AtTop])
  }

  function Drop(writers: seq<Writer>, w: nat): seq<Writer>
    requires w < |writers|
  {
    writers[..w] + writers[w + 1..]
  }

  function TakeLook(s: State, w: nat): State
    requires w < |s.writers|
  {
    if !s.dirty then s.(writing := false, writers := Drop(s.writers, w))
    else s.(dirty := false, writers := s.writers[w := Holds(s.held, s.lastWritten)], taken := Some(s.held), missed := false)
  }

  /** encode gives no body when encoding fails. A failed write leaves the file as it was. */
  function WriteOut(s: State, w: nat, written: bool, encode: Lists -> Option<Body>): State
    requires w < |s.writers| && s.writers[w].Holds?
  {
    var snapshot := s.writers[w].snapshot;
    var body := encode(snapshot);
    if body.None? then s.(writers := s.writers[w := AtTop], missed := true)
    else if s.writers[w].previous == body then s.(writers := s.writers[w := AtTop])
    else if !written then s.(writers := s.writers[w := AtTop], missed := true)
    else s.(file := body, writers := s.writers[w := Wrote(snapshot, body.value)])
  }

  function Apply(s: State, step: Step, encode: Lists -> Option<Body>): State {
    match step
    case Retain(claude) => Schedule(s.(held := s.held.(claude := claude)))
    case RetainCodex(codex, empty) => if empty then s else Schedule(s.(held := s.held.(codex := codex)))
    case Close => s.(closed := true)
    case Look(w) => if w < |s.writers| && s.writers[w].AtTop? then TakeLook(s, w) else s
    case Write(w, written) => if w < |s.writers| && s.writers[w].Holds? then WriteOut(s, w, written, encode) else s
    case Record(w) =>
      if w < |s.writers| && s.writers[w].Wrote?
      then s.(lastWritten := Some(s.writers[w].body), writers := s.writers[w := AtTop]) else s
  }

  function Run(s: State, steps: seq<Step>, encode: Lists -> Option<Body>): State {
    if steps == [] then s else Apply(Run(s, steps[..|steps| - 1], encode), steps[|steps| - 1], encode)
  }

  /** At most one writer, exactly while writing is set; something unsaved has a writer unless the store is closed; what is
      clean is the last snapshot; and between writes the last body recorded is the file's. */
  predicate Inv(s: State, encode: Lists -> Option<Body>) {
    && |s.writers| == (if s.writing then 1 else 0)
    && (s.dirty ==> s.writing || s.closed)
    && (!s.dirty && s.taken.Some? ==> s.taken.value == s.held)
    && (s.writing && !s.writers[0].AtTop? ==> s.taken == Some(s.writers[0].snapshot) && !s.missed)
    && (s.writing && s.writers[0].Holds? ==> s.writers[0].previous == s.lastWritten)
    && (if s.writing && s.writers[0].Wrote? then s.file == Some(s.writers[0].body) && encode(s.writers[0].snapshot) == s.file
        else s.lastWritten == s.file)
    && (s.taken.Some? && !s.missed && (!s.writing || s.writers[0].AtTop?) ==> s.file.Some? && encode(s.taken.value) == s.file)
  }

  lemma WriterKeeps(s: State, step: Step, encode: Lists -> Option<Body>)
    requires Inv(s, encode) && (step.Look? || step.Write? || step.Record?)
    ensures Inv(Apply(s, step, encode), encode)
  {
  }

  lemma StepKeeps(s: State, step: Step, encode: Lists -> Option<Body>)
    requires Inv(s, encode)
    ensures Inv(Apply(s, step, encode), encode)
  {
    if step.Look? || step.Write? || step.Record? {
      WriterKeeps(s, step, encode);
    }
  }

  lemma {:induction false} RunKeeps(held: Lists, file: Option<Body>, steps: seq<Step>, encode: Lists -> Option<Body>)
    ensures Inv(Run(Loaded(held, file), steps, encode), encode)
  {
    if steps != [] {
      RunKeeps(held, file, steps[..|steps| - 1], encode);
      StepKeeps(Run(Loaded(held, file), steps[..|steps| - 1], encode), steps[|steps| - 1], encode);
    }
  }

  /** Over every interleaving there is never a second writer, and an unsaved value always has one unless the store was
      closed. */
  lemma SingleFlight(held: Lists, file: Option<Body>, steps: seq<Step>, encode: Lists -> Option<Body>)
    ensures var s := Run(Loaded(held, file), steps, encode);
      |s.writers| <= 1 && (s.writing <==> s.writers != []) && (s.dirty ==> s.writers != [] || s.closed)
  {
    RunKeeps(held, file, steps, encode);
  }

  /** When the writer has stopped, nothing is unsaved and its last snapshot met no failure, the file encodes the newest
      retained lists. */
  lemma StoppedMeansSaved(held: Lists, file: Option<Body>, steps: seq<Step>, encode: Lists -> Option<Body>)
    ensures var s := Run(Loaded(held, file), steps, encode);
      s.writers == [] && !s.dirty && s.taken.Some? && !s.missed ==> s.file.Some? && s.file == encode(s.held)
  {
    RunKeeps(held, file, steps, encode);
  }

  /** Before the store is closed, a stopped writer leaves nothing unsaved: only the failure of its last snapshot can keep
      the newest lists out of the file. */
  lemma OpenStoreSavesOrFailed(held: Lists, file: Option<Body>, steps: seq<Step>, encode: Lists -> Option<Body>)
    ensures var s := Run(Loaded(held, file), steps, encode);
      s.writers == [] && !s.closed && s.taken.Some? ==> s.taken.value == s.held && (s.missed || s.file == encode(s.held))
  {
    RunKeeps(held, file, steps, encode);
  }

  function Told(held: Lists, step: Step): Lists {
    match step
    case Retain(claude) => held.(claude := claude)
    case RetainCodex(codex, empty) => if empty then held else held.(codex := codex)
    case _ => held
  }

  /** The lists after the steps, as the retentions alone say. */
  function Newest(held: Lists, steps: seq<Step>): Lists {
    if steps == [] then held else Told(Newest(held, steps[..|steps| - 1]), steps[|steps| - 1])
  }

  predicate Retains(step: Step) {
    step.Retain? || (step.RetainCodex? && !step.empty)
  }

  lemma HeldStep(s: State, step: Step, encode: Lists -> Option<Body>)
    ensures Apply(s, step, encode).held == Told(s.held, step)
  {
  }

  /** Over every interleaving the store holds what was retained last. */
  lemma {:induction false} HoldsNewest(held: Lists, file: Option<Body>, steps: seq<Step>, encode: Lists -> Option<Body>)
    ensures Run(Loaded(held, file), steps, encode).held == Newest(held, steps)
  {
    if steps != [] {
      var n := |steps| - 1;
      HoldsNewest(held, file, steps[..n], encode);
      HeldStep(Run(Loaded(held, file), steps[..n], encode), steps[n], encode);
    }
  }

  predicate Seen(s: State) {
    s.dirty || s.taken == Some(s.held)
  }

  lemma SeenStep(s: State, step: Step, encode: Lists -> Option<Body>)
    requires Retains(step) || Seen(s)
    ensures Seen(Apply(s, step, encode))
  {
  }

  /** Over every interleaving, what was retained is unsaved or the last snapshot is of it. */
  lemma {:induction false} RetainedIsTaken(held: Lists, file: Option<Body>, steps: seq<Step>, encode: Lists -> Option<Body>, k: nat)
    requires k < |steps| && Retains(steps[k])
    ensures var s := Run(Loaded(held, file), steps, encode); s.dirty || s.taken == Some(s.held)
  {
    var n := |steps| - 1;
    if k < n {
      RetainedIsTaken(held, file, steps[..n], encode, k);
    }
    SeenStep(Run(Loaded(held, file), steps[..n], encode), steps[n], encode);
  }

  /** A closed store takes retentions on but starts no writer; an open one always has one while something is unsaved. */
  lemma {:induction false} ClosedIff(held: Lists, file: Option<Body>, steps: seq<Step>, encode: Lists -> Option<Body>)
    ensures Run(Loaded(held, file), steps, encode).closed <==> Close in steps
  {
    if steps != [] {
      var n := |steps| - 1;
      ClosedIff(held, file, steps[..n], encode);
      ClosedStep(Run(Loaded(held, file), steps[..n], encode), steps[n], encode);
      assert steps == steps[..n] + [steps[n]];
    }
  }

  lemma ClosedStep(s: State, step: Step, encode: Lists -> Option<Body>)
    ensures var s' := Apply(s, step, encode);
      && (s'.closed <==> s.closed || step.Close?)
      && (s.closed && s.writers == [] ==> s'.writers == [] && s'.file == s.file)
  {
  }

  /** A closed store without a writer never has one again. */
  lemma {:induction false} ClosedStartsNothing(s: State, steps: seq<Step>, encode: Lists -> Option<Body>)
    requires s.closed && s.writers == []
    ensures var s' := Run(s, steps, encode); s'.closed && s'.writers == [] && s'.file == s.file
  {
    if steps != [] {
      ClosedStartsNothing(s, steps[..|steps| - 1], encode);
      ClosedStep(Run(s, steps[..|steps| - 1], encode), steps[|steps| - 1], encode);
    }
  }

  /** A body that is already in the file is not written again, so its write cannot fail either. */
  lemma UnchangedIsNotWritten(s: State, encode: Lists -> Option<Body>)
    requires Inv(s, encode) && s.writers != [] && s.writers[0].Holds? && encode(s.writers[0].snapshot).Some?
    requires s.file == encode(s.writers[0].snapshot)
    ensures var s' := Apply(s, Write(0, false), encode); s'.writers == [AtTop] && s'.file == s.file && !s'.missed
  {
  }

  const ROUND: seq<Step> := [Write(0, true), Record(0), Look(0)]

  function Round(s: State, encode: Lists -> Option<Body>): State {
    Apply(Apply(Apply(s, Write(0, true), encode), Record(0), encode), Look(0), encode)
  }

  predicate Saved(s: State, held: Lists, encode: Lists -> Option<Body>) {
    s.writers == [] && !s.dirty && s.held == held && s.file == encode(held)
  }

  predicate InHand(s: State, held: Lists) {
    |s.writers| == 1 && s.writers[0].Holds? && s.writers[0].snapshot == held && !s.dirty && s.held == held
  }

  /** Writing and recording leave the writer at the top, with nothing unsaved but what was unsaved before. */
  lemma Recorded(s: State, encode: Lists -> Option<Body>)
    requires Inv(s, encode) && s.writers != [] && encode(s.held).Some?
    ensures var s' := Apply(Apply(s, Write(0, true), encode), Record(0), encode);
      && Inv(s', encode) && s'.writers == [AtTop] && s'.held == s.held && s'.dirty == s.dirty
      && (!s.dirty && !s.writers[0].AtTop? ==> !s'.missed && s'.taken == Some(s.held))
  {
    StepKeeps(s, Write(0, true), encode);
    StepKeeps(Apply(s, Write(0, true), encode), Record(0), encode);
  }

  lemma FirstRound(s: State, encode: Lists -> Option<Body>)
    requires Inv(s, encode) && s.writers != [] && (s.dirty || !s.writers[0].AtTop?) && encode(s.held).Some?
    ensures Inv(Round(s, encode), encode) && (Saved(Round(s, encode), s.held, encode) || InHand(Round(s, encode), s.held))
  {
    Recorded(s, encode);
    StepKeeps(Apply(Apply(s, Write(0, true), encode), Record(0), encode), Look(0), encode);
  }

  lemma SecondRound(s: State, held: Lists, encode: Lists -> Option<Body>)
    requires Inv(s, encode) && encode(held).Some? && (Saved(s, held, encode) || InHand(s, held))
    ensures Saved(Round(s, encode), held, encode)
  {
  }

  /** Nobody retaining meanwhile, a writer with something unsaved, or a snapshot in hand, writes the lists held and stops. */
  lemma WriterGetsThere(s: State, encode: Lists -> Option<Body>)
    requires Inv(s, encode) && s.writers != [] && (s.dirty || !s.writers[0].AtTop?) && encode(s.held).Some?
    ensures var s' := Run(Run(s, ROUND, encode), ROUND, encode);
      s'.writers == [] && !s'.dirty && s'.held == s.held && s'.file == encode(s.held)
  {
    FirstRound(s, encode);
    SecondRound(Round(s, encode), s.held, encode);
    RunRound(s, encode);
    RunRound(Round(s, encode), encode);
  }

  lemma RunSnoc(s: State, steps: seq<Step>, step: Step, encode: Lists -> Option<Body>)
    ensures Run(s, steps + [step], encode) == Apply(Run(s, steps, encode), step, encode)
  {
    assert (steps + [step])[..|steps|] == steps;
  }

  lemma RunRound(s: State, encode: Lists -> Option<Body>)
    ensures Run(s, ROUND, encode) == Round(s, encode)
  {
    RunSnoc(s, [], Write(0, true), encode);
    RunSnoc(s, [] + [Write(0, true)], Record(0), encode);
    RunSnoc(s, [] + [Write(0, true)] + [Record(0)], Look(0), encode);
    assert [] + [Write(0, true)] + [Record(0)] + [Look(0)] == ROUND;
  }

  // ---------------------------------------------------------------- the store object

  class Store {
    var held: Lists
    var dirty: bool
    var writing: bool
    var closed: bool
    var lastWritten: Option<Body>
    var file: Option<Body>
    ghost var writers: seq<Writer>
    ghost var taken: Option<Lists>
    ghost var missed: bool
    const encode: Lists -> Option<Body>

    ghost function View(): State
      reads this
    {
      State(held, dirty, writing, closed, lastWritten, file, writers, taken, missed)
    }

    ghost predicate Valid()
      reads this
    {
      Inv(View(), encode)
    }

    constructor (held: Lists, file: Option<Body>, encode: Lists -> Option<Body>)
      ensures Valid() && View() == Loaded(held, file) && this.encode == encode
    {
      this.held, this.dirty, this.writing, this.closed, this.lastWritten, this.file := held, false, false, false, file, file;
      this.writers, this.taken, this.missed, this.encode := [], None, false, encode;
    }

    /** starts tells the caller to start the drain goroutine after releasing the mutex. */
    method ScheduleWrite() returns (starts: bool)
      modifies this`dirty, this`writing, this`writers
      ensures View() == Schedule(old(View())) && starts == (!old(closed) && !old(writing))
    {
      dirty := true;
      if closed || writing {
        return false;
      }
      writing := true;
      writers := writers + [AtTop];
      starts := true;
    }

    method RetainList(claude: nat) returns (starts: bool)
      requires Valid()
      modifies this
      ensures View() == Apply(old(View()), Retain(claude), encode) && Valid()
    {
      StepKeeps(View(), Retain(claude), encode);
      held := held.(claude := claude);
      starts := ScheduleWrite();
    }

    method RetainCodexList(codex: nat, empty: bool) returns (starts: bool)
      requires Valid()
      modifies this
      ensures View() == Apply(old(View()), RetainCodex(codex, empty), encode) && Valid()
    {
      StepKeeps(View(), RetainCodex(codex, empty), encode);
      if empty {
        return false;
      }
      held := held.(codex := codex);
      starts := ScheduleWrite();
    }

    method CloseStore()
      requires Valid()
      modifies this`closed
      ensures View() == Apply(old(View()), Close, encode) && Valid()
    {
      closed := true;
    }

    /** The drain loop, run without interference: it ends by itself, with nothing dirty and no writer. fails lists the
        iterations whose write fails. */
    method Drain(fails: set<nat>) returns (rounds: nat)
      requires Valid() && writing && writers[0].AtTop?
      modifies this`dirty, this`writing, this`lastWritten, this`file, this`writers, this`taken, this`missed
      ensures Valid() && !writing && !dirty && held == old(held)
      ensures taken.Some? && !missed ==> file.Some? && file == encode(held)
      ensures rounds <= 1
    {
      rounds := 0;
      while dirty
        invariant Valid() && writing && writers[0].AtTop? && held == old(held)
        invariant rounds <= (if dirty then 0 else 1)
        decreases dirty
      {
        DrainRound(rounds !in fails);
        rounds := rounds + 1;
      }
      StepKeeps(View(), Look(0), encode);
      writing := false;
      writers := Drop(writers, 0);
    }

    /** The first section of a round, with something dirty. */
    method TakeSnapshot() returns (snapshot: Lists, previous: Option<Body>)
      requires Valid() && dirty && writing && writers[0].AtTop?
      modifies this`dirty, this`writers, this`taken, this`missed
      ensures Valid() && View() == Apply(old(View()), Look(0), encode) && writers[0] == Holds(snapshot, previous)
    {
      StepKeeps(View(), Look(0), encode);
      snapshot, previous := held, lastWritten;
      dirty := false;
      writers, taken, missed := writers[0 := Holds(snapshot, previous)], Some(snapshot), false;
    }

    /** Outside the mutex; wrote tells whether there is something to record. */
    method WriteSnapshot(snapshot: Lists, previous: Option<Body>, written: bool) returns (wrote: Option<Body>)
      requires Valid() && writing && writers[0] == Holds(snapshot, previous)
      modifies this`file, this`writers, this`missed
      ensures Valid() && View() == Apply(old(View()), Write(0, written), encode)
      ensures if wrote.Some? then writers[0] == Wrote(snapshot, wrote.value) else writers[0] == AtTop
    {
      StepKeeps(View(), Write(0, written), encode);
      wrote := encode(snapshot);
      if wrote.None? || wrote == previous || !written {
        missed := if wrote.Some? && wrote == previous then missed else true;
        writers := writers[0 := AtTop];
        return None;
      }
      file := wrote;
      writers := writers[0 := Wrote(snapshot, wrote.value)];
    }

    /** One round: snapshot under the mutex, encode and write outside it, then record. */
    method DrainRound(written: bool)
      requires Valid() && dirty && writing && writers[0].AtTop?
      modifies this`dirty, this`lastWritten, this`file, this`writers, this`taken, this`missed
      ensures Valid() && !dirty && writing && writers[0].AtTop? && held == old(held)
    {
      var snapshot, previous := TakeSnapshot();
      var wrote := WriteSnapshot(snapshot, previous, written);
      if wrote.Some? {
        StepKeeps(View(), Record(0), encode);
        lastWritten := wrote;
        writers := writers[0 := AtTop];
      }
    }
  }
}
