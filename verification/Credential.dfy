/** Replacing the file-backed credential: a directory of token files and one selection file, changed one file operation
    at a time under the directory lock. Any operation may fail and the process may die between any two. */
module Credential {
  import opened Common

  /** Generations and references are minted ids; 0 is none. */
  datatype Selection = Selection(reference: nat, generation: nat)

  datatype Name = TokenFile(generation: nat) | StagedFile(generation: nat) | SelectionFile

  /** Partial is whatever an interrupted write left. */
  datatype Content = Partial | Token(token: seq<char>) | Chosen(selection: Selection)

  type Directory = map<Name, Content>

  // ---------------------------------------------------------------- reading

  datatype Read = Nothing | Found(reference: nat, token: seq<char>) | Broken

  /** memorySelected for the file backend: the selection must name a token file that holds a whole token. */
  function Select(dir: Directory): Read {
    if SelectionFile !in dir then Nothing
    else if !dir[SelectionFile].Chosen? then Broken
    else
      var selection := dir[SelectionFile].selection;
      var file := TokenFile(selection.generation);
      if file in dir && dir[file].Token? then Found(selection.reference, dir[file].token) else Broken
  }

  // ---------------------------------------------------------------- one replacement, operation by operation

  datatype Stage = Started | TokenOpen | TokenWritten | StagedOpen | StagedWritten | Committed

  /** The replacement that holds the directory lock. replaced is the generation it found selected, 0 if none. */
  datatype Job = Job(stage: Stage, token: seq<char>, selection: Selection, replaced: nat)

  /** used are the generations minted so far; committed is the credential whose selection was last put in place. */
  datatype State = State(dir: Directory, job: Option<Job>, used: set<nat>, committed: Read)

  const INITIAL: State := State(map[], None, {}, Nothing)

  datatype Step =
    | Begin(token: seq<char>, generation: nat, reference: nat)
    | Advance                                      // the next file operation succeeds
    | Fail(tokenStays: bool, stagedStays: bool)    // it fails; each clean-up of the attempt may fail too
    | Clean(oldStays: bool)                        // after the commit the replaced token is removed, best effort
    | Crash

  function Start(s: State, token: seq<char>, generation: nat, reference: nat): State {
    var now := Select(s.dir);
    if s.job.Some? || generation in s.used || generation == 0 || reference == 0 || now.Broken? then s
    else
      var replaced := if now.Found? then s.dir[SelectionFile].selection.generation else 0;
      var kept := if now.Found? then now.reference else reference;
      s.(job := Some(Job(Started, token, Selection(kept, generation), replaced)), used := s.used + {generation})
  }

  /** One file operation of the replacement. Creation is exclusive, the rename is atomic. */
  function Operate(s: State, job: Job): State {
    var generation := job.selection.generation;
    match job.stage
    case Started => s.(dir := s.dir[TokenFile(generation) := Partial], job := Some(job.(stage := TokenOpen)))
    case TokenOpen => s.(dir := s.dir[TokenFile(generation) := Token(job.token)], job := Some(job.(stage := TokenWritten)))
    case TokenWritten => s.(dir := s.dir[StagedFile(generation) := Partial], job := Some(job.(stage := StagedOpen)))
    case StagedOpen => s.(dir := s.dir[StagedFile(generation) := Chosen(job.selection)], job := Some(job.(stage := StagedWritten)))
    case StagedWritten =>
      s.(dir := s.dir[SelectionFile := Chosen(job.selection)] - {StagedFile(generation)},
         job := Some(job.(stage := Committed)), committed := Found(job.selection.reference, job.token))
    case Committed => s
  }

  function Undo(s: State, job: Job, tokenStays: bool, stagedStays: bool): State {
    var generation := job.selection.generation;
    var dir := if stagedStays then s.dir else s.dir - {StagedFile(generation)};
    s.(dir := if tokenStays then dir else dir - {TokenFile(generation)}, job := None)
  }

  function Apply(s: State, step: Step): State {
    match step
    case Begin(token, generation, reference) => Start(s, token, generation, reference)
    case Advance => if s.job.Some? then Operate(s, s.job.value) else s
    case Fail(tokenStays, stagedStays) =>
      if s.job.Some? && s.job.value.stage != Committed then Undo(s, s.job.value, tokenStays, stagedStays) else s
    case Clean(oldStays) =>
      if s.job.Some? && s.job.value.stage == Committed then
        s.(dir := if oldStays || s.job.value.replaced == 0 then s.dir else s.dir - {TokenFile(s.job.value.replaced)}, job := None)
      else s
    case Crash => s.(job := None)
  }

  function RunFrom(s: State, steps: seq<Step>): State {
    if steps == [] then s else Apply(RunFrom(s, steps[..|steps| - 1]), steps[|steps| - 1])
  }

  function Run(steps: seq<Step>): State {
    RunFrom(INITIAL, steps)
  }

  lemma RunOneMore(s: State, steps: seq<Step>, step: Step)
    ensures RunFrom(s, steps + [step]) == Apply(RunFrom(s, steps), step)
  {
    assert (steps + [step])[..|steps|] == steps;
  }

  // ---------------------------------------------------------------- invariant

  function GenerationOf(name: Name): nat {
    match name
    case TokenFile(g) => g
    case StagedFile(g) => g
    case SelectionFile => 0
  }

  predicate Selects(dir: Directory, generation: nat) {
    SelectionFile in dir && dir[SelectionFile].Chosen? && dir[SelectionFile].selection.generation == generation
  }

  /** What the stage says about the replacement's own files. */
  predicate JobOk(s: State, job: Job) {
    var generation := job.selection.generation;
    && generation in s.used && generation != 0 && job.replaced != generation && job.selection.reference != 0
    && (job.stage != Committed ==> !Selects(s.dir, generation))
    && (job.stage != Committed && s.committed.Found? ==> job.selection.reference == s.committed.reference)
    && (job.stage in {TokenWritten, StagedOpen, StagedWritten} ==>
          TokenFile(generation) in s.dir && s.dir[TokenFile(generation)] == Token(job.token))
    && (job.stage == Committed ==> SelectionFile in s.dir && s.dir[SelectionFile] == Chosen(job.selection))
  }

  /** Reading gives exactly the credential last committed, and every file belongs to a minted generation. */
  ghost predicate Inv(s: State) {
    && Select(s.dir) == s.committed && !s.committed.Broken?
    && (s.committed.Found? ==> s.committed.reference != 0) && 0 !in s.used
    && (forall name :: name in s.dir ==> name == SelectionFile || GenerationOf(name) in s.used)
    && (SelectionFile in s.dir ==> s.dir[SelectionFile].Chosen? && s.dir[SelectionFile].selection.generation in s.used)
    && (s.job.Some? ==> JobOk(s, s.job.value))
  }

  /** Files of a generation that is not selected do not affect what is read. */
  lemma ElsewhereUnread(dir: Directory, dir': Directory, generation: nat)
    requires !Selects(dir, generation)
    requires forall name :: name == SelectionFile || GenerationOf(name) != generation ==>
      (name in dir' <==> name in dir) && (name in dir ==> dir'[name] == dir[name])
    ensures Select(dir') == Select(dir)
  {
    assert SelectionFile in dir' <==> SelectionFile in dir;
    if SelectionFile in dir && dir[SelectionFile].Chosen? {
      var file := TokenFile(dir[SelectionFile].selection.generation);
      assert GenerationOf(file) != generation;
      assert file in dir' <==> file in dir;
    }
  }

  lemma StartKeeps(s: State, token: seq<char>, generation: nat, reference: nat)
    requires Inv(s)
    ensures Inv(Start(s, token, generation, reference))
  {
  }

  lemma OperateKeeps(s: State)
    requires Inv(s) && s.job.Some?
    ensures Inv(Operate(s, s.job.value))
  {
    var job := s.job.value;
    var s' := Operate(s, job);
    if job.stage != StagedWritten && job.stage != Committed {
      ElsewhereUnread(s.dir, s'.dir, job.selection.generation);
    }
  }

  lemma UndoKeeps(s: State, tokenStays: bool, stagedStays: bool)
    requires Inv(s) && s.job.Some? && s.job.value.stage != Committed
    ensures Inv(Undo(s, s.job.value, tokenStays, stagedStays))
  {
    ElsewhereUnread(s.dir, Undo(s, s.job.value, tokenStays, stagedStays).dir, s.job.value.selection.generation);
  }

  lemma CleanKeeps(s: State, oldStays: bool)
    requires Inv(s)
    ensures Inv(Apply(s, Clean(oldStays)))
  {
    var s' := Apply(s, Clean(oldStays));
    if s.job.Some? && s.job.value.stage == Committed && s.job.value.replaced != 0 {
      ElsewhereUnread(s.dir, s'.dir, s.job.value.replaced);
    }
  }

  lemma StepKeeps(s: State, step: Step)
    requires Inv(s)
    ensures Inv(Apply(s, step))
    ensures s.committed.Found? ==> Apply(s, step).committed.Found? && Apply(s, step).committed.reference == s.committed.reference
  {
    match step {
      case Begin(token, generation, reference) => StartKeeps(s, token, generation, reference);
      case Advance =>
        if s.job.Some? {
          OperateKeeps(s);
        }
      case Fail(tokenStays, stagedStays) =>
        if s.job.Some? && s.job.value.stage != Committed {
          UndoKeeps(s, tokenStays, stagedStays);
        }
      case Clean(oldStays) => CleanKeeps(s, oldStays);
      case Crash =>
    }
  }

  lemma {:induction false} RunKeeps(steps: seq<Step>)
    ensures Inv(Run(steps))
  {
    if steps != [] {
      RunKeeps(steps[..|steps| - 1]);
      StepKeeps(Run(steps[..|steps| - 1]), steps[|steps| - 1]);
    }
  }

  // ---------------------------------------------------------------- theorems over every run

  /** After any failures and crashes, at whatever operation, the directory reads as the credential last committed: the
      selection names a token file that holds that whole token. */
  lemma SelectionIsAlwaysWhole(steps: seq<Step>)
    ensures var s := Run(steps); Select(s.dir) == s.committed && !Select(s.dir).Broken?
  {
    RunKeeps(steps);
  }

  /** Every single operation leaves the selected credential as it was, or puts the whole new one in its place; only the
      rename does that, and the reference stays. */
  lemma OldOrNew(s: State, step: Step)
    requires Inv(s)
    ensures var s' := Apply(s, step);
      && (Select(s'.dir) == Select(s.dir)
          || (step.Advance? && s.job.Some? && s.job.value.stage == StagedWritten
              && Select(s'.dir) == Found(s.job.value.selection.reference, s.job.value.token)))
      && (Select(s.dir).Found? ==> Select(s'.dir).Found? && Select(s'.dir).reference == Select(s.dir).reference)
  {
    StepKeeps(s, step);
  }

  /** Once set, the reference never changes, whatever is replaced, fails or crashes. */
  lemma {:induction false} ReferenceIsKept(steps: seq<Step>, more: seq<Step>)
    requires Run(steps).committed.Found?
    ensures Run(steps + more).committed.Found? && Run(steps + more).committed.reference == Run(steps).committed.reference
  {
    if more == [] {
      assert steps + more == steps;
    } else {
      var n := |more| - 1;
      ReferenceIsKept(steps, more[..n]);
      assert (steps + more)[..|steps + more| - 1] == steps + more[..n];
      RunKeeps(steps + more[..n]);
      StepKeeps(Run(steps + more[..n]), more[n]);
    }
  }

  // ---------------------------------------------------------------- set

  /** The operations of one replacement that fail, by name. */
  datatype Faults = Faults(
    tokenOpen: bool, tokenWrite: bool, stagedOpen: bool, stagedWrite: bool, rename: bool, unlinkToken: bool, unlinkStaged: bool, unlinkOld: bool)

  predicate Succeeds(f: Faults) {
    !f.tokenOpen && !f.tokenWrite && !f.stagedOpen && !f.stagedWrite && !f.rename
  }

  /** The steps of writing one file: its creation and its content. */
  function Writing(open: bool, write: bool, failed: Step): seq<Step> {
    if open then [failed] else if write then [Advance, failed] else [Advance, Advance]
  }

  /** The rename, and after it the removal of the replaced token. */
  function Committing(rename: bool, failed: Step, oldStays: bool): seq<Step> {
    if rename then [failed] else [Advance, Clean(oldStays)]
  }

  /** The steps of one replacement under these failures. */
  function Script(token: seq<char>, generation: nat, reference: nat, f: Faults): seq<Step> {
    var failed := Fail(f.unlinkToken, f.unlinkStaged);
    [Begin(token, generation, reference)] + Writing(f.tokenOpen, f.tokenWrite, failed)
    + (if f.tokenOpen || f.tokenWrite then [] else Writing(f.stagedOpen, f.stagedWrite, failed))
    + if f.tokenOpen || f.tokenWrite || f.stagedOpen || f.stagedWrite then [] else Committing(f.rename, failed, f.unlinkOld)
  }

  function Next(stage: Stage): Stage {
    match stage
    case Started => TokenOpen
    case TokenOpen => TokenWritten
    case TokenWritten => StagedOpen
    case StagedOpen => StagedWritten
    case StagedWritten => Committed
    case Committed => Committed
  }

  /** The attempt's end leaves none of its files behind, unless a removal fails; nothing else is touched. */
  lemma FailedLeavesNothing(s: State)
    requires Inv(s) && s.job.Some? && s.job.value.stage != Committed
    ensures var s' := Apply(s, Fail(false, false));
      var g := s.job.value.selection.generation;
      && s'.job.None? && TokenFile(g) !in s'.dir && StagedFile(g) !in s'.dir
      && forall name :: name == SelectionFile || GenerationOf(name) != g ==>
           (name in s'.dir <==> name in s.dir) && (name in s.dir ==> s'.dir[name] == s.dir[name])
  {
  }

  /** A committed replacement removes the token it replaced, unless that fails, and no other file. */
  lemma CommittedRemovesOld(s: State)
    requires Inv(s) && s.job.Some? && s.job.value.stage == Committed
    ensures var s' := Apply(s, Clean(false));
      && s'.job.None?
      && (s.job.value.replaced != 0 ==> TokenFile(s.job.value.replaced) !in s'.dir)
      && forall name :: name != TokenFile(s.job.value.replaced) ==>
           (name in s'.dir <==> name in s.dir) && (name in s.dir ==> s'.dir[name] == s.dir[name])
  {
    assert 0 !in s.used;
    assert TokenFile(0) in s.dir ==> GenerationOf(TokenFile(0)) in s.used;
  }

  /** A replacement begins whenever none is in flight and what is selected can be read; it keeps the reference that is
      selected and notes the generation it will replace. */
  lemma BeginsIff(s: State, token: seq<char>, generation: nat, reference: nat)
    requires Inv(s) && generation != 0 && reference != 0 && generation !in s.used
    ensures var s' := Apply(s, Begin(token, generation, reference));
      && s'.dir == s.dir
      && (s.job.Some? ==> s' == s)
      && (s.job.None? ==>
            && s'.job.Some? && s'.job.value.stage == Started && s'.job.value.token == token && s'.job.value.selection.generation == generation
            && s'.job.value.selection.reference == (if Select(s.dir).Found? then Select(s.dir).reference else reference)
            && (if Select(s.dir).Found? then Selects(s.dir, s'.job.value.replaced) else s'.job.value.replaced == 0))
  {
  }

  class Store {
    var dir: Directory
    var job: Option<Job>
    ghost var used: set<nat>
    ghost var committed: Read

    ghost function View(): State
      reads this
    {
      State(dir, job, used, committed)
    }

    ghost predicate Valid()
      reads this
    {
      Inv(View())
    }

    constructor ()
      ensures Valid() && View() == INITIAL
    {
      dir, job, used, committed := map[], None, {}, Nothing;
    }

    /** One file operation of the replacement, as its stage asks: the exclusive creation and the writing of either file,
        or the rename. */
    method Perform()
      requires Valid() && job.Some? && job.value.stage != Committed
      modifies this
      ensures Valid() && View() == Apply(old(View()), Advance)
      ensures job == Some(old(job).value.(stage := Next(old(job).value.stage)))
      ensures committed == if old(job).value.stage != StagedWritten then old(committed)
        else Found(old(job).value.selection.reference, old(job).value.token)
    {
      StepKeeps(View(), Advance);
      var generation := job.value.selection.generation;
      match job.value.stage {
        case Started =>
          dir := dir[TokenFile(generation) := Partial];
          job := Some(job.value.(stage := TokenOpen));
        case TokenOpen =>
          dir := dir[TokenFile(generation) := Token(job.value.token)];
          job := Some(job.value.(stage := TokenWritten));
        case TokenWritten =>
          dir := dir[StagedFile(generation) := Partial];
          job := Some(job.value.(stage := StagedOpen));
        case StagedOpen =>
          dir := dir[StagedFile(generation) := Chosen(job.value.selection)];
          job := Some(job.value.(stage := StagedWritten));
        case StagedWritten =>
          dir := dir[SelectionFile := Chosen(job.value.selection)] - {StagedFile(generation)};
          committed := Found(job.value.selection.reference, job.value.token);
          job := Some(job.value.(stage := Committed));
      }
    }

    /** The attempt's own files, as far as they can be removed. */
    method Discard(tokenStays: bool, stagedStays: bool)
      requires Valid() && job.Some? && job.value.stage != Committed
      modifies this
      ensures Valid() && View() == Apply(old(View()), Fail(tokenStays, stagedStays))
      ensures job.None? && committed == old(committed)
    {
      StepKeeps(View(), Fail(tokenStays, stagedStays));
      var generation := job.value.selection.generation;
      if !stagedStays {
        dir := dir - {StagedFile(generation)};
      }
      if !tokenStays {
        dir := dir - {TokenFile(generation)};
      }
      job := None;
    }

    /** Reads what is selected and settles the reference and the new generation. */
    method Prepare(token: seq<char>, generation: nat, reference: nat)
      requires Valid() && job.None? && generation != 0 && generation !in used && reference != 0
      modifies this`job, this`used
      ensures Valid() && View() == Apply(old(View()), Begin(token, generation, reference)) && job.Some?
    {
      StepKeeps(View(), Begin(token, generation, reference));
      var now := Select(dir);
      var replaced := if now.Found? then dir[SelectionFile].selection.generation else 0;
      var kept := if now.Found? then now.reference else reference;
      job := Some(Job(Started, token, Selection(kept, generation), replaced));
      used := used + {generation};
    }

    method CleanUp(oldStays: bool)
      requires Valid() && job.Some? && job.value.stage == Committed
      modifies this`dir, this`job
      ensures Valid() && View() == Apply(old(View()), Clean(oldStays))
    {
      StepKeeps(View(), Clean(oldStays));
      if !oldStays && job.value.replaced != 0 {
        dir := dir - {TokenFile(job.value.replaced)};
      }
      job := None;
    }

    /** The next operation, or the end of the attempt, behind the steps done since s. */
    method Try(fails: bool, failed: Step, ghost s: State, ghost done: seq<Step>) returns (ghost steps: seq<Step>)
      requires Valid() && job.Some? && job.value.stage != Committed && failed.Fail? && View() == RunFrom(s, done)
      modifies this
      ensures Valid() && View() == RunFrom(s, steps) && steps == done + [if fails then failed else Advance]
      ensures job == if fails then None else Some(old(job).value.(stage := Next(old(job).value.stage)))
      ensures committed == if fails || old(job).value.stage != StagedWritten then old(committed)
        else Found(old(job).value.selection.reference, old(job).value.token)
    {
      if fails {
        RunOneMore(s, done, failed);
        Discard(failed.tokenStays, failed.stagedStays);
        steps := done + [failed];
      } else {
        RunOneMore(s, done, Advance);
        Perform();
        steps := done + [Advance];
      }
    }

    /** Exclusive creation, then the content; a failure of either ends the attempt. */
    method WriteFile(open: bool, write: bool, failed: Step, ghost s: State, ghost done: seq<Step>) returns (ghost steps: seq<Step>)
      requires Valid() && job.Some? && job.value.stage in {Started, TokenWritten} && failed.Fail? && View() == RunFrom(s, done)
      modifies this
      ensures Valid() && View() == RunFrom(s, steps) && steps == done + Writing(open, write, failed)
      ensures job == if open || write then None else Some(old(job).value.(stage := Next(Next(old(job).value.stage))))
      ensures committed == old(committed)
    {
      steps := Try(open, failed, s, done);
      if !open {
        steps := Try(write, failed, s, steps);
      }
    }

    method Commit(rename: bool, failed: Step, oldStays: bool, ghost s: State, ghost done: seq<Step>) returns (ghost steps: seq<Step>)
      requires Valid() && job.Some? && job.value.stage == StagedWritten && failed.Fail? && View() == RunFrom(s, done)
      modifies this
      ensures Valid() && job.None? && View() == RunFrom(s, steps) && steps == done + Committing(rename, failed, oldStays)
      ensures committed == if rename then old(committed) else Found(old(job).value.selection.reference, old(job).value.token)
    {
      steps := Try(rename, failed, s, done);
      if !rename {
        CleanUp(oldStays);
        RunOneMore(s, steps, Clean(oldStays));
        steps := steps + [Clean(oldStays)];
      }
    }

    /** Replaces the credential. It takes the steps of the script one by one, so every directory on the way is that of a
        prefix of the script, and the theorems over all runs hold of each. */
    method Set(token: seq<char>, generation: nat, reference: nat, faults: Faults) returns (result: Option<nat>, ghost steps: seq<Step>)
      requires Valid() && job.None? && generation != 0 && generation !in used && reference != 0
      modifies this
      ensures Valid() && job.None?
      ensures View() == RunFrom(old(View()), steps) && steps == Script(token, generation, reference, faults)
      ensures result.Some? <==> Succeeds(faults)
      ensures result.None? ==> Select(dir) == old(Select(dir))
      ensures result.Some? ==> Select(dir) == Found(result.value, token)
      ensures result.Some? ==> result.value == if old(Select(dir)).Found? then old(Select(dir)).reference else reference
    {
      ghost var s := View();
      Prepare(token, generation, reference);
      result := None;
      var kept := job.value.selection.reference;
      var failed := Fail(faults.unlinkToken, faults.unlinkStaged);
      steps := [Begin(token, generation, reference)];
      assert RunFrom(s, steps[..0]) == s;
      steps := WriteFile(faults.tokenOpen, faults.tokenWrite, failed, s, steps);
      if faults.tokenOpen || faults.tokenWrite { return; }
      steps := WriteFile(faults.stagedOpen, faults.stagedWrite, failed, s, steps);
      if faults.stagedOpen || faults.stagedWrite { return; }
      steps := Commit(faults.rename, failed, faults.unlinkOld, s, steps);
      if !faults.rename {
        result := Some(kept);
      }
    }
  }
}
