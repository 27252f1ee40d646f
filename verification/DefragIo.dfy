/** The lock protocol between the main thread, which freezes, thaws and rebinds
    jobs, and the background threads that write cpusets after a defragmentation.
    One state per moment between two atomic steps; every interleaving is a run. */
module DefragIo {

  datatype Purpose = WriteCgroup | StartDefrag

  datatype MainAt =
    | Idle
    | Locking(purpose: Purpose)               // cgroup_io_wait_if_busy: before the lock
    | Checking(purpose: Purpose)              // holds the mutex, looks at the flag
    | Sleeping(purpose: Purpose)              // in pthread_cond_timedwait
    | Waking(purpose: Purpose, late: bool)    // woken or timed out, needs the mutex back
    | Writing                                 // freeze, thaw or cpuset write, mutex free
    | Marking                                 // before the lock that sets the flag
    | Marked                                  // flag set, still holds the mutex
    | Spawning                                // before pthread_create
    | SpawnFailed                             // before the lock that clears the flag

  datatype IoAt = Started | InSection | Finished

  datatype Holder = Nobody | MainThread | IoThread(i: nat)

  /** `cut` counts the waits that timed out while a background thread had not finished. */
  datatype State = State(main: MainAt, busy: bool, holder: Holder, io: seq<IoAt>, cut: nat)

  ghost predicate Init(s: State) {
    s == State(Idle, false, Nobody, [], 0)
  }

  ghost predicate AllFinished(s: State) {
    forall i :: 0 <= i < |s.io| ==> s.io[i] == Finished
  }

  /** One step of the main thread. */
  ghost predicate MainStep(s: State, s': State) {
    match s.main
    case Idle => exists p :: s' == s.(main := Locking(p))
    case Locking(p) =>
      s.holder == Nobody && s' == s.(main := Checking(p), holder := MainThread)
    case Checking(p) =>
      if s.busy then s' == s.(main := Sleeping(p), holder := Nobody)
      else s' == s.(main := if p == WriteCgroup then Writing else Marking, holder := Nobody)
    case Sleeping(p) =>
      exists late :: s' == s.(main := Waking(p, late))
    case Waking(p, late) =>
      && s.holder == Nobody
      && s' == if late then s.(main := Checking(p), holder := MainThread, busy := false, cut := if AllFinished(s) then s.cut else s.cut + 1)
               else s.(main := Checking(p), holder := MainThread)
    case Writing => s' == s.(main := Idle)
    case Marking =>
      s.holder == Nobody && s' == s.(main := Marked, holder := MainThread, busy := true)
    case Marked => s' == s.(main := Spawning, holder := Nobody)
    case Spawning => s' == s.(main := Idle, io := s.io + [Started]) || s' == s.(main := SpawnFailed)
    case SpawnFailed => s.holder == Nobody && s' == s.(main := Idle, busy := false)
  }

  /** One step of the i-th background thread. */
  ghost predicate IoStep(s: State, s': State, i: nat) {
    && i < |s.io|
    && match s.io[i]
       case Started =>
         s.holder == Nobody && s' == s.(io := s.io[i := InSection], holder := IoThread(i))
       case InSection =>
         s' == s.(io := s.io[i := Finished], holder := Nobody, busy := false)
       case Finished => false
  }

  ghost predicate Next(s: State, s': State) {
    MainStep(s, s') || exists i :: IoStep(s, s', i)
  }

  ghost predicate IsRun(run: seq<State>) {
    && |run| > 0 && Init(run[0])
    && forall k :: 0 <= k < |run| - 1 ==> Next(run[k], run[k + 1])
  }

  /** The mutex is held by whoever is in a locked region. */
  ghost predicate Locked(s: State) {
    && (forall i :: 0 <= i < |s.io| ==> (s.io[i] == InSection <==> s.holder == IoThread(i)))
    && (s.holder.IoThread? ==> s.holder.i < |s.io|)
    && (s.main.Checking? || s.main == Marked <==> s.holder == MainThread)
  }

  ghost predicate Handover(m: MainAt) {
    m == Marked || m == Spawning || m == SpawnFailed
  }

  /** While the flag is set, some thread that will clear it is on its way. */
  ghost predicate FlagHasOwner(s: State) {
    s.busy ==> Handover(s.main) || (|s.io| > 0 && s.io[|s.io| - 1] != Finished)
  }

  /** Unless a wait was cut short: the flag covers every unfinished background thread, and
      the main thread writes only while it is clear. */
  ghost predicate Covered(s: State) {
    && (!s.busy ==> forall i :: 0 <= i < |s.io| ==> s.io[i] == Finished)
    && (s.main == Writing || s.main == Marking ==> !s.busy)
    && (Handover(s.main) ==> s.busy && forall i :: 0 <= i < |s.io| ==> s.io[i] == Finished)
    && (forall i :: 0 <= i < |s.io| - 1 ==> s.io[i] == Finished)
  }

  lemma LockedStep(s: State, s': State)
    requires Locked(s) && Next(s, s')
    ensures Locked(s')
  {
    if !MainStep(s, s') {
      var i :| IoStep(s, s', i);
    }
  }

  lemma FlagStep(s: State, s': State)
    requires FlagHasOwner(s) && Next(s, s')
    ensures FlagHasOwner(s')
  {
    if !MainStep(s, s') {
      var i :| IoStep(s, s', i);
    }
  }

  lemma CoveredStep(s: State, s': State)
    requires Covered(s) && Next(s, s') && s'.cut == s.cut
    ensures Covered(s')
  {
    if !MainStep(s, s') {
      var i :| IoStep(s, s', i);
      assert i == |s.io| - 1;
    }
  }

  lemma CutsGrow(s: State, s': State)
    requires Next(s, s')
    ensures s.cut <= s'.cut
  {
    if !MainStep(s, s') {
      var i :| IoStep(s, s', i);
    }
  }

  /** What holds after every prefix of every run. */
  lemma {:induction false} RunInvariant(run: seq<State>, k: nat)
    requires IsRun(run) && k < |run|
    ensures Locked(run[k]) && FlagHasOwner(run[k])
    ensures run[k].cut == 0 ==> Covered(run[k])
  {
    if k > 0 {
      RunInvariant(run, k - 1);
      assert Next(run[k - 1], run[k - 1 + 1]);
      LockedStep(run[k - 1], run[k]);
      FlagStep(run[k - 1], run[k]);
      CutsGrow(run[k - 1], run[k]);
      if run[k].cut == 0 {
        CoveredStep(run[k - 1], run[k]);
      }
    }
  }

  /** In every interleaving in which no wait has timed out while a background thread
      was unfinished, the main thread never writes before all of them are done with
      their freeze, cpuset writes and thaw. Other timeouts do no harm. */
  lemma NoOverlap(run: seq<State>, k: nat, i: nat)
    requires IsRun(run) && k < |run| && run[k].cut == 0 && i < |run[k].io|
    ensures !(run[k].main == Writing && run[k].io[i] != Finished)
  {
    RunInvariant(run, k);
  }

  /** Even with timeouts at most one background thread is in its section. */
  lemma OneInSection(run: seq<State>, k: nat, i: nat, j: nat)
    requires IsRun(run) && k < |run| && i < |run[k].io| && j < |run[k].io|
    requires run[k].io[i] == InSection && run[k].io[j] == InSection
    ensures i == j
  {
    RunInvariant(run, k);
  }

  /** The flag never stays set for good: with every background thread finished
      and the main thread not handing over to a new one, it is clear. */
  lemma FlagIsCleared(run: seq<State>, k: nat)
    requires IsRun(run) && k < |run| && !Handover(run[k].main)
    requires forall i :: 0 <= i < |run[k].io| ==> run[k].io[i] == Finished
    ensures !run[k].busy
  {
    RunInvariant(run, k);
  }

  lemma Extend(run: seq<State>, s: State) returns (run': seq<State>)
    requires IsRun(run) && Next(run[|run| - 1], s)
    ensures IsRun(run') && run' == run + [s]
  {
    run' := run + [s];
    forall k | 0 <= k < |run'| - 1
      ensures Next(run'[k], run'[k + 1])
    {
      if k < |run| - 1 {
        assert run'[k] == run[k] && run'[k + 1] == run[k + 1];
      }
    }
  }

  /** A defragmentation up to the point where its thread has just been spawned. */
  lemma SpawnedRun() returns (run: seq<State>)
    ensures IsRun(run) && run[|run| - 1] == State(Idle, true, Nobody, [Started], 0)
  {
    hide IsRun;
    var s0 := State(Idle, false, Nobody, [], 0);
    run := FirstState(s0);
    run := Extend(run, s0.(main := Locking(StartDefrag)));
    run := Extend(run, s0.(main := Checking(StartDefrag), holder := MainThread));
    run := Extend(run, s0.(main := Marking));
    run := Extend(run, State(Marked, true, MainThread, [], 0));
    run := Extend(run, State(Spawning, true, Nobody, [], 0));
    assert [] + [Started] == [Started];
    run := Extend(run, State(Idle, true, Nobody, [Started], 0));
  }

  lemma FirstState(s: State) returns (run: seq<State>)
    requires Init(s)
    ensures IsRun(run) && run[|run| - 1] == s
  {
    run := [s];
  }

  lemma CutIsLate(a: State, s: State)
    requires Next(a, s) && s.cut != a.cut
    ensures a.main.Waking? && a.holder == Nobody && !AllFinished(a)
    ensures s == a.(main := Checking(a.main.purpose), holder := MainThread, busy := false, cut := a.cut + 1)
  {
    assert MainStep(a, s);
  }

  /** A defragmentation whose thread cannot be created, and a write that follows. */
  lemma FailedDefrag(run: seq<State>) returns (run': seq<State>)
    requires IsRun(run) && run[|run| - 1].main == Checking(StartDefrag) && !run[|run| - 1].busy
    ensures IsRun(run') && |run| <= |run'| && run'[..|run|] == run
    ensures run'[|run'| - 1] == run[|run| - 1].(main := Checking(WriteCgroup), holder := MainThread)
  {
    var s := run[|run| - 1];
    hide IsRun;
    run' := Extend(run, s.(main := Marking, holder := Nobody));
    run' := Extend(run', s.(main := Marked, holder := MainThread, busy := true));
    run' := Extend(run', s.(main := Spawning, holder := Nobody, busy := true));
    run' := Extend(run', s.(main := SpawnFailed, holder := Nobody, busy := true));
    run' := Extend(run', s.(main := Idle, holder := Nobody));
    run' := Extend(run', s.(main := Locking(WriteCgroup), holder := Nobody));
    run' := Extend(run', s.(main := Checking(WriteCgroup), holder := MainThread));
  }

  /** Any wait that is cut short over an unfinished background thread can be followed
      by an overlap: after the step from the last state of `run` to `s`, the main
      thread can come to write while that thread is in its section. */
  lemma CutAllowsOverlap(run: seq<State>, s: State) returns (more: seq<State>, i: nat)
    requires IsRun(run) && Next(run[|run| - 1], s) && s.cut != run[|run| - 1].cut
    ensures IsRun(run + [s] + more) && more != []
    ensures var last := more[|more| - 1]; last.main == Writing && i < |last.io| && last.io[i] == InSection
  {
    var a := run[|run| - 1];
    CutsGrow(a, s);
    CutIsLate(a, s);
    var p := a.main.purpose;
    i :| 0 <= i < |a.io| && a.io[i] != Finished;
    RunInvariant(run, |run| - 1);
    assert a.io[i] == Started;
    hide IsRun;
    var go := Extend(run, s);
    var whole := go;
    if p == StartDefrag {
      whole := FailedDefrag(whole);
    }
    var t := whole[|whole| - 1];
    whole := Extend(whole, t.(main := Writing, holder := Nobody));
    var u := t.(main := Writing, holder := Nobody);
    assert IoStep(u, u.(io := u.io[i := InSection], holder := IoThread(i)), i);
    whole := Extend(whole, u.(io := u.io[i := InSection], holder := IoThread(i)));
    more := whole[|run| + 1..];
    assert run + [s] + more == whole;
  }

  /** A wait that gives up after its timeout can let the main thread write in the
      middle of a background section: the run that shows it. */
  lemma TimeoutAllowsOverlap() returns (run: seq<State>)
    ensures IsRun(run)
    ensures run[|run| - 1] == State(Writing, false, IoThread(0), [InSection], 1)
  {
    hide IsRun;
    run := SpawnedRun();
    run := Extend(run, State(Locking(WriteCgroup), true, Nobody, [Started], 0));
    run := Extend(run, State(Checking(WriteCgroup), true, MainThread, [Started], 0));
    run := Extend(run, State(Sleeping(WriteCgroup), true, Nobody, [Started], 0));
    run := Extend(run, State(Waking(WriteCgroup, true), true, Nobody, [Started], 0));
    assert run[|run| - 1].io[0] == Started && !AllFinished(run[|run| - 1]);
    run := Extend(run, State(Checking(WriteCgroup), false, MainThread, [Started], 1));
    run := Extend(run, State(Writing, false, Nobody, [Started], 1));
    var s, s' := State(Writing, false, Nobody, [Started], 1), State(Writing, false, IoThread(0), [InSection], 1);
    assert s.io[0 := InSection] == [InSection] && IoStep(s, s', 0);
    run := Extend(run, s');
  }
}
