/**
 What the evaluator's properties mean for the watch-state files: through every crash and
 interleaving, a file only ever goes from a state to the evaluator's next state for some
 observation of that directory.
 */
module HostWatchState {

  import opened Options
  import opened HostProtocol
  import HostSafety
  import Watch

  /** The state a process is going to save. */
  function NextOf(pc: Pc): Option<Watch.State> {
    match pc
    case Locked(_) => None
    case SavingUnknown(_, _, _) => None
    case Finished(_) => None
    case Consuming(_) => None
    case Spent => None
    case Typed(_, _, n, _) => Some(n)
    case SavingWatch(_, n) => Some(n)
    case _ => Some(pc.task.next)
  }

  /** The state n is the evaluator's answer to some observation of the state now on disk. */
  ghost predicate IsNext(w: World, d: Dir, n: Watch.State) {
    exists o :: DirOf(o) == d && Watch.Step(FilesOf(w, d).watch, o) == n
  }

  ghost predicate PendingOk(w: World, pc: Pc) {
    NextOf(pc).Some? ==> LockOf(pc).Some? && IsNext(w, LockOf(pc).value, NextOf(pc).value)
  }

  /** The file is a run of the evaluator from the empty state. */
  ghost predicate FileOk(w: World, d: Dir) {
    exists os :: (forall i :: 0 <= i < |os| ==> DirOf(os[i]) == d) && FilesOf(w, d).watch == Watch.Run(Watch.EMPTY, os)
  }

  ghost predicate WatchInv(s: System) {
    && (forall p :: p in s.at ==> PendingOk(s.world, s.at[p]))
    && (forall d :: FileOk(s.world, d))
  }

  lemma {:induction false} ActLeavesWatch(w: World, pc: Pc, e: Event)
    requires Act(w, pc, e).Some?
    ensures var (w', pc') := Act(w, pc, e).value;
            && (NextOf(pc').Some? ==> NextOf(pc') == NextOf(pc) && LockOf(pc') == LockOf(pc))
            && (!e.SaveWatch? ==> forall d :: FilesOf(w', d).watch == FilesOf(w, d).watch)
            && (e.SaveWatch? ==> pc.SavingWatch? && w' == PutWatch(w, pc.dir, pc.next) && NextOf(pc').None?)
  {
  }

  lemma {:induction false} RunAppends(s: Watch.State, os: seq<Watch.Observation>, o: Watch.Observation)
    ensures Watch.Run(s, os + [o]) == Watch.Step(Watch.Run(s, os), o)
    decreases |os|
  {
    if os != [] {
      assert (os + [o])[1..] == os[1..] + [o];
      RunAppends(Watch.Step(s, os[0]), os[1..], o);
    } else {
      assert [o][1..] == [];
    }
  }

  lemma {:induction false} SavedFileOk(w: World, d: Dir, n: Watch.State)
    requires FileOk(w, d) && IsNext(w, d, n)
    ensures FileOk(PutWatch(w, d, n), d)
  {
    var os :| (forall i :: 0 <= i < |os| ==> DirOf(os[i]) == d) && FilesOf(w, d).watch == Watch.Run(Watch.EMPTY, os);
    var o :| DirOf(o) == d && Watch.Step(FilesOf(w, d).watch, o) == n;
    RunAppends(Watch.EMPTY, os, o);
    assert forall i :: 0 <= i < |os + [o]| ==> DirOf((os + [o])[i]) == d;
  }

  lemma {:induction false} SaveKeepsWatchInv(s: System, p: Process, d: Dir, n: Watch.State, at': map<Process, Pc>)
    requires Inv(s) && WatchInv(s) && p in s.at && s.at[p] == SavingWatch(d, n)
    requires at' == s.at[p := Finished(d)]
    ensures WatchInv(System(PutWatch(s.world, d, n), at'))
  {
    var w' := PutWatch(s.world, d, n);
    assert PendingOk(s.world, s.at[p]);
    forall e ensures FileOk(w', e) {
      if e == d { SavedFileOk(s.world, d, n); }
      else { assert FileOk(s.world, e) && FilesOf(w', e) == FilesOf(s.world, e); }
    }
    forall q | q in at' ensures PendingOk(w', at'[q]) {
      if q != p {
        assert Apart(s.at[p], s.at[q]) && PendingOk(s.world, s.at[q]);
      }
    }
  }

  lemma {:induction false} SameFiles(w: World, w': World, d: Dir)
    requires FileOk(w, d) && FilesOf(w', d).watch == FilesOf(w, d).watch
    ensures FileOk(w', d)
  {
  }

  lemma {:induction false} SamePending(w: World, w': World, pc: Pc, pc': Pc)
    requires PendingOk(w, pc) && forall d :: FilesOf(w', d).watch == FilesOf(w, d).watch
    requires NextOf(pc').Some? ==> NextOf(pc') == NextOf(pc) && LockOf(pc') == LockOf(pc)
    ensures PendingOk(w', pc')
  {
  }

  lemma {:induction false} StaysKeepWatchInv(s: System, s': System, p: Process)
    requires WatchInv(s) && forall d :: FilesOf(s'.world, d).watch == FilesOf(s.world, d).watch
    requires forall q :: q in s'.at && q != p ==> q in s.at && s'.at[q] == s.at[q]
    requires p in s'.at ==> PendingOk(s'.world, s'.at[p])
    ensures WatchInv(s')
  {
    forall d ensures FileOk(s'.world, d) { SameFiles(s.world, s'.world, d); }
    forall q | q in s'.at ensures PendingOk(s'.world, s'.at[q]) {
      if q != p { SamePending(s.world, s'.world, s.at[q], s'.at[q]); }
    }
  }

  lemma {:induction false} ActKeepsWatchInv(s: System, p: Process, e: Event)
    requires Inv(s) && WatchInv(s) && p in s.at && Act(s.world, s.at[p], e).Some?
    ensures WatchInv(HostSafety.Acted(s, p, e))
  {
    ActLeavesWatch(s.world, s.at[p], e);
    if e.SaveWatch? {
      SaveKeepsWatchInv(s, p, s.at[p].dir, s.at[p].next, HostSafety.Acted(s, p, e).at);
    } else {
      var s' := HostSafety.Acted(s, p, e);
      SamePending(s.world, s'.world, s.at[p], s'.at[p]);
      StaysKeepWatchInv(s, s', p);
    }
  }

  lemma {:induction false} LookIsPending(w: World, d: Dir, o: Watch.Observation)
    requires Look(w, d, o).Some?
    ensures PendingOk(w, Look(w, d, o).value)
  {
    assert IsNext(w, d, Watch.Step(FilesOf(w, d).watch, o));
  }

  lemma {:induction false} ApplyKeepsWatchInv(s: System, p: Process, e: Event)
    requires Inv(s) && WatchInv(s) && Apply(s, p, e).Some?
    ensures WatchInv(Apply(s, p, e).value)
  {
    if e.Acquire? || e.CreateConsumed? || e.Stop? {
      StaysKeepWatchInv(s, Apply(s, p, e).value, p);
    } else if e.Evaluate? {
      LookIsPending(s.world, s.at[p].dir, e.observed);
      StaysKeepWatchInv(s, Apply(s, p, e).value, p);
    } else {
      ActKeepsWatchInv(s, p, e);
    }
  }

  lemma {:induction false} RunKeepsWatchInv(s: System, run: seq<(Process, Event)>)
    requires Inv(s) && WatchInv(s) && Exec(s, run).Some?
    ensures WatchInv(Exec(s, run).value)
    decreases |run|
  {
    if run != [] {
      HostSafety.ApplyKeepsInv(s, run[0].0, run[0].1);
      ApplyKeepsWatchInv(s, run[0].0, run[0].1);
      RunKeepsWatchInv(Apply(s, run[0].0, run[0].1).value, run[1..]);
    }
  }

  /** Every watch-state file of every reachable state is an evaluator run over observations
      of its own directory, so all that holds along evaluator runs holds of the files. */
  lemma {:induction false} WatchFilesAreEvaluatorRuns(s: System, d: Dir)
    requires HostSafety.Reachable(s)
    ensures exists os :: (forall i :: 0 <= i < |os| ==> DirOf(os[i]) == d) && FilesOf(s.world, d).watch == Watch.Run(Watch.EMPTY, os)
    ensures Watch.Reachable(FilesOf(s.world, d).watch)
  {
    var legacy, spent, run :| Exec(Start(legacy, spent), run) == Some(s);
    var s0 := Start(legacy, spent);
    HostSafety.StartInv(legacy, spent);
    forall e ensures FileOk(s0.world, e) {
      assert FilesOf(s0.world, e).watch == Watch.Run(Watch.EMPTY, []);
    }
    RunKeepsWatchInv(s0, run);
    assert FileOk(s.world, d);
    var os :| (forall i :: 0 <= i < |os| ==> DirOf(os[i]) == d) && FilesOf(s.world, d).watch == Watch.Run(Watch.EMPTY, os);
    Watch.RunKeepsReachable(Watch.EMPTY, os);
  }

  /** A watch closed on disk stays as it is, whatever processes do to it afterwards. */
  lemma {:induction false} ClosedFilesStay(s: System, run: seq<(Process, Event)>, d: Dir)
    requires Inv(s) && WatchInv(s) && Exec(s, run).Some?
    requires FilesOf(s.world, d).watch.closed
    ensures FilesOf(Exec(s, run).value.world, d).watch == FilesOf(s.world, d).watch
    decreases |run|
  {
    if run != [] {
      var (p, e) := run[0];
      var s1 := Apply(s, p, e).value;
      StepKeepsClosed(s, p, e, d);
      HostSafety.ApplyKeepsInv(s, p, e);
      ApplyKeepsWatchInv(s, p, e);
      ClosedFilesStay(s1, run[1..], d);
    }
  }

  lemma {:induction false} StepKeepsClosed(s: System, p: Process, e: Event, d: Dir)
    requires WatchInv(s) && Apply(s, p, e).Some? && FilesOf(s.world, d).watch.closed
    ensures FilesOf(Apply(s, p, e).value.world, d).watch == FilesOf(s.world, d).watch
  {
    if !e.Acquire? && !e.CreateConsumed? && !e.Stop? && !e.Evaluate? {
      ActLeavesWatch(s.world, s.at[p], e);
      if e.SaveWatch? && s.at[p].dir == d {
        assert PendingOk(s.world, s.at[p]) && FileOk(s.world, d);
        SavedAfterClose(s.world, d, s.at[p].next);
      }
    }
  }

  lemma {:induction false} SavedAfterClose(w: World, d: Dir, n: Watch.State)
    requires FileOk(w, d) && IsNext(w, d, n) && FilesOf(w, d).watch.closed
    ensures n == FilesOf(w, d).watch
  {
    var os :| (forall i :: 0 <= i < |os| ==> DirOf(os[i]) == d) && FilesOf(w, d).watch == Watch.Run(Watch.EMPTY, os);
    Watch.RunKeepsReachable(Watch.EMPTY, os);
    var o :| DirOf(o) == d && Watch.Step(FilesOf(w, d).watch, o) == n;
    Watch.ClosedIsAbsorbing(FilesOf(w, d).watch, [o]);
    assert Watch.Run(FilesOf(w, d).watch, [o]) == Watch.Step(FilesOf(w, d).watch, o) by { assert [o][1..] == []; }
  }
}
