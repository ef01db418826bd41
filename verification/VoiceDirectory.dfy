/** Publication and recovery as they work on the directory in place, proved against the steps
    of the publication model. */
module VoiceDirectory {
  import opened RvqCodec
  import opened Publication
  import opened PublicationSafety
  import opened PreparedVoice

  // ----- what the loops compute -----

  /** The directory after the first `stages` stages of a publication. */
  function Staged(H: seq<nat> -> string, dir: Directory, job: Job, stages: nat): Directory {
    if stages == 0 then dir else Perform(Staged(H, dir, job, stages - 1), Program(H, job, stages - 1))
  }

  /** Which of the listed removals work. */
  function Outcomes(names: seq<Name>, works: Name -> bool): (r: seq<bool>)
    ensures |r| == |names|
  {
    seq(|names|, i requires 0 <= i < |names| => works(names[i]))
  }

  /** The directory when stage `stage` throws, possibly in the middle of a write. */
  function Broken(H: seq<nat> -> string, dir: Directory, job: Job, stage: nat, torn: bool): Directory {
    var op := Program(H, job, stage);
    if torn && op.WriteFile? then dir[op.n := Torn] else dir
  }

  predicate Blocked(dir: Directory, g: Generation, n: Name) { n in dir && Quarantined(g, n) in dir }

  /** The directory after moving the listed files, and whether none was in the way. */
  datatype Moved = Moved(dir: Directory, ok: bool)

  function MoveAll(dir: Directory, g: Generation, names: seq<Name>): Moved
    decreases |names|
  {
    if names == [] then Moved(dir, true)
    else if Blocked(dir, g, names[0]) then Moved(dir, false)
    else MoveAll(Rename(dir, names[0], Quarantined(g, names[0])), g, names[1..])
  }

  /** Packing throws on a code out of range, once three stages are done. */
  function FailsAt(job: Job, failAt: nat): nat {
    if failAt > 3 && !job.identity.xVectorOnly && !CodesInRange(job.codes) then 3 else failAt
  }

  class Folder {
    var dir: Directory

    constructor (d: Directory)
      ensures dir == d
    {
      dir := d;
    }

    method MoveOwned(g: Generation, n: Name) returns (ok: bool)
      modifies this
      ensures ok == !Blocked(old(dir), g, n)
      ensures dir == if ok then Rename(old(dir), n, Quarantined(g, n)) else old(dir)
    {
      if n !in dir {
        return true;
      }
      if Quarantined(g, n) in dir {
        return false;
      }
      var content := dir[n];
      dir := dir - {n};
      dir := dir[Quarantined(g, n) := content];
      return true;
    }

    /** Does nothing without a marker or with a manifest in place; refuses a marker that names
        another target. */
    method RecoverIncomplete(m: Target) returns (ok: bool)
      modifies this
      ensures Marker !in old(dir) ==> ok && dir == old(dir)
      ensures Marker in old(dir) ==>
        var marker := old(dir)[Marker];
        if !marker.MarkerDoc? || marker.m != m then !ok && dir == old(dir)
        else if Manifest(m) in old(dir) then ok && dir == old(dir)
        else Moved(dir, ok) == MoveAll(old(dir), marker.g, OwnedList(marker.g, m, marker.withRvq))
    {
      if Marker !in dir {
        return true;
      }
      var marker := dir[Marker];
      if !marker.MarkerDoc? || marker.m != m {
        return false;
      }
      if Manifest(m) in dir {
        return true;
      }
      var names := OwnedList(marker.g, m, marker.withRvq);
      var i := 0;
      assert names[0..] == names;
      while i < |names|
        invariant i <= |names|
        invariant MoveAll(dir, marker.g, names[i..]) == MoveAll(old(dir), marker.g, names)
      {
        assert names[i..][1..] == names[i + 1..];
        var moved := MoveOwned(marker.g, names[i]);
        if !moved {
          return false;
        }
        i := i + 1;
      }
      return true;
    }

    /** Best-effort removals; `works` says which of them succeed. */
    method RemoveAll(names: seq<Name>, works: Name -> bool)
      modifies this
      ensures dir == RemovedBy(old(dir), names, Outcomes(names, works))
    {
      ghost var oks := Outcomes(names, works);
      var i := 0;
      assert names[0..] == names && oks[0..] == oks;
      while i < |names|
        invariant i <= |names|
        invariant RemovedBy(dir, names[i..], oks[i..]) == RemovedBy(old(dir), names, oks)
      {
        assert names[i..][1..] == names[i + 1..] && oks[i..][1..] == oks[i + 1..];
        if works(names[i]) {
          dir := dir - {names[i]};
        }
        i := i + 1;
      }
    }

    /** Publishes a job, with an exception thrown after `failAt` stages unless that is above
        the last one; `torn` says that it hits the middle of a write. */
    method Persist(H: seq<nat> -> string, job: Job, failAt: nat, torn: bool, works: Name -> bool)
      returns (committed: bool, failed: bool)
      modifies this
      ensures failed <==> FailsAt(job, failAt) <= 8
      ensures committed <==> FailsAt(job, failAt) >= 8
      ensures var k := FailsAt(job, failAt);
        dir == if failed
               then var names := CleanupList(job, k);
                    RemovedBy(Broken(H, Staged(H, old(dir), job, k), job, k, torn), names, Outcomes(names, works))
               else RemovedBy(Staged(H, old(dir), job, 8), [Marker], [works(Marker)])
    {
      var stage := RunStages(H, job, failAt);
      failed, committed := stage == FailsAt(job, failAt), stage == 8;
      if failed {
        dir := Broken(H, dir, job, stage, torn);
        RemoveAll(CleanupList(job, stage), works);
      } else {
        RemoveAll([Marker], works);
        assert Outcomes([Marker], works) == [works(Marker)];
      }
    }

    /** The stages in order, until one throws. */
    method RunStages(H: seq<nat> -> string, job: Job, failAt: nat) returns (stage: nat)
      modifies this
      ensures stage == (if FailsAt(job, failAt) < 8 then FailsAt(job, failAt) else 8)
      ensures dir == Staged(H, old(dir), job, stage)
    {
      stage := 0;
      var failed := failAt == 0;
      while stage < 8 && !failed
        invariant stage <= 8 && stage <= FailsAt(job, failAt) && dir == Staged(H, old(dir), job, stage)
        invariant failed <==> stage == FailsAt(job, failAt)
        decreases 8 - stage, !failed
      {
        dir := Perform(dir, Program(H, job, stage));
        stage := stage + 1;
        failed := stage == failAt || (stage == 3 && !job.identity.xVectorOnly && !CodesInRange(job.codes));
      }
    }
  }

  // ----- the loops are runs of the model -----

  function Advancing(k: nat): seq<Label> {
    if k == 0 then [] else [Advance] + Advancing(k - 1)
  }

  lemma {:induction false} StagedIsRun(H: seq<nat> -> string, s: Store, k: nat)
    requires s.proc.Publishing? && s.proc.stage + k <= 8
    requires !s.proc.job.identity.xVectorOnly && s.proc.stage <= 3 < s.proc.stage + k ==> CodesInRange(s.proc.job.codes)
    ensures var after := RunFrom(H, s, Advancing(k));
      after.proc == Publishing(s.proc.job, s.proc.stage + k)
    ensures forall dir :: Staged(H, dir, s.proc.job, s.proc.stage) == s.dir ==>
      Staged(H, dir, s.proc.job, s.proc.stage + k) == RunFrom(H, s, Advancing(k)).dir
    decreases k
  {
    if k > 0 {
      var next := Step(H, s, Advance);
      StagedIsRun(H, next, k - 1);
      assert Advancing(k)[1..] == Advancing(k - 1);
      forall dir | Staged(H, dir, s.proc.job, s.proc.stage) == s.dir
        ensures Staged(H, dir, s.proc.job, s.proc.stage + k) == RunFrom(H, s, Advancing(k)).dir
      {
        assert Staged(H, dir, s.proc.job, s.proc.stage + 1) == next.dir;
      }
    }
  }

  /** A run of the program up to any stage is that many steps of the model. */
  lemma PersistRefines(H: seq<nat> -> string, s: Store, job: Job, stages: nat)
    requires Enabled(H, s, StartPublish(job)) && stages <= 8
    requires !job.identity.xVectorOnly && stages > 3 ==> CodesInRange(job.codes)
    ensures Staged(H, s.dir, job, stages) == RunFrom(H, s, [StartPublish(job)] + Advancing(stages)).dir
  {
    var begun := Step(H, s, StartPublish(job));
    StagedIsRun(H, begun, stages);
    assert ([StartPublish(job)] + Advancing(stages))[1..] == Advancing(stages);
    assert Staged(H, s.dir, job, 0) == begun.dir;
  }

  /** The labels of a publication that throws after `stages` stages and is cleaned up. */
  function Failure(H: seq<nat> -> string, job: Job, stages: nat, torn: bool, oks: seq<bool>): seq<Label> {
    (if torn && Program(H, job, stages).WriteFile? then [Tear] else []) + ([Fail] + Removals(oks))
  }

  lemma BrokenIsRun(H: seq<nat> -> string, s: Store, torn: bool, oks: seq<bool>)
    requires s.proc.Publishing? && |oks| == |CleanupList(s.proc.job, s.proc.stage)|
    ensures var job, stage := s.proc.job, s.proc.stage;
      RunFrom(H, s, Failure(H, job, stage, torn, oks)).dir ==
      RemovedBy(Broken(H, s.dir, job, stage, torn), CleanupList(job, stage), oks)
  {
    var tears := torn && Program(H, s.proc.job, s.proc.stage).WriteFile?;
    var tail := [Fail] + Removals(oks);
    var t := if tears then Step(H, s, Tear) else s;
    assert tail[1..] == Removals(oks);
    CleanupRun(H, Step(H, t, Fail), oks);
    if tears {
      assert ([Tear] + tail)[1..] == tail;
    } else {
      assert [] + tail == tail;
    }
  }

  /** A publication that throws anywhere, also in the middle of a write, and whose removals
      may fail, leaves the directory that those steps of the model leave. */
  lemma FailureRefines(H: seq<nat> -> string, s: Store, job: Job, stages: nat, torn: bool, oks: seq<bool>)
    requires Enabled(H, s, StartPublish(job)) && stages <= 8 && |oks| == |CleanupList(job, stages)|
    requires !job.identity.xVectorOnly && stages > 3 ==> CodesInRange(job.codes)
    ensures RemovedBy(Broken(H, Staged(H, s.dir, job, stages), job, stages, torn), CleanupList(job, stages), oks) ==
      RunFrom(H, s, [StartPublish(job)] + Advancing(stages) + Failure(H, job, stages, torn, oks)).dir
  {
    var begun := Step(H, s, StartPublish(job));
    PersistRefines(H, s, job, stages);
    StagedIsRun(H, begun, stages);
    var head := [StartPublish(job)] + Advancing(stages);
    assert head[1..] == Advancing(stages);
    assert RunFrom(H, s, head) == RunFrom(H, begun, Advancing(stages));
    RunFromSplits(H, s, head, Failure(H, job, stages, torn, oks));
    BrokenIsRun(H, RunFrom(H, s, head), torn, oks);
  }

  lemma {:induction false} RunFromSplits(H: seq<nat> -> string, s: Store, a: seq<Label>, b: seq<Label>)
    ensures RunFrom(H, s, a + b) == RunFrom(H, RunFrom(H, s, a), b)
    decreases |a|
  {
    if a == [] {
      assert a + b == b;
    } else {
      assert (a + b)[1..] == a[1..] + b;
      RunFromSplits(H, Step(H, s, a[0]), a[1..], b);
    }
  }

  lemma {:induction false} MoveAllIsRun(H: seq<nat> -> string, s: Store)
    requires Inv(H, s) && s.proc.Recovering?
    ensures MoveAll(s.dir, s.proc.g, s.proc.todo) == Moved(RunFrom(H, s, Nexts(|s.proc.todo|)).dir, true)
    decreases |s.proc.todo|
  {
    var k := |s.proc.todo|;
    if k == 0 {
      assert RunFrom(H, Step(H, s, Finish), []) == Step(H, s, Finish);
    } else {
      var n := s.proc.todo[0];
      assert NameOk(H, s, n) && NameOk(H, s, Quarantined(s.proc.g, n));
      StepInv(H, s, Next(true));
      MoveAllIsRun(H, Step(H, s, Next(true)));
      assert Nexts(k)[1..] == Nexts(k - 1);
    }
  }

  /** From every reachable store the recovery loop runs to its end, never finds a file in
      the way, and leaves the directory that the model's recovery leaves. */
  lemma RecoverRefines(H: seq<nat> -> string, schedule: seq<Label>, m: Target)
    requires Enabled(H, Run(H, schedule), StartRecover(m))
    ensures var s := Run(H, schedule); var g, rvq := s.dir[Marker].g, s.dir[Marker].withRvq;
      MoveAll(s.dir, g, OwnedList(g, m, rvq)) ==
      Moved(Run(H, schedule + ([StartRecover(m)] + Nexts(|OwnedList(g, m, rvq)|))).dir, true)
  {
    RunInv(H, schedule);
    var s := Run(H, schedule);
    var nexts := Nexts(|OwnedList(s.dir[Marker].g, m, s.dir[Marker].withRvq)|);
    StepInv(H, s, StartRecover(m));
    MoveAllIsRun(H, Step(H, s, StartRecover(m)));
    assert ([StartRecover(m)] + nexts)[1..] == nexts;
    RunSplits(H, schedule, [StartRecover(m)] + nexts);
  }
}
