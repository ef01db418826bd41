/** What holds of the directory after any schedule of publications, failures, crashes,
    recoveries and finalizations. */
module PublicationSafety {
  import opened Basics
  import opened RvqCodec
  import opened Publication

  // ----- invariants -----

  /** The generation that a file outside quarantine belongs to. */
  function GenOf(n: Name): Option<Generation> {
    match n
    case MarkerTemp(g) => Some(g)
    case Speaker(g) => Some(g)
    case SpeakerTemp(g) => Some(g)
    case Rvq(g) => Some(g)
    case RvqTemp(g) => Some(g)
    case ManifestTemp(_, g) => Some(g)
    case _ => None
  }

  /** What a running publication has put under a name it may touch. */
  function Placed(H: seq<nat> -> string, job: Job, stage: nat, n: Name): Option<Content> {
    var rvq := !job.identity.xVectorOnly;
    if n == MarkerTemp(job.g) && stage == 1 then Some(MarkerOf(job))
    else if n == Marker && stage >= 2 then Some(MarkerOf(job))
    else if n == SpeakerTemp(job.g) && 3 <= stage < 6 then Some(Data(job.speaker))
    else if n == RvqTemp(job.g) && rvq && 4 <= stage < 7 then Some(Data(Pack(job.codes)))
    else if n == ManifestTemp(job.m, job.g) && 5 <= stage < 8 then Some(ManifestDoc(DocumentOf(H, job)))
    else if n == Speaker(job.g) && stage >= 6 then Some(Data(job.speaker))
    else if n == Rvq(job.g) && rvq && stage >= 7 then Some(Data(Pack(job.codes)))
    else if n == Manifest(job.m) && stage >= 8 then Some(ManifestDoc(DocumentOf(H, job)))
    else None
  }

  /** The current stage may have left a partial file here. */
  predicate InDraft(H: seq<nat> -> string, job: Job, stage: nat, n: Name) {
    Program(H, job, stage).WriteFile? && Program(H, job, stage).n == n
  }

  ghost predicate MarkerNames(s: Store, g: Generation) {
    Marker in s.dir && s.dir[Marker].MarkerDoc? && s.dir[Marker].g == g
  }

  /** Every file belongs to a generation that was started, and none is both in place and
      in quarantine. */
  ghost predicate KnownAt(s: Store, n: Name) {
    n in s.dir ==>
      && (GenOf(n).Some? ==> GenOf(n).value in s.used && Quarantined(GenOf(n).value, n) !in s.dir)
      && (n.Quarantined? ==> n.g in s.used)
      && (n.Quarantined? && n.name == Marker ==> !MarkerNames(s, n.g))
      && (n == Marker ==> s.dir[n].MarkerDoc? && s.dir[n].g in s.used)
  }

  /** The marker names its generation's files: recovery will find all of them. */
  ghost predicate OwnedAt(s: Store, n: Name) {
    n in s.dir && GenOf(n).Some? && MarkerNames(s, GenOf(n).value) ==>
      n in OwnedList(s.dir[Marker].g, s.dir[Marker].m, s.dir[Marker].withRvq)
  }

  ghost predicate PublishingAt(H: seq<nat> -> string, s: Store, n: Name) {
    s.proc.Publishing? ==>
      var job := s.proc.job; var stage := s.proc.stage;
      && stage <= 8 && job.g in s.used && Publishable(job)
      && (job.g in s.voiceOf <==> stage == 8)
      && (stage >= 4 && !job.identity.xVectorOnly ==> CodesInRange(job.codes))
      && !(n.Quarantined? && n.g == job.g && n in s.dir)
      && (GenOf(n) == Some(job.g) || n == Marker || n == Manifest(job.m) ==>
            InDraft(H, job, stage, n) || At(s.dir, n) == Placed(H, job, stage, n))
  }

  /** The marker is moved last, so that a crash leaves it to name what remains. */
  predicate MarkerEnds(todo: seq<Name>) {
    (todo != [] ==> todo[|todo| - 1] == Marker) && (forall i :: 0 <= i < |todo| - 1 ==> todo[i] != Marker)
  }

  ghost predicate RecoveringAt(s: Store, n: Name) {
    s.proc.Recovering? ==>
      && (n in s.dir && GenOf(n) == Some(s.proc.g) ==> n in s.proc.todo)
      && (n in s.proc.todo ==> n == Marker || GenOf(n) == Some(s.proc.g))
      && MarkerEnds(s.proc.todo)
      && (if s.proc.todo == [] then Marker !in s.dir
          else MarkerNames(s, s.proc.g) && s.dir[Marker].m == s.proc.m)
      && Manifest(s.proc.m) !in s.dir
  }

  /** Nothing but the marker draft is removed after the marker. */
  predicate DraftFollows(todo: seq<Name>) {
    forall i, j :: 0 <= i < j < |todo| && todo[i] == Marker ==> todo[j].MarkerTemp?
  }

  ghost predicate CleaningAt(s: Store, n: Name) {
    s.proc.Cleaning? ==>
      && (n in s.proc.todo ==> n == Marker || GenOf(n) == Some(s.proc.job.g))
      && s.proc.job.g in s.used && (s.proc.committed ==> s.proc.job.g in s.voiceOf)
      && (s.proc.committed && n in s.proc.todo ==> n != Marker && !n.Speaker? && !n.Rvq?)
      && (Marker in s.proc.todo && Marker in s.dir ==> MarkerNames(s, s.proc.job.g))
      && DraftFollows(s.proc.todo)
      && (!s.proc.committed && n in s.dir && GenOf(n) == Some(s.proc.job.g) && !n.MarkerTemp? ==>
            (n in s.proc.todo || n in s.unremoved) && (MarkerNames(s, s.proc.job.g) || s.proc.job.g in s.unmarked))
      && (Marker in s.proc.todo ==> !s.proc.committed && s.proc.job.g !in s.unmarked && s.proc.job.g !in s.voiceOf)
  }

  /** No marker will name the generation again: its cleanup removed it. */
  ghost predicate UnmarkedAt(s: Store, g: Generation) {
    g in s.unmarked ==>
      && g in s.used && g !in s.voiceOf && !MarkerNames(s, g)
      && (s.proc.Publishing? ==> s.proc.job.g != g)
  }

  /** The file belongs to a generation that is neither committed nor named by the marker. */
  ghost predicate Untracked(s: Store, n: Name) {
    GenOf(n).Some? && GenOf(n).value !in s.voiceOf && !MarkerNames(s, GenOf(n).value)
  }

  /** A marker draft, or a file whose own removal failed in a cleanup that then removed the
      marker. */
  ghost predicate Stranded(s: Store, n: Name) {
    n.MarkerTemp? || (n in s.unremoved && GenOf(n).Some? && GenOf(n).value in s.unmarked)
  }

  /** What recovery cannot find is exactly what is stranded. */
  ghost predicate TrackedAt(s: Store, n: Name) {
    n in s.dir && GenOf(n).Some? ==> (Untracked(s, n) <==> Stranded(s, n))
  }

  /** A visible manifest names artifacts that are in place with the recorded content, and
      no running step is about to touch them. */
  ghost predicate IntactAt(H: seq<nat> -> string, s: Store, m: Target) {
    && (Manifest(m) in s.dir <==> m in s.published)
    && (m in s.published ==>
          var job := s.published[m];
          && job.m == m && job.g in s.used && job.g in s.voiceOf && Publishable(job)
          && (!job.identity.xVectorOnly ==> CodesInRange(job.codes))
          && At(s.dir, Manifest(m)) == Some(ManifestDoc(DocumentOf(H, job)))
          && At(s.dir, Speaker(job.g)) == Some(Data(job.speaker))
          && (!job.identity.xVectorOnly ==> At(s.dir, Rvq(job.g)) == Some(Data(Pack(job.codes))))
          && (s.proc.Publishing? && s.proc.stage < 8 ==> s.proc.job.g != job.g)
          && (s.proc.Cleaning? && !s.proc.committed ==> s.proc.job.g != job.g)
          && (s.proc.Recovering? ==> s.proc.g != job.g)
          && (Marker in s.dir && s.dir[Marker].MarkerDoc? ==> (s.dir[Marker].g == job.g <==> s.dir[Marker].m == m)))
  }

  ghost predicate VoiceAt(s: Store, g: Generation) {
    g in s.voiceOf ==> g in s.used && s.voiceOf[g] in s.published && s.published[s.voiceOf[g]].g == g
  }

  ghost predicate NameOk(H: seq<nat> -> string, s: Store, n: Name) {
    && KnownAt(s, n) && OwnedAt(s, n) && PublishingAt(H, s, n)
    && RecoveringAt(s, n) && CleaningAt(s, n) && TrackedAt(s, n)
  }

  ghost predicate GenOk(s: Store, g: Generation) { VoiceAt(s, g) && UnmarkedAt(s, g) }

  ghost predicate Inv(H: seq<nat> -> string, s: Store) {
    !s.conflict && (forall n :: NameOk(H, s, n)) && (forall m :: IntactAt(H, s, m)) && (forall g :: GenOk(s, g))
  }

  // ----- one step, invariant by invariant -----

  /** The effect of one operation on one name. */
  lemma PerformAt(dir: Directory, op: Operation, n: Name)
    requires op.RenameFile? ==> op.from in dir && op.from != op.to
    ensures At(Perform(dir, op), n) ==
      match op
      case WriteFile(x, c) => if n == x then Some(c) else At(dir, n)
      case RenameFile(from, to) => if n == to then At(dir, from) else if n == from then None else At(dir, n)
      case Nothing => At(dir, n)
  {
  }

  /** The operation leaves at n what the next stage expects there. */
  ghost predicate Leads(H: seq<nat> -> string, job: Job, stage: nat, n: Name) {
    var op := Program(H, job, stage); var next := Placed(H, job, stage + 1, n);
    match op
    case WriteFile(x, c) => if n == x then next == Some(c) else next == Placed(H, job, stage, n)
    case RenameFile(from, to) =>
      if n == to then next == Placed(H, job, stage, from)
      else if n == from then next == None else next == Placed(H, job, stage, n)
    case Nothing => next == Placed(H, job, stage, n)
  }

  lemma PlacedWrites(H: seq<nat> -> string, job: Job, stage: nat, n: Name)
    requires stage == 0 || 2 <= stage <= 4
    ensures Leads(H, job, stage, n)
  {
  }

  lemma PlacedRenames(H: seq<nat> -> string, job: Job, stage: nat, n: Name)
    requires stage == 1 || 5 <= stage <= 7
    ensures Leads(H, job, stage, n)
  {
  }

  /** A completed stage finds what it renames, and leaves what the next stage expects. */
  lemma PlacedNext(H: seq<nat> -> string, job: Job, stage: nat, n: Name)
    requires stage < 8
    ensures Leads(H, job, stage, n)
  {
    if stage == 0 || 2 <= stage <= 4 {
      PlacedWrites(H, job, stage, n);
    } else {
      PlacedRenames(H, job, stage, n);
    }
  }

  /** What a running publication is about to rename is there. */
  predicate SourceReady(H: seq<nat> -> string, s: Store)
    requires s.proc.Publishing?
  {
    var op := Program(H, s.proc.job, s.proc.stage);
    op.RenameFile? ==>
      op.from in s.dir && op.from != op.to && At(s.dir, op.from) == Placed(H, s.proc.job, s.proc.stage, op.from)
  }

  lemma SourceThere(H: seq<nat> -> string, s: Store)
    requires Inv(H, s) && Enabled(H, s, Advance)
    ensures SourceReady(H, s)
  {
    var op := Program(H, s.proc.job, s.proc.stage);
    if op.RenameFile? {
      assert NameOk(H, s, op.from);
    }
  }

  lemma PublishingCarried(H: seq<nat> -> string, s: Store, n: Name)
    requires Enabled(H, s, Advance) && PublishingAt(H, s, n) && SourceReady(H, s)
    ensures PublishingAt(H, Apply(H, s, Advance), n)
  {
    var job, stage := s.proc.job, s.proc.stage;
    PerformAt(s.dir, Program(H, job, stage), n);
    PlacedNext(H, job, stage, n);
  }

  lemma PublishingAdvance(H: seq<nat> -> string, s: Store, n: Name)
    requires Inv(H, s) && Enabled(H, s, Advance)
    ensures PublishingAt(H, Apply(H, s, Advance), n)
  {
    assert NameOk(H, s, n);
    SourceThere(H, s);
    PublishingCarried(H, s, n);
  }

  /** A publication never touches a quarantined file. */
  lemma QuarantineFixed(H: seq<nat> -> string, s: Store, n: Name)
    requires Inv(H, s) && Enabled(H, s, Advance) && n.Quarantined?
    ensures At(Apply(H, s, Advance).dir, n) == At(s.dir, n)
  {
    SourceThere(H, s);
    PerformAt(s.dir, Program(H, s.proc.job, s.proc.stage), n);
  }

  lemma KnownAdvance(H: seq<nat> -> string, s: Store, n: Name)
    requires Inv(H, s) && Enabled(H, s, Advance)
    ensures KnownAt(Apply(H, s, Advance), n)
  {
    assert NameOk(H, s, n) && NameOk(H, s, Marker);
    PublishingAdvance(H, s, Marker);
    if n.Quarantined? {
      QuarantineFixed(H, s, n);
    } else if GenOf(n).Some? {
      var q := Quarantined(GenOf(n).value, n);
      assert NameOk(H, s, q);
      QuarantineFixed(H, s, q);
      SourceThere(H, s);
      PerformAt(s.dir, Program(H, s.proc.job, s.proc.stage), n);
    }
  }

  lemma KnownMove(H: seq<nat> -> string, s: Store, ok: bool, n: Name)
    requires Inv(H, s) && Enabled(H, s, Next(ok)) && s.proc.Recovering?
    ensures KnownAt(Apply(H, s, Next(ok)), n)
  {
    assert NameOk(H, s, n) && NameOk(H, s, Marker) && NameOk(H, s, s.proc.todo[0]);
    if GenOf(n).Some? {
      assert NameOk(H, s, Quarantined(GenOf(n).value, n));
    }
  }

  lemma KnownErase(H: seq<nat> -> string, s: Store, ok: bool, n: Name)
    requires Inv(H, s) && Enabled(H, s, Next(ok)) && s.proc.Cleaning?
    ensures KnownAt(Apply(H, s, Next(ok)), n)
  {
    assert NameOk(H, s, n) && NameOk(H, s, Marker) && NameOk(H, s, s.proc.todo[0]);
  }

  lemma KnownElse(H: seq<nat> -> string, s: Store, l: Label, n: Name)
    requires Enabled(H, s, l) && !l.Advance? && !l.Next?
    requires KnownAt(s, n) && KnownAt(s, Marker) && PublishingAt(H, s, n)
    requires GenOf(n).Some? ==> PublishingAt(H, s, Quarantined(GenOf(n).value, n))
    ensures KnownAt(Apply(H, s, l), n)
  {
  }

  lemma KnownStep(H: seq<nat> -> string, s: Store, l: Label, n: Name)
    requires Inv(H, s) && Enabled(H, s, l)
    ensures KnownAt(Apply(H, s, l), n)
  {
    if l.Advance? {
      KnownAdvance(H, s, n);
    } else if l.Next? {
      if s.proc.Recovering? {
        KnownMove(H, s, l.ok, n);
      } else {
        KnownErase(H, s, l.ok, n);
      }
    } else {
      assert NameOk(H, s, n) && NameOk(H, s, Marker);
      if GenOf(n).Some? {
        assert NameOk(H, s, Quarantined(GenOf(n).value, n));
      }
      KnownElse(H, s, l, n);
    }
  }

  lemma OwnedMembers(g: Generation, m: Target, withRvq: bool, n: Name)
    ensures n in OwnedList(g, m, withRvq) <==>
      n == Speaker(g) || (withRvq && n == Rvq(g)) || n == SpeakerTemp(g) || n == RvqTemp(g) ||
      n == ManifestTemp(m, g) || n == Marker
  {
  }

  /** Once the marker is in place, every file of its generation is one recovery moves. */
  lemma PlacedOwned(H: seq<nat> -> string, job: Job, stage: nat, n: Name)
    requires stage >= 2 && GenOf(n) == Some(job.g)
    requires Placed(H, job, stage, n).Some? || InDraft(H, job, stage, n)
    ensures n in OwnedList(job.g, job.m, !job.identity.xVectorOnly)
  {
    OwnedMembers(job.g, job.m, !job.identity.xVectorOnly, n);
  }

  lemma OwnedAdvance(H: seq<nat> -> string, s: Store, n: Name)
    requires Inv(H, s) && Enabled(H, s, Advance)
    ensures OwnedAt(Apply(H, s, Advance), n)
  {
    var after := Apply(H, s, Advance);
    PublishingAdvance(H, s, n);
    PublishingAdvance(H, s, Marker);
    if after.proc.stage >= 2 {
      if n in after.dir && GenOf(n) == Some(s.proc.job.g) {
        PlacedOwned(H, s.proc.job, after.proc.stage, n);
      }
    }
  }

  lemma OwnedTear(H: seq<nat> -> string, s: Store, n: Name)
    requires Inv(H, s) && Enabled(H, s, Tear)
    ensures OwnedAt(Apply(H, s, Tear), n)
  {
    assert NameOk(H, s, n) && NameOk(H, s, Marker);
    OwnedMembers(s.proc.job.g, s.proc.job.m, !s.proc.job.identity.xVectorOnly, n);
  }

  lemma OwnedNext(H: seq<nat> -> string, s: Store, ok: bool, n: Name)
    requires Inv(H, s) && Enabled(H, s, Next(ok))
    ensures OwnedAt(Apply(H, s, Next(ok)), n)
  {
    assert NameOk(H, s, n) && NameOk(H, s, Marker);
  }

  lemma OwnedStep(H: seq<nat> -> string, s: Store, l: Label, n: Name)
    requires Inv(H, s) && Enabled(H, s, l)
    ensures OwnedAt(Apply(H, s, l), n)
  {
    if l.Advance? {
      OwnedAdvance(H, s, n);
    } else if l.Tear? {
      OwnedTear(H, s, n);
    } else if l.Next? {
      OwnedNext(H, s, l.ok, n);
    } else {
      assert NameOk(H, s, n) && NameOk(H, s, Marker);
    }
  }

  lemma PublishingStep(H: seq<nat> -> string, s: Store, l: Label, n: Name)
    requires Inv(H, s) && Enabled(H, s, l)
    ensures PublishingAt(H, Apply(H, s, l), n)
  {
    if l.Advance? {
      PublishingAdvance(H, s, n);
    } else {
      assert NameOk(H, s, n);
      if l.StartPublish? {
        assert GenOk(s, l.job.g);
      }
    }
  }

  lemma RecoveringNext(H: seq<nat> -> string, s: Store, ok: bool, n: Name)
    requires Inv(H, s) && Enabled(H, s, Next(ok)) && s.proc.Recovering?
    ensures RecoveringAt(Apply(H, s, Next(ok)), n)
  {
    assert NameOk(H, s, n) && NameOk(H, s, Marker) && NameOk(H, s, s.proc.todo[0]);
    assert s.proc.todo == [s.proc.todo[0]] + s.proc.todo[1..];
  }

  lemma RecoveringStep(H: seq<nat> -> string, s: Store, l: Label, n: Name)
    requires Inv(H, s) && Enabled(H, s, l)
    ensures RecoveringAt(Apply(H, s, l), n)
  {
    if l.Next? && s.proc.Recovering? {
      RecoveringNext(H, s, l.ok, n);
    } else if l.StartRecover? {
      assert NameOk(H, s, n) && NameOk(H, s, Marker);
      OwnedMembers(s.dir[Marker].g, l.m, s.dir[Marker].withRvq, n);
    }
  }

  lemma CleanupMembers(job: Job, stage: nat, n: Name)
    ensures n in CleanupList(job, stage) <==>
      n == SpeakerTemp(job.g) || n == RvqTemp(job.g) || n == ManifestTemp(job.m, job.g) || n == MarkerTemp(job.g) ||
      (stage < 8 && (n == Marker || (stage >= 6 && n == Speaker(job.g)) ||
                     (stage >= 7 && !job.identity.xVectorOnly && n == Rvq(job.g))))
    ensures DraftFollows(CleanupList(job, stage))
  {
  }

  /** Whatever an uncommitted publication has placed, its cleanup removes. */
  lemma PlacedCleaned(H: seq<nat> -> string, job: Job, stage: nat, n: Name)
    requires stage < 8 && GenOf(n) == Some(job.g)
    requires Placed(H, job, stage, n).Some? || InDraft(H, job, stage, n)
    ensures n in CleanupList(job, stage)
    ensures !n.MarkerTemp? ==> stage >= 2
  {
    CleanupMembers(job, stage, n);
  }

  lemma CleaningBegun(H: seq<nat> -> string, s: Store, todo: seq<Name>, n: Name)
    requires Enabled(H, s, Fail) && PublishingAt(H, s, n) && PublishingAt(H, s, Marker) && DraftFollows(todo)
    requires n in todo ==> n == Marker || GenOf(n) == Some(s.proc.job.g)
    requires s.proc.stage == 8 && n in todo ==> n != Marker && !n.Speaker? && !n.Rvq?
    requires s.proc.stage < 8 && n in s.dir && GenOf(n) == Some(s.proc.job.g) ==>
      n in todo && (!n.MarkerTemp? ==> s.proc.stage >= 2)
    requires s.proc.stage == 8 ==> Marker !in todo
    requires s.proc.job.g !in s.unmarked
    ensures CleaningAt(s.(proc := Cleaning(s.proc.job, s.proc.stage == 8, todo)), n)
  {
  }

  lemma CleaningFail(H: seq<nat> -> string, s: Store, n: Name)
    requires Inv(H, s) && Enabled(H, s, Fail)
    ensures CleaningAt(Apply(H, s, Fail), n)
  {
    var job, stage := s.proc.job, s.proc.stage;
    assert NameOk(H, s, n) && NameOk(H, s, Marker) && GenOk(s, job.g);
    CleanupMembers(job, stage, n);
    CleanupMembers(job, stage, Marker);
    if stage < 8 && n in s.dir && GenOf(n) == Some(job.g) {
      PlacedCleaned(H, job, stage, n);
    }
    CleaningBegun(H, s, CleanupList(job, stage), n);
  }

  lemma CleaningNext(H: seq<nat> -> string, s: Store, ok: bool, n: Name)
    requires Inv(H, s) && Enabled(H, s, Next(ok)) && s.proc.Cleaning?
    ensures CleaningAt(Apply(H, s, Next(ok)), n)
  {
    assert NameOk(H, s, n) && NameOk(H, s, Marker);
    assert s.proc.todo == [s.proc.todo[0]] + s.proc.todo[1..];
  }

  lemma CleaningStep(H: seq<nat> -> string, s: Store, l: Label, n: Name)
    requires Inv(H, s) && Enabled(H, s, l)
    ensures CleaningAt(Apply(H, s, l), n)
  {
    if l.Fail? {
      CleaningFail(H, s, n);
    } else if l.Next? && s.proc.Cleaning? {
      CleaningNext(H, s, l.ok, n);
    }
  }

  /** A file of the running publication is a draft before the marker, and tracked after. */
  lemma TrackedOwn(H: seq<nat> -> string, s: Store, n: Name)
    requires Inv(H, s) && Enabled(H, s, Advance) && GenOf(n) == Some(s.proc.job.g)
    ensures TrackedAt(Apply(H, s, Advance), n)
  {
    assert GenOk(s, s.proc.job.g);
    PublishingAdvance(H, s, n);
    PublishingAdvance(H, s, Marker);
  }

  lemma TrackedOther(H: seq<nat> -> string, s: Store, n: Name)
    requires Inv(H, s) && Enabled(H, s, Advance) && GenOf(n).Some? && GenOf(n) != Some(s.proc.job.g)
    ensures TrackedAt(Apply(H, s, Advance), n)
  {
    assert NameOk(H, s, n) && NameOk(H, s, Marker);
    PublishingAdvance(H, s, Marker);
    SourceThere(H, s);
    PerformAt(s.dir, Program(H, s.proc.job, s.proc.stage), n);
  }

  lemma TrackedMove(H: seq<nat> -> string, s: Store, ok: bool, n: Name)
    requires Inv(H, s) && Enabled(H, s, Next(ok)) && s.proc.Recovering?
    ensures TrackedAt(Apply(H, s, Next(ok)), n)
  {
    assert NameOk(H, s, n) && NameOk(H, s, Marker) && NameOk(H, s, s.proc.todo[0]);
    assert s.proc.todo == [s.proc.todo[0]] + s.proc.todo[1..];
  }

  lemma TrackedErase(H: seq<nat> -> string, s: Store, ok: bool, n: Name)
    requires Inv(H, s) && Enabled(H, s, Next(ok)) && s.proc.Cleaning?
    ensures TrackedAt(Apply(H, s, Next(ok)), n)
  {
    assert NameOk(H, s, n) && NameOk(H, s, Marker);
    assert s.proc.todo == [s.proc.todo[0]] + s.proc.todo[1..];
    if GenOf(n).Some? {
      assert GenOk(s, GenOf(n).value);
    }
  }

  lemma TrackedElse(H: seq<nat> -> string, s: Store, l: Label, n: Name)
    requires Inv(H, s) && Enabled(H, s, l) && !l.Advance? && !l.Next?
    ensures TrackedAt(Apply(H, s, l), n)
  {
    if l.Tear? {
      TrackedTear(H, s, n);
    } else {
      assert NameOk(H, s, n) && NameOk(H, s, Marker);
      if l.Finalize? {
        assert IntactAt(H, s, l.m);
      }
    }
  }

  lemma TrackedTear(H: seq<nat> -> string, s: Store, n: Name)
    requires Inv(H, s) && Enabled(H, s, Tear)
    ensures TrackedAt(Apply(H, s, Tear), n)
  {
    assert NameOk(H, s, n) && NameOk(H, s, Marker);
    assert GenOk(s, s.proc.job.g);
  }

  lemma TrackedStep(H: seq<nat> -> string, s: Store, l: Label, n: Name)
    requires Inv(H, s) && Enabled(H, s, l)
    ensures TrackedAt(Apply(H, s, l), n)
  {
    if l.Advance? {
      if GenOf(n) == Some(s.proc.job.g) {
        TrackedOwn(H, s, n);
      } else if GenOf(n).Some? {
        TrackedOther(H, s, n);
      }
    } else if l.Next? {
      if s.proc.Recovering? {
        TrackedMove(H, s, l.ok, n);
      } else {
        TrackedErase(H, s, l.ok, n);
      }
    } else {
      TrackedElse(H, s, l, n);
    }
  }

  /** What a stage before the commit leaves alone. */
  lemma UntouchedBefore(H: seq<nat> -> string, s: Store, n: Name)
    requires Inv(H, s) && Enabled(H, s, Advance) && s.proc.stage < 7
    requires n != Marker && GenOf(n) != Some(s.proc.job.g)
    ensures At(Apply(H, s, Advance).dir, n) == At(s.dir, n)
  {
    SourceThere(H, s);
    PerformAt(s.dir, Program(H, s.proc.job, s.proc.stage), n);
  }

  lemma MarkerAfter(H: seq<nat> -> string, s: Store)
    requires Inv(H, s) && Enabled(H, s, Advance)
    ensures At(Apply(H, s, Advance).dir, Marker) == (if s.proc.stage == 0 then None else Some(MarkerOf(s.proc.job)))
  {
    PublishingAdvance(H, s, Marker);
  }

  lemma IntactAdvance(H: seq<nat> -> string, s: Store, m: Target)
    requires Inv(H, s) && Enabled(H, s, Advance) && s.proc.stage < 7
    ensures IntactAt(H, Apply(H, s, Advance), m)
  {
    assert IntactAt(H, s, m) && NameOk(H, s, Manifest(s.proc.job.m));
    UntouchedBefore(H, s, Manifest(m));
    if m in s.published {
      MarkerAfter(H, s);
      UntouchedBefore(H, s, Speaker(s.published[m].g));
      UntouchedBefore(H, s, Rvq(s.published[m].g));
    }
  }

  lemma CommitAt(H: seq<nat> -> string, s: Store, n: Name)
    requires Inv(H, s) && Enabled(H, s, Advance) && s.proc.stage == 7
    ensures At(Apply(H, s, Advance).dir, n) ==
      if n == Manifest(s.proc.job.m) then Some(ManifestDoc(DocumentOf(H, s.proc.job)))
      else if n == ManifestTemp(s.proc.job.m, s.proc.job.g) then None else At(s.dir, n)
  {
    SourceThere(H, s);
    PerformAt(s.dir, Program(H, s.proc.job, s.proc.stage), n);
  }

  lemma IntactCommit(H: seq<nat> -> string, s: Store, m: Target)
    requires Inv(H, s) && Enabled(H, s, Advance) && s.proc.stage == 7
    ensures IntactAt(H, Apply(H, s, Advance), m)
  {
    var job := s.proc.job;
    assert IntactAt(H, s, m) && NameOk(H, s, Manifest(job.m));
    CommitAt(H, s, Manifest(m));
    MarkerAfter(H, s);
    if m == job.m {
      assert NameOk(H, s, Speaker(job.g)) && NameOk(H, s, Rvq(job.g));
      CommitAt(H, s, Speaker(job.g));
      CommitAt(H, s, Rvq(job.g));
    } else if m in s.published {
      CommitAt(H, s, Speaker(s.published[m].g));
      CommitAt(H, s, Rvq(s.published[m].g));
    }
  }

  /** Recovery and cleanup touch one name outside quarantine. */
  lemma UntouchedByMove(s: Store, n: Name)
    requires s.proc.Recovering? && s.proc.todo != [] && n != s.proc.todo[0] && !n.Quarantined?
    ensures At(MoveOwned(s, s.proc.todo[0]).dir, n) == At(s.dir, n)
  {
  }

  lemma UntouchedByErase(s: Store, x: Name, ok: bool, n: Name)
    requires n != x
    ensures At(Erase(s, x, ok).dir, n) == At(s.dir, n)
  {
  }

  lemma IntactMove(H: seq<nat> -> string, s: Store, ok: bool, m: Target)
    requires Inv(H, s) && Enabled(H, s, Next(ok)) && s.proc.Recovering?
    ensures IntactAt(H, Apply(H, s, Next(ok)), m)
  {
    var x := s.proc.todo[0];
    assert IntactAt(H, s, m) && NameOk(H, s, x);
    UntouchedByMove(s, Manifest(m));
    if m in s.published {
      UntouchedByMove(s, Speaker(s.published[m].g));
      UntouchedByMove(s, Rvq(s.published[m].g));
      if x != Marker {
        UntouchedByMove(s, Marker);
      }
    }
  }

  lemma IntactErase(H: seq<nat> -> string, s: Store, ok: bool, m: Target)
    requires Inv(H, s) && Enabled(H, s, Next(ok)) && s.proc.Cleaning?
    ensures IntactAt(H, Apply(H, s, Next(ok)), m)
  {
    var x := s.proc.todo[0];
    assert IntactAt(H, s, m) && NameOk(H, s, x);
    UntouchedByErase(s, x, ok, Manifest(m));
    if m in s.published {
      UntouchedByErase(s, x, ok, Speaker(s.published[m].g));
      UntouchedByErase(s, x, ok, Rvq(s.published[m].g));
      if x != Marker {
        UntouchedByErase(s, x, ok, Marker);
      }
    }
  }

  lemma IntactStep(H: seq<nat> -> string, s: Store, l: Label, m: Target)
    requires Inv(H, s) && Enabled(H, s, l)
    ensures IntactAt(H, Apply(H, s, l), m)
  {
    if l.Advance? {
      if s.proc.stage == 7 {
        IntactCommit(H, s, m);
      } else {
        IntactAdvance(H, s, m);
      }
    } else if l.Next? {
      if s.proc.Recovering? {
        IntactMove(H, s, l.ok, m);
      } else {
        IntactErase(H, s, l.ok, m);
      }
    } else {
      assert IntactAt(H, s, m) && NameOk(H, s, Marker);
      if l.Tear? {
        IntactTear(H, s, m);
      } else {
        IntactElse(H, s, l, m);
      }
    }
  }

  /** A torn write hits only a draft of the running publication. */
  lemma IntactTear(H: seq<nat> -> string, s: Store, m: Target)
    requires Enabled(H, s, Tear) && IntactAt(H, s, m) && PublishingAt(H, s, Marker)
    ensures IntactAt(H, Apply(H, s, Tear), m)
  {
    var n := Program(H, s.proc.job, s.proc.stage).n;
    assert n != Marker && !n.Manifest? && !n.Speaker? && !n.Rvq?;
  }

  /** Closing steps change the process, and at most remove the marker. */
  lemma IntactElse(H: seq<nat> -> string, s: Store, l: Label, m: Target)
    requires Enabled(H, s, l) && !l.Advance? && !l.Next? && !l.Tear?
    requires IntactAt(H, s, m) && PublishingAt(H, s, Marker) && KnownAt(s, Marker)
    ensures IntactAt(H, Apply(H, s, l), m)
  {
    var after := Apply(H, s, l);
    assert after.published == s.published && after.voiceOf == s.voiceOf && s.used <= after.used;
    assert after.dir == s.dir || after.dir == s.dir - {Marker};
  }

  lemma VoiceStep(H: seq<nat> -> string, s: Store, l: Label, g: Generation)
    requires Inv(H, s) && Enabled(H, s, l)
    ensures VoiceAt(Apply(H, s, l), g)
  {
    assert GenOk(s, g);
    if l.Advance? {
      assert NameOk(H, s, Manifest(s.proc.job.m)) && IntactAt(H, s, s.proc.job.m);
    }
  }

  lemma UnmarkedStep(H: seq<nat> -> string, s: Store, l: Label, g: Generation)
    requires Inv(H, s) && Enabled(H, s, l)
    ensures UnmarkedAt(Apply(H, s, l), g)
  {
    assert GenOk(s, g) && NameOk(H, s, Marker);
    if l.Advance? {
      MarkerAfter(H, s);
    } else if l.Next? && s.proc.Recovering? {
      assert NameOk(H, s, s.proc.todo[0]);
    }
  }

  lemma NoConflict(H: seq<nat> -> string, s: Store, l: Label)
    requires Inv(H, s) && Enabled(H, s, l)
    ensures !Apply(H, s, l).conflict
  {
    if l.Next? {
      var n := s.proc.todo[0];
      assert NameOk(H, s, n);
      if s.proc.Recovering? {
        assert NameOk(H, s, Quarantined(s.proc.g, n));
      }
    }
  }

  lemma StepInv(H: seq<nat> -> string, s: Store, l: Label)
    requires Inv(H, s)
    ensures Inv(H, Step(H, s, l))
  {
    if Enabled(H, s, l) {
      NoConflict(H, s, l);
      forall n ensures NameOk(H, Apply(H, s, l), n) {
        KnownStep(H, s, l, n);
        OwnedStep(H, s, l, n);
        PublishingStep(H, s, l, n);
        RecoveringStep(H, s, l, n);
        CleaningStep(H, s, l, n);
        TrackedStep(H, s, l, n);
      }
      forall m ensures IntactAt(H, Apply(H, s, l), m) {
        IntactStep(H, s, l, m);
      }
      forall g ensures GenOk(Apply(H, s, l), g) {
        VoiceStep(H, s, l, g);
        UnmarkedStep(H, s, l, g);
      }
    }
  }

  lemma {:induction false} RunInv(H: seq<nat> -> string, schedule: seq<Label>)
    ensures Inv(H, Run(H, schedule))
  {
    if schedule != [] {
      RunInv(H, schedule[..|schedule| - 1]);
      StepInv(H, Run(H, schedule[..|schedule| - 1]), schedule[|schedule| - 1]);
    }
  }
}
