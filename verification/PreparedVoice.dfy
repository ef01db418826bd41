/** Loading a published voice, and what publication and recovery guarantee over whole runs. */
module PreparedVoice {
  import opened Basics
  import opened Bits
  import opened RvqCodec
  import opened Publication
  import opened PublicationSafety

  datatype Voice = Voice(speaker: seq<nat>, codes: seq<nat>, frames: nat)

  /** A voice matches when its transcript, mode and provenance are the requested ones and,
      with RVQ data, its codebook count is. */
  predicate SameIdentity(a: Identity, b: Identity) {
    a.text == b.text && a.xVectorOnly == b.xVectorOnly && a.provenance == b.provenance &&
    (!a.xVectorOnly ==> a.codebooks == b.codebooks)
  }

  function ReadArtifact(H: seq<nat> -> string, dir: Directory, n: Name, expected: Artifact, limit: nat): Result<seq<nat>> {
    if n !in dir || !dir[n].Data? then Err("missing artifact")
    else
      var bytes := dir[n].bytes;
      if |bytes| == 0 || |bytes| != expected.size || |bytes| > limit then Err("size mismatch")
      else if H(bytes) != expected.digest then Err("SHA-256 mismatch")
      else Ok(bytes)
  }

  function LoadSpeaker(H: seq<nat> -> string, dir: Directory, doc: Document): Result<seq<nat>> {
    if doc.dimension == 0 || doc.dimension > MAX_SPEAKER_DIMENSION || doc.speaker.size != 4 * doc.dimension ||
       doc.speaker.size > MAX_SPEAKER_BYTES then Err("speaker dimensions")
    else
      var r := ReadArtifact(H, dir, Speaker(doc.g), doc.speaker, MAX_SPEAKER_BYTES);
      if r.Ok? && !AllFinite(r.value) then Err("NaN or Inf") else r
  }

  function LoadCodes(H: seq<nat> -> string, dir: Directory, doc: Document, wanted: Identity): Result<seq<nat>> {
    if doc.rvq.None? then Err("RVQ data required")
    else
      var e := doc.rvq.value;
      if e.codebooks != wanted.codebooks || e.codebooks == 0 || e.codebooks > MAX_CODEBOOKS ||
         e.frames == 0 || e.frames > MAX_FRAMES then Err("RVQ layout")
      else if e.file.size != PackedSize(e.codebooks * e.frames) || e.file.size > MAX_RVQ_BYTES then Err("RVQ size")
      else
        var r := ReadArtifact(H, dir, Rvq(doc.g), e.file, MAX_RVQ_BYTES);
        if r.Err? then r else Ok(Unpack(r.value, e.codebooks * e.frames))
  }

  function Load(H: seq<nat> -> string, dir: Directory, m: Target, wanted: Identity): Result<Voice> {
    if Manifest(m) !in dir || !dir[Manifest(m)].ManifestDoc? then Err("invalid manifest")
    else
      var doc := dir[Manifest(m)].doc;
      if doc.encodedSize > MAX_MANIFEST_BYTES then Err("manifest is too large")
      else if doc.identity.text != wanted.text || doc.identity.xVectorOnly != wanted.xVectorOnly ||
              doc.identity.provenance != wanted.provenance then Err("identity mismatch")
      else
        var speaker := LoadSpeaker(H, dir, doc);
        if speaker.Err? then Err(speaker.error)
        else if wanted.xVectorOnly then
          (if doc.rvq.Some? then Err("unexpected RVQ data") else Ok(Voice(speaker.value, [], 0)))
        else
          var codes := LoadCodes(H, dir, doc, wanted);
          if codes.Err? then Err(codes.error) else Ok(Voice(speaker.value, codes.value, doc.rvq.value.frames))
  }

  /** What was extracted for a job. */
  function Extracted(job: Job): Voice {
    if job.identity.xVectorOnly then Voice(job.speaker, [], 0) else Voice(job.speaker, job.codes, job.frames)
  }

  // ----- loading -----

  lemma LoadsSpeaker(H: seq<nat> -> string, dir: Directory, job: Job)
    requires Publishable(job) && At(dir, Speaker(job.g)) == Some(Data(job.speaker))
    ensures LoadSpeaker(H, dir, DocumentOf(H, job)) == Ok(job.speaker)
  {
  }

  /** No voice that passes the layout checks packs into more than the reader accepts. */
  lemma PackedWithinLimit(codebooks: nat, frames: nat)
    requires 0 < codebooks <= MAX_CODEBOOKS && 0 < frames <= MAX_FRAMES
    ensures 0 < PackedSize(codebooks * frames) <= MAX_RVQ_BYTES
  {
    MulLe(frames, 1, codebooks);
    MulLe(frames, codebooks, MAX_CODEBOOKS);
  }

  lemma PackLength(codes: seq<nat>)
    ensures |Pack(codes)| == PackedSize(|codes|)
  {
  }

  lemma LoadsPacked(H: seq<nat> -> string, dir: Directory, doc: Document, bytes: seq<nat>, codes: seq<nat>, wanted: Identity)
    requires doc.rvq.Some? && At(dir, Rvq(doc.g)) == Some(Data(bytes))
    requires 0 < doc.rvq.value.codebooks <= MAX_CODEBOOKS && 0 < doc.rvq.value.frames <= MAX_FRAMES
    requires |codes| == doc.rvq.value.codebooks * doc.rvq.value.frames
    requires doc.rvq.value.file == Artifact(|bytes|, H(bytes)) && 0 < |bytes| == PackedSize(|codes|) <= MAX_RVQ_BYTES
    requires Unpack(bytes, |codes|) == codes
    ensures LoadCodes(H, dir, doc, wanted) ==
      if wanted.codebooks == doc.rvq.value.codebooks then Ok(codes) else Err("RVQ layout")
  {
  }

  lemma LoadsCodes(H: seq<nat> -> string, dir: Directory, job: Job, wanted: Identity)
    requires Publishable(job) && !job.identity.xVectorOnly && CodesInRange(job.codes)
    requires At(dir, Rvq(job.g)) == Some(Data(Pack(job.codes)))
    ensures LoadCodes(H, dir, DocumentOf(H, job), wanted) ==
      if wanted.codebooks == job.identity.codebooks then Ok(job.codes) else Err("RVQ layout")
  {
    PackedWithinLimit(job.identity.codebooks, job.frames);
    UnpackPack(job.codes);
    PackLength(job.codes);
    LoadsPacked(H, dir, DocumentOf(H, job), Pack(job.codes), job.codes, wanted);
  }

  /** In every reachable store, with crashes anywhere: a target loads exactly when it was
      committed, is asked for under its own identity and has a manifest within the limit
      that loading enforces and publishing does not; it then yields what was extracted. */
  lemma LoadExactlyPublished(H: seq<nat> -> string, schedule: seq<Label>, m: Target, wanted: Identity)
    ensures var s := Run(H, schedule); var r := Load(H, s.dir, m, wanted);
      && (r.Ok? <==> m in s.published && SameIdentity(s.published[m].identity, wanted) &&
                     s.published[m].manifestSize <= MAX_MANIFEST_BYTES)
      && (r.Ok? ==> r.value == Extracted(s.published[m]))
  {
    RunInv(H, schedule);
    var s := Run(H, schedule);
    assert IntactAt(H, s, m);
    if m in s.published {
      var job := s.published[m];
      LoadsSpeaker(H, s.dir, job);
      if !job.identity.xVectorOnly {
        LoadsCodes(H, s.dir, job, wanted);
      }
    }
  }

  // ----- whole runs -----

  function RunFrom(H: seq<nat> -> string, s: Store, labels: seq<Label>): Store
    decreases |labels|
  {
    if labels == [] then s else RunFrom(H, Step(H, s, labels[0]), labels[1..])
  }

  lemma {:induction false} RunSplits(H: seq<nat> -> string, schedule: seq<Label>, rest: seq<Label>)
    ensures Run(H, schedule + rest) == RunFrom(H, Run(H, schedule), rest)
    decreases |rest|
  {
    if rest == [] {
      assert schedule + rest == schedule;
    } else {
      var more := schedule + [rest[0]];
      assert more[..|more| - 1] == schedule;
      assert more + rest[1..] == schedule + rest;
      RunSplits(H, more, rest[1..]);
    }
  }

  /** A visible manifest names artifacts that exist with the recorded size, digest and
      content, after any schedule. */
  lemma VisibleManifestIntact(H: seq<nat> -> string, schedule: seq<Label>, m: Target)
    ensures var dir := Run(H, schedule).dir;
      Manifest(m) in dir ==>
        && dir[Manifest(m)].ManifestDoc?
        && var doc := dir[Manifest(m)].doc;
        && ReadArtifact(H, dir, Speaker(doc.g), doc.speaker, MAX_SPEAKER_BYTES).Ok?
        && (doc.rvq.Some? ==> ReadArtifact(H, dir, Rvq(doc.g), doc.rvq.value.file, MAX_RVQ_BYTES).Ok?)
  {
    RunInv(H, schedule);
    var s := Run(H, schedule);
    assert IntactAt(H, s, m);
    if m in s.published {
      var job := s.published[m];
      LoadsSpeaker(H, s.dir, job);
      if !job.identity.xVectorOnly {
        LoadsCodes(H, s.dir, job, job.identity);
      }
    }
  }

  lemma PublishedKept(H: seq<nat> -> string, s: Store, l: Label, m: Target)
    requires Inv(H, s) && m in s.published
    ensures m in Step(H, s, l).published && Step(H, s, l).published[m] == s.published[m]
  {
    if Enabled(H, s, l) && l.Advance? {
      assert NameOk(H, s, Manifest(s.proc.job.m)) && IntactAt(H, s, s.proc.job.m);
    }
  }

  /** A committed voice is never lost or replaced. */
  lemma {:induction false} PublishedForever(H: seq<nat> -> string, schedule: seq<Label>, rest: seq<Label>, m: Target)
    requires m in Run(H, schedule).published
    ensures m in Run(H, schedule + rest).published
    ensures Run(H, schedule + rest).published[m] == Run(H, schedule).published[m]
    decreases |rest|
  {
    if rest == [] {
      assert schedule + rest == schedule;
    } else {
      var more := schedule + [rest[0]];
      RunInv(H, schedule);
      PublishedKept(H, Run(H, schedule), rest[0], m);
      assert more[..|more| - 1] == schedule && more + rest[1..] == schedule + rest;
      PublishedForever(H, more, rest[1..], m);
    }
  }

  // ----- recovery -----

  function Nexts(k: nat): seq<Label> {
    if k == 0 then [Finish] else [Next(true)] + Nexts(k - 1)
  }

  /** Where a file of generation g is. */
  predicate Kept(dir: Directory, g: Generation, n: Name, c: Content) {
    At(dir, n) == Some(c) || At(dir, Quarantined(g, n)) == Some(c)
  }

  lemma NextMoves(H: seq<nat> -> string, s: Store, n: Name, c: Content)
    requires Inv(H, s) && s.proc.Recovering? && s.proc.todo != [] && Kept(s.dir, s.proc.g, n, c)
    ensures var after := Step(H, s, Next(true));
      Inv(H, after) && after.proc == Recovering(s.proc.g, s.proc.m, s.proc.todo[1..]) && Kept(after.dir, s.proc.g, n, c)
  {
    assert NameOk(H, s, s.proc.todo[0]) && NameOk(H, s, Quarantined(s.proc.g, s.proc.todo[0]));
    StepInv(H, s, Next(true));
  }

  lemma {:induction false} MovesAll(H: seq<nat> -> string, s: Store, n: Name, c: Content)
    requires Inv(H, s) && s.proc.Recovering? && Kept(s.dir, s.proc.g, n, c)
    requires n == Marker || GenOf(n) == Some(s.proc.g)
    ensures var after := RunFrom(H, s, Nexts(|s.proc.todo|));
      after.proc.Idle? && Marker !in after.dir && At(after.dir, Quarantined(s.proc.g, n)) == Some(c) && n !in after.dir
    decreases |s.proc.todo|
  {
    if s.proc.todo == [] {
      assert NameOk(H, s, n);
      assert RunFrom(H, Step(H, s, Finish), []) == Step(H, s, Finish);
    } else {
      NextMoves(H, s, n, c);
      MovesAll(H, Step(H, s, Next(true)), n, c);
      assert Nexts(|s.proc.todo|)[1..] == Nexts(|s.proc.todo| - 1);
    }
  }

  /** Recovery that runs to its end, from any reachable store and after any number of
      interrupted recoveries, moves every file of the marker's generation and the marker
      itself into quarantine, with their content. */
  lemma RecoveryCompletes(H: seq<nat> -> string, schedule: seq<Label>, m: Target, n: Name)
    requires var s := Run(H, schedule);
      Enabled(H, s, StartRecover(m)) && n in s.dir && (n == Marker || GenOf(n) == Some(s.dir[Marker].g))
    ensures var s := Run(H, schedule); var g := s.dir[Marker].g;
      var recovery := [StartRecover(m)] + Nexts(|OwnedList(g, m, s.dir[Marker].withRvq)|);
      var after := Run(H, schedule + recovery);
      after.proc.Idle? && Marker !in after.dir && n !in after.dir &&
      At(after.dir, Quarantined(g, n)) == Some(s.dir[n])
  {
    RunInv(H, schedule);
    var s := Run(H, schedule);
    var nexts := Nexts(|OwnedList(s.dir[Marker].g, m, s.dir[Marker].withRvq)|);
    StepInv(H, s, StartRecover(m));
    MovesAll(H, Step(H, s, StartRecover(m)), n, s.dir[n]);
    assert ([StartRecover(m)] + nexts)[1..] == nexts;
    RunSplits(H, schedule, [StartRecover(m)] + nexts);
  }

  /** When recovery is about to return, whatever was interrupted before, no file of that
      generation is left outside quarantine; its conflict errors never happen. */
  lemma RecoveredCleanly(H: seq<nat> -> string, schedule: seq<Label>)
    ensures var s := Run(H, schedule);
      && !s.conflict
      && (s.proc.Recovering? && s.proc.todo == [] ==>
            && Marker !in s.dir && Manifest(s.proc.m) !in s.dir
            && forall n :: n in s.dir ==> GenOf(n) != Some(s.proc.g))
  {
    RunInv(H, schedule);
    var s := Run(H, schedule);
    if s.proc.Recovering? && s.proc.todo == [] {
      assert NameOk(H, s, Marker);
      forall n | n in s.dir ensures GenOf(n) != Some(s.proc.g) {
        assert NameOk(H, s, n);
      }
    }
  }

  // ----- leftovers -----

  /** After every schedule, a file of a generation is out of reach, its generation neither
      committed nor named by the marker, exactly when it is a marker draft or its own removal
      failed in the cleanup of an uncommitted publication that then removed the marker. */
  lemma LeaksExactly(H: seq<nat> -> string, schedule: seq<Label>, n: Name)
    requires n in Run(H, schedule).dir && GenOf(n).Some?
    ensures var s := Run(H, schedule); var g := GenOf(n).value;
      g !in s.voiceOf && !(Marker in s.dir && s.dir[Marker].MarkerDoc? && s.dir[Marker].g == g) <==>
      n.MarkerTemp? || (n in s.unremoved && g in s.unmarked)
  {
    RunInv(H, schedule);
    assert NameOk(H, Run(H, schedule), n);
  }

  /** Every other file belongs to a voice that is published, or is one that recovery moves. */
  lemma OthersFound(H: seq<nat> -> string, schedule: seq<Label>, n: Name)
    requires n in Run(H, schedule).dir && GenOf(n).Some? && !Untracked(Run(H, schedule), n)
    ensures var s := Run(H, schedule); var g := GenOf(n).value;
      || (g in s.voiceOf && s.voiceOf[g] in s.published && s.published[s.voiceOf[g]].g == g)
      || (Marker in s.dir && s.dir[Marker].MarkerDoc? && s.dir[Marker].g == g &&
          n in OwnedList(g, s.dir[Marker].m, s.dir[Marker].withRvq))
  {
    RunInv(H, schedule);
    var s := Run(H, schedule);
    assert NameOk(H, s, n) && GenOk(s, GenOf(n).value);
  }

  /** Out of reach, and of no generation that is being published or cleaned up. */
  ghost predicate Lost(s: Store, n: Name, c: Content) {
    At(s.dir, n) == Some(c) && Untracked(s, n) && GenOf(n).value in s.used &&
    (s.proc.Publishing? || s.proc.Cleaning? ==> Some(s.proc.job.g) != GenOf(n))
  }

  lemma LostStays(H: seq<nat> -> string, s: Store, l: Label, n: Name, c: Content)
    requires Inv(H, s) && Lost(s, n, c)
    ensures Lost(Step(H, s, l), n, c)
  {
    if Enabled(H, s, l) {
      if l.Next? {
        LostNext(H, s, l.ok, n, c);
      } else if l.Advance? {
        LostAdvance(H, s, n, c);
      } else {
        assert NameOk(H, s, Marker);
      }
    }
  }

  lemma LostAdvance(H: seq<nat> -> string, s: Store, n: Name, c: Content)
    requires Inv(H, s) && Enabled(H, s, Advance) && Lost(s, n, c)
    ensures Lost(Apply(H, s, Advance), n, c)
  {
    PublishingAdvance(H, s, Marker);
    SourceThere(H, s);
    PerformAt(s.dir, Program(H, s.proc.job, s.proc.stage), n);
  }

  lemma LostNext(H: seq<nat> -> string, s: Store, ok: bool, n: Name, c: Content)
    requires Inv(H, s) && Enabled(H, s, Next(ok)) && Lost(s, n, c)
    ensures Lost(Apply(H, s, Next(ok)), n, c)
  {
    var x := s.proc.todo[0];
    assert NameOk(H, s, x) && NameOk(H, s, Marker);
    assert x != n;
    if s.proc.Recovering? {
      UntouchedByMove(s, n);
    } else {
      UntouchedByErase(s, x, ok, n);
    }
  }

  /** Nothing that runs later removes, quarantines or changes a lost file. */
  lemma {:induction false} LostForever(H: seq<nat> -> string, s: Store, rest: seq<Label>, n: Name, c: Content)
    requires Inv(H, s) && Lost(s, n, c)
    ensures Lost(RunFrom(H, s, rest), n, c)
    decreases |rest|
  {
    if rest != [] {
      LostStays(H, s, rest[0], n, c);
      StepInv(H, s, rest[0]);
      LostForever(H, Step(H, s, rest[0]), rest[1..], n, c);
    }
  }

  /** A crash of any reachable publication before its marker is in place leaves the draft, if
      there is one, for good; from the first completed stage on there is one. */
  lemma DraftLeaks(H: seq<nat> -> string, schedule: seq<Label>, rest: seq<Label>)
    requires var p := Run(H, schedule).proc; p.Publishing? && p.stage <= 1
    ensures var s := Run(H, schedule); var n := MarkerTemp(s.proc.job.g);
      && (s.proc.stage == 1 ==> n in s.dir)
      && (n in s.dir ==> Lost(Run(H, schedule + ([Crash] + rest)), n, s.dir[n]))
  {
    RunInv(H, schedule);
    var s := Run(H, schedule);
    var n := MarkerTemp(s.proc.job.g);
    assert NameOk(H, s, n) && NameOk(H, s, Marker);
    if n in s.dir {
      StepInv(H, s, Crash);
      LostForever(H, Step(H, s, Crash), rest, n, s.dir[n]);
      RunSplits(H, schedule, [Crash] + rest);
      assert ([Crash] + rest)[1..] == rest;
    }
  }

  // ----- cleanups whose removals may fail -----

  /** The directory after removing the listed files, where `oks` says which removals worked. */
  function RemovedBy(dir: Directory, names: seq<Name>, oks: seq<bool>): Directory
    requires |names| == |oks|
  {
    if names == [] then dir else RemovedBy(if oks[0] then dir - {names[0]} else dir, names[1..], oks[1..])
  }

  lemma {:induction false} RemovedAt(dir: Directory, names: seq<Name>, oks: seq<bool>, n: Name)
    requires |names| == |oks|
    ensures (forall i :: 0 <= i < |names| && names[i] == n ==> !oks[i]) ==> At(RemovedBy(dir, names, oks), n) == At(dir, n)
    ensures (exists i :: 0 <= i < |names| && names[i] == n && oks[i]) ==> n !in RemovedBy(dir, names, oks)
  {
    if names != [] {
      RemovedAt(if oks[0] then dir - {names[0]} else dir, names[1..], oks[1..], n);
      if oks[0] && n == names[0] {
        OnlyLess(dir - {n}, names[1..], oks[1..], n);
      }
      if forall i :: 0 <= i < |names| && names[i] == n ==> !oks[i] {
        assert forall i :: 0 <= i < |names[1..]| ==> names[1..][i] == names[i + 1] && oks[1..][i] == oks[i + 1];
      }
      if exists i :: 0 <= i < |names| && names[i] == n && oks[i] {
        var i :| 0 <= i < |names| && names[i] == n && oks[i];
        if i > 0 {
          assert names[1..][i - 1] == n && oks[1..][i - 1];
        }
      }
    }
  }

  lemma {:induction false} OnlyLess(dir: Directory, names: seq<Name>, oks: seq<bool>, n: Name)
    requires |names| == |oks| && n !in dir
    ensures n !in RemovedBy(dir, names, oks)
  {
    if names != [] {
      OnlyLess(if oks[0] then dir - {names[0]} else dir, names[1..], oks[1..], n);
    }
  }

  function Removals(oks: seq<bool>): seq<Label> {
    if oks == [] then [Finish] else [Next(oks[0])] + Removals(oks[1..])
  }

  /** A cleanup that runs to its end has made exactly these removals. */
  lemma {:induction false} CleanupRun(H: seq<nat> -> string, s: Store, oks: seq<bool>)
    requires s.proc.Cleaning? && |oks| == |s.proc.todo|
    ensures var after := RunFrom(H, s, Removals(oks));
      after.proc.Idle? && after.dir == RemovedBy(s.dir, s.proc.todo, oks) &&
      after.voiceOf == s.voiceOf && after.used == s.used
    decreases |oks|
  {
    if oks == [] {
      assert RunFrom(H, Step(H, s, Finish), []) == Step(H, s, Finish);
    } else {
      CleanupRun(H, Step(H, s, Next(oks[0])), oks[1..]);
      assert Removals(oks)[1..] == Removals(oks[1..]);
    }
  }

  lemma CleanupDistinct(job: Job, stage: nat, i: nat, k: nat)
    requires i < k < |CleanupList(job, stage)|
    ensures CleanupList(job, stage)[i] != CleanupList(job, stage)[k]
  {
  }

  /** The marker goes and file i stays. */
  predicate KeepsOnly(names: seq<Name>, oks: seq<bool>, i: nat) {
    |oks| == |names| && i < |names| && names[i] != Marker && !oks[i] &&
    (forall k :: 0 <= k < |names| && names[k] == Marker ==> oks[k])
  }

  lemma KeptByCleanup(dir: Directory, job: Job, stage: nat, oks: seq<bool>, i: nat)
    requires stage < 8 && KeepsOnly(CleanupList(job, stage), oks, i)
    ensures var names := CleanupList(job, stage); var after := RemovedBy(dir, names, oks);
      At(after, names[i]) == At(dir, names[i]) && Marker !in after
  {
    var names := CleanupList(job, stage);
    CleanupMembers(job, stage, Marker);
    forall k | 0 <= k < |names| && names[k] == names[i] ensures !oks[k] {
      if k < i {
        CleanupDistinct(job, stage, k, i);
      } else if i < k {
        CleanupDistinct(job, stage, i, k);
      }
    }
    RemovedAt(dir, names, oks, names[i]);
    RemovedAt(dir, names, oks, Marker);
  }

  lemma LostByCleanup(H: seq<nat> -> string, s: Store, oks: seq<bool>, i: nat)
    requires s.proc.Publishing? && s.proc.stage < 8 && PublishingAt(H, s, Marker)
    requires KeepsOnly(CleanupList(s.proc.job, s.proc.stage), oks, i)
    requires CleanupList(s.proc.job, s.proc.stage)[i] in s.dir
    ensures var after := RunFrom(H, s, [Fail] + Removals(oks)); var n := CleanupList(s.proc.job, s.proc.stage)[i];
      after.proc.Idle? && Marker !in after.dir && Lost(after, n, s.dir[n])
  {
    FailureRun(H, s, oks);
    CleanupMembers(s.proc.job, s.proc.stage, CleanupList(s.proc.job, s.proc.stage)[i]);
    KeptByCleanup(s.dir, s.proc.job, s.proc.stage, oks, i);
  }

  lemma FailureRun(H: seq<nat> -> string, s: Store, oks: seq<bool>)
    requires s.proc.Publishing? && |oks| == |CleanupList(s.proc.job, s.proc.stage)|
    ensures var after := RunFrom(H, s, [Fail] + Removals(oks));
      && after.proc.Idle? && after.dir == RemovedBy(s.dir, CleanupList(s.proc.job, s.proc.stage), oks)
      && after.voiceOf == s.voiceOf && after.used == s.used
  {
    var cleaning := Step(H, s, Fail);
    assert cleaning.proc.todo == CleanupList(s.proc.job, s.proc.stage) && cleaning.dir == s.dir;
    CleanupRun(H, cleaning, oks);
    assert ([Fail] + Removals(oks))[1..] == Removals(oks);
  }

  /** In any reachable publication that fails before its commit: a file whose removal fails
      while that of the marker works stays for good, with its content. */
  lemma FailedRemovalLeaks(H: seq<nat> -> string, schedule: seq<Label>, oks: seq<bool>, i: nat, rest: seq<Label>)
    requires var s := Run(H, schedule); s.proc.Publishing? && s.proc.stage < 8
    requires var s := Run(H, schedule); var names := CleanupList(s.proc.job, s.proc.stage);
      KeepsOnly(names, oks, i) && names[i] in s.dir
    ensures var s := Run(H, schedule); var n := CleanupList(s.proc.job, s.proc.stage)[i];
      Lost(Run(H, schedule + ([Fail] + Removals(oks)) + rest), n, s.dir[n])
  {
    RunInv(H, schedule);
    var s, cleanup := Run(H, schedule), [Fail] + Removals(oks);
    var n := CleanupList(s.proc.job, s.proc.stage)[i];
    assert NameOk(H, s, Marker);
    LostByCleanup(H, s, oks, i);
    RunSplits(H, schedule, cleanup);
    RunInv(H, schedule + cleanup);
    RunSplits(H, schedule + cleanup, rest);
    LostForever(H, Run(H, schedule + cleanup), rest, n, s.dir[n]);
  }

  /** For one: an exception after the speaker was renamed, whose speaker removal fails and
      whose marker removal works, leaves the speaker with neither marker nor manifest. */
  lemma SpeakerLeaks(H: seq<nat> -> string, schedule: seq<Label>, rest: seq<Label>)
    requires var p := Run(H, schedule).proc; p.Publishing? && p.stage == 6
    ensures var job := Run(H, schedule).proc.job;
      var failure := [Fail] + Removals([true, true, true, false, true, true]);
      Lost(Run(H, schedule + failure + rest), Speaker(job.g), Data(job.speaker))
  {
    RunInv(H, schedule);
    var s := Run(H, schedule);
    SixToClean(s.proc.job);
    assert NameOk(H, s, Speaker(s.proc.job.g));
    FailedRemovalLeaks(H, schedule, [true, true, true, false, true, true], 3, rest);
  }

  lemma SixToClean(job: Job)
    ensures CleanupList(job, 6) ==
      [SpeakerTemp(job.g), RvqTemp(job.g), ManifestTemp(job.m, job.g), Speaker(job.g), Marker, MarkerTemp(job.g)]
  {
  }

  // ----- an undisturbed publication -----

  function Advances(k: nat): seq<Label> {
    if k == 0 then [Conclude(true)] else [Advance] + Advances(k - 1)
  }

  lemma {:induction false} AdvancesPublish(H: seq<nat> -> string, s: Store)
    requires Inv(H, s) && s.proc.Publishing? && s.proc.stage <= 8
    requires !s.proc.job.identity.xVectorOnly ==> CodesInRange(s.proc.job.codes)
    requires s.proc.stage == 8 ==> s.proc.job.m in s.published && s.published[s.proc.job.m] == s.proc.job
    ensures var after := RunFrom(H, s, Advances(8 - s.proc.stage));
      after.proc.Idle? && Marker !in after.dir &&
      s.proc.job.m in after.published && after.published[s.proc.job.m] == s.proc.job
    decreases 8 - s.proc.stage
  {
    var k := 8 - s.proc.stage;
    if k == 0 {
      assert RunFrom(H, Step(H, s, Conclude(true)), []) == Step(H, s, Conclude(true));
    } else {
      StepInv(H, s, Advance);
      AdvancesPublish(H, Step(H, s, Advance));
      assert Advances(k)[1..] == Advances(k - 1);
    }
  }

  /** An undisturbed publication, from any reachable store that allows it to start, commits
      its voice; it can then be loaded unless its manifest is longer than 1 MiB. */
  lemma UndisturbedPublishes(H: seq<nat> -> string, schedule: seq<Label>, job: Job)
    requires Enabled(H, Run(H, schedule), StartPublish(job))
    requires !job.identity.xVectorOnly ==> CodesInRange(job.codes)
    ensures var after := Run(H, schedule + ([StartPublish(job)] + Advances(8)));
      && after.proc.Idle? && Marker !in after.dir
      && (if job.manifestSize <= MAX_MANIFEST_BYTES
          then Load(H, after.dir, job.m, job.identity) == Ok(Extracted(job))
          else Load(H, after.dir, job.m, job.identity).Err? && Manifest(job.m) in after.dir)
  {
    RunInv(H, schedule);
    var s := Run(H, schedule);
    var labels := [StartPublish(job)] + Advances(8);
    StepInv(H, s, StartPublish(job));
    AdvancesPublish(H, Step(H, s, StartPublish(job)));
    assert labels[1..] == Advances(8);
    RunSplits(H, schedule, labels);
    LoadExactlyPublished(H, schedule + labels, job.m, job.identity);
    RunInv(H, schedule + labels);
    assert IntactAt(H, Run(H, schedule + labels), job.m);
  }

  /** Publishing does not bound the manifest, loading does: a long enough transcript gives
      a committed voice that no later run can load or replace. */
  lemma OversizedNeverLoads(H: seq<nat> -> string, schedule: seq<Label>, rest: seq<Label>, m: Target, wanted: Identity)
    requires m in Run(H, schedule).published && Run(H, schedule).published[m].manifestSize > MAX_MANIFEST_BYTES
    ensures Load(H, Run(H, schedule + rest).dir, m, wanted).Err?
    ensures forall job: Job :: job.m == m ==> !Enabled(H, Run(H, schedule + rest), StartPublish(job))
  {
    PublishedForever(H, schedule, rest, m);
    LoadExactlyPublished(H, schedule + rest, m, wanted);
    RunInv(H, schedule + rest);
    assert IntactAt(H, Run(H, schedule + rest), m);
  }
}
