/** Crash-safe publication of a prepared voice reference. A directory is a map from
    names to contents; renames are atomic, writes are not, best-effort removals may
    fail, and the process may die between any two steps, also while it recovers. */
module Publication {
  import opened Basics
  import opened RvqCodec

  /** One generation of files. Generation ids are never reused. */
  type Generation = nat
  type Target = string

  datatype Name =
    | Marker | MarkerTemp(g: Generation)
    | Speaker(g: Generation) | SpeakerTemp(g: Generation)
    | Rvq(g: Generation) | RvqTemp(g: Generation)
    | Manifest(m: Target) | ManifestTemp(m: Target, g: Generation)
    | LegacySpeaker | LegacyRvq
    | Quarantined(g: Generation, name: Name)

  /** What a voice must match to be loaded: transcript, mode, codebook count, and the
      digests and versions of everything that produced it. */
  datatype Identity = Identity(text: string, xVectorOnly: bool, codebooks: nat, provenance: string)

  datatype Artifact = Artifact(size: nat, digest: string)
  datatype RvqEntry = RvqEntry(codebooks: nat, frames: nat, file: Artifact)
  datatype Document = Document(
    identity: Identity, g: Generation, dimension: nat, speaker: Artifact, rvq: Option<RvqEntry>, encodedSize: nat)

  datatype Content =
    | Torn
    | Data(bytes: seq<nat>)
    | MarkerDoc(g: Generation, m: Target, withRvq: bool)
    | ManifestDoc(doc: Document)

  type Directory = map<Name, Content>

  /** One voice to publish: the extraction result, and how long its manifest is in bytes. */
  datatype Job = Job(
    m: Target, g: Generation, identity: Identity, speaker: seq<nat>, codes: seq<nat>, frames: nat, manifestSize: nat)

  const MAX_SPEAKER_DIMENSION := 0x10_0000
  const MAX_CODEBOOKS := 64
  const MAX_FRAMES := 0x10_0000
  const MAX_MANIFEST_BYTES := 0x10_0000
  const MAX_SPEAKER_BYTES := 0x100_0000
  const MAX_RVQ_BYTES := 0x1000_0000

  /** A little-endian float32 is finite unless its exponent bits are all ones. */
  predicate FiniteAt(bytes: seq<nat>, i: nat)
    requires 4 * i + 3 < |bytes|
  {
    !(bytes[4 * i + 3] % 128 == 127 && bytes[4 * i + 2] / 128 == 1)
  }

  predicate AllFinite(bytes: seq<nat>) {
    forall i :: 0 <= i < |bytes| / 4 ==> FiniteAt(bytes, i)
  }

  /** The checks made before the directory is touched. */
  predicate Publishable(job: Job) {
    && |job.speaker| % 4 == 0 && 0 < |job.speaker| / 4 <= MAX_SPEAKER_DIMENSION
    && AllFinite(job.speaker)
    && (!job.identity.xVectorOnly ==>
          && 0 < job.frames <= MAX_FRAMES && 0 < job.identity.codebooks <= MAX_CODEBOOKS
          && |job.codes| == job.identity.codebooks * job.frames)
  }

  predicate CodesInRange(codes: seq<nat>) {
    forall i :: 0 <= i < |codes| ==> IsCode(codes[i])
  }

  function MarkerOf(job: Job): Content {
    MarkerDoc(job.g, job.m, !job.identity.xVectorOnly)
  }

  function DocumentOf(H: seq<nat> -> string, job: Job): Document {
    Document(job.identity, job.g, |job.speaker| / 4, Artifact(|job.speaker|, H(job.speaker)),
             if job.identity.xVectorOnly then None
             else Some(RvqEntry(job.identity.codebooks, job.frames, Artifact(|Pack(job.codes)|, H(Pack(job.codes))))),
             job.manifestSize)
  }

  // ----- steps -----

  /** `stage` counts the completed steps of a publication; 8 is the commit. */
  datatype Proc =
    | Idle
    | Publishing(job: Job, stage: nat)
    | Cleaning(job: Job, committed: bool, todo: seq<Name>)
    | Recovering(g: Generation, m: Target, todo: seq<Name>)

  /** From `used` on the fields are history: the generations started, the committed job of
      each target, the target of each committed generation, whether recovery met a conflict,
      the files whose removal failed in the cleanup of an uncommitted publication, and the
      generations whose cleanup has removed the marker. */
  datatype Store = Store(
    dir: Directory, proc: Proc, used: set<Generation>,
    published: map<Target, Job>, voiceOf: map<Generation, Target>,
    conflict: bool, unremoved: set<Name>, unmarked: set<Generation>)

  datatype Label =
    | StartPublish(job: Job) | Tear | Advance | Conclude(ok: bool) | Fail
    | StartRecover(m: Target) | Next(ok: bool) | Finish | Finalize(m: Target, ok: bool) | Crash

  function At(dir: Directory, n: Name): Option<Content> {
    if n in dir then Some(dir[n]) else None
  }

  function Rename(dir: Directory, from: Name, to: Name): Directory {
    if from in dir then (dir - {from})[to := dir[from]] else dir
  }

  datatype Operation = WriteFile(n: Name, c: Content) | RenameFile(from: Name, to: Name) | Nothing

  /** The publication program: the operation that completes each stage. */
  function Program(H: seq<nat> -> string, job: Job, stage: nat): Operation {
    if stage == 0 then WriteFile(MarkerTemp(job.g), MarkerOf(job))
    else if stage == 1 then RenameFile(MarkerTemp(job.g), Marker)
    else if stage == 2 then WriteFile(SpeakerTemp(job.g), Data(job.speaker))
    else if stage == 3 then
      (if job.identity.xVectorOnly then Nothing else WriteFile(RvqTemp(job.g), Data(Pack(job.codes))))
    else if stage == 4 then WriteFile(ManifestTemp(job.m, job.g), ManifestDoc(DocumentOf(H, job)))
    else if stage == 5 then RenameFile(SpeakerTemp(job.g), Speaker(job.g))
    else if stage == 6 then (if job.identity.xVectorOnly then Nothing else RenameFile(RvqTemp(job.g), Rvq(job.g)))
    else if stage == 7 then RenameFile(ManifestTemp(job.m, job.g), Manifest(job.m))
    else Nothing
  }

  function Perform(dir: Directory, op: Operation): Directory {
    match op
    case WriteFile(n, c) => dir[n := c]
    case RenameFile(from, to) => Rename(dir, from, to)
    case Nothing => dir
  }

  /** What the exception handler removes, in order. */
  function CleanupList(job: Job, stage: nat): seq<Name> {
    [SpeakerTemp(job.g), RvqTemp(job.g), ManifestTemp(job.m, job.g)]
    + (if stage >= 8 then []
       else (if stage >= 6 then [Speaker(job.g)] else [])
            + (if stage >= 7 && !job.identity.xVectorOnly then [Rvq(job.g)] else [])
            + [Marker])
    + [MarkerTemp(job.g)]
  }

  /** What recovery moves into the quarantine of generation g; the marker goes last. */
  function OwnedList(g: Generation, m: Target, withRvq: bool): seq<Name> {
    [Speaker(g)] + (if withRvq then [Rvq(g)] else [])
    + [SpeakerTemp(g), RvqTemp(g), ManifestTemp(m, g), Marker]
  }

  /** `StartPublish` follows a recovery in the same lock hold: with no manifest in place,
      that recovery leaves no marker. */
  predicate Enabled(H: seq<nat> -> string, s: Store, l: Label) {
    match l
    case StartPublish(job) =>
      s.proc.Idle? && Publishable(job) && job.g !in s.used && Marker !in s.dir &&
      Manifest(job.m) !in s.dir && LegacySpeaker !in s.dir && LegacyRvq !in s.dir
    case Tear => s.proc.Publishing? && Program(H, s.proc.job, s.proc.stage).WriteFile?
    case Advance =>
      s.proc.Publishing? && s.proc.stage < 8 &&
      (s.proc.stage == 3 && !s.proc.job.identity.xVectorOnly ==> CodesInRange(s.proc.job.codes))
    case Conclude(_) => s.proc.Publishing? && s.proc.stage == 8
    case Fail => s.proc.Publishing?
    case StartRecover(m) =>
      s.proc.Idle? && Marker in s.dir && s.dir[Marker].MarkerDoc? && s.dir[Marker].m == m && Manifest(m) !in s.dir
    case Next(_) => (s.proc.Cleaning? || s.proc.Recovering?) && s.proc.todo != []
    case Finish => (s.proc.Cleaning? || s.proc.Recovering?) && s.proc.todo == []
    case Finalize(m, _) =>
      s.proc.Idle? && Marker in s.dir && s.dir[Marker].MarkerDoc? && s.dir[Marker].m == m && Manifest(m) in s.dir
    case Crash => true
  }

  /** Best-effort removal: an error is ignored. */
  function Erase(s: Store, n: Name, ok: bool): Store {
    if ok then s.(dir := s.dir - {n}) else s
  }

  /** One removal of the exception handler. */
  function CleanNext(s: Store, ok: bool): Store
    requires s.proc.Cleaning? && s.proc.todo != []
  {
    var n := s.proc.todo[0];
    Erase(s, n, ok).(
      proc := Cleaning(s.proc.job, s.proc.committed, s.proc.todo[1..]),
      unremoved := if !ok && !s.proc.committed then s.unremoved + {n} else s.unremoved,
      unmarked := if ok && n == Marker then s.unmarked + {s.proc.job.g} else s.unmarked)
  }

  function MoveOwned(s: Store, n: Name): Store
    requires s.proc.Recovering? && s.proc.todo != []
  {
    var next := Recovering(s.proc.g, s.proc.m, s.proc.todo[1..]);
    if n !in s.dir then s.(proc := next)
    else if Quarantined(s.proc.g, n) in s.dir then s.(proc := Idle, conflict := true)
    else s.(dir := Rename(s.dir, n, Quarantined(s.proc.g, n)), proc := next)
  }

  function Apply(H: seq<nat> -> string, s: Store, l: Label): Store
    requires Enabled(H, s, l)
  {
    match l
    case StartPublish(job) => s.(proc := Publishing(job, 0), used := s.used + {job.g})
    case Tear => s.(dir := s.dir[Program(H, s.proc.job, s.proc.stage).n := Torn])
    case Advance =>
      var job := s.proc.job; var stage := s.proc.stage;
      s.(dir := Perform(s.dir, Program(H, job, stage)), proc := Publishing(job, stage + 1),
         published := if stage == 7 then s.published[job.m := job] else s.published,
         voiceOf := if stage == 7 then s.voiceOf[job.g := job.m] else s.voiceOf)
    case Conclude(ok) => Erase(s, Marker, ok).(proc := Idle)
    case Fail => s.(proc := Cleaning(s.proc.job, s.proc.stage == 8, CleanupList(s.proc.job, s.proc.stage)))
    case StartRecover(m) =>
      s.(proc := Recovering(s.dir[Marker].g, m, OwnedList(s.dir[Marker].g, m, s.dir[Marker].withRvq)))
    case Next(ok) =>
      if s.proc.Recovering? then MoveOwned(s, s.proc.todo[0]) else CleanNext(s, ok)
    case Finish => s.(proc := Idle)
    case Finalize(m, ok) => Erase(s, Marker, ok)
    case Crash => s.(proc := Idle)
  }

  function Step(H: seq<nat> -> string, s: Store, l: Label): Store {
    if Enabled(H, s, l) then Apply(H, s, l) else s
  }

  /** The store after a schedule, from a directory that holds no file of this protocol. */
  function Run(H: seq<nat> -> string, schedule: seq<Label>): Store {
    if schedule == [] then Store(map[], Idle, {}, map[], map[], false, {}, {})
    else Step(H, Run(H, schedule[..|schedule| - 1]), schedule[|schedule| - 1])
  }
}
