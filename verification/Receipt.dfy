/** The receipt probe: a bounded list of cues on the sample clock of one request, guarded by
    a playback epoch that only rises. */
module Receipt {
  import opened Basics

  const MAX64 := 0xFFFF_FFFF_FFFF_FFFF

  datatype Float = Finite(value: real) | NotFinite
  datatype Cue = Cue(epoch: nat, request: nat, first: nat, count: nat, mouthOpen: Float, activity: Float)
  datatype Pcm = Pcm(request: nat, first: nat, count: nat, rate: nat)
  datatype Cursor = Cursor(epoch: nat, request: nat, available: bool, rate: nat, sample: nat)

  datatype Life = Uninitialized | Active | Invalidated
  datatype Status =
    | Accepted | StaleEpoch | StaleRequest | InvalidRange | InvalidSampleRate | SampleRateMismatch
    | DiscontinuousPcm | DiscontinuousCue | CueHistoryFull | AlreadyTerminal

  datatype Summary = Summary(
    pcmChunks: nat, pcmSamples: nat, cueCount: nat, cueSamples: nat, rate: nat,
    pcmContiguous: bool, cueContiguous: bool, overflow: bool, terminal: bool)

  const BLANK := Summary(0, 0, 0, 0, 0, true, true, false, false)

  /** `claims` and `heard` are history: the epochs of the timelines begun so far, and the PCM
      ranges accepted on the current one. */
  datatype Probe = Probe(
    life: Life, epoch: nat, request: nat, nextPcm: nat, nextCue: nat, pcmStarted: bool, cueStarted: bool,
    summary: Summary, cues: seq<Cue>, claims: seq<nat>, heard: seq<Pcm>)

  const NEW := Probe(Uninitialized, 0, 0, 0, 0, false, false, BLANK, [], [], [])

  datatype Outcome = Outcome(probe: Probe, status: Status)

  // ----- operations -----

  function RangeEnd(first: nat, count: nat): Option<nat> {
    if count == 0 || first > MAX64 - count then None else Some(first + count)
  }

  function Restarted(p: Probe, life: Life, epoch: nat, request: nat): Probe {
    Probe(life, epoch, request, 0, 0, false, false, BLANK, [], p.claims, [])
  }

  /** The epoch an invalidate left behind may be claimed; any other must be higher. */
  predicate MayBegin(p: Probe, epoch: nat, request: nat) {
    epoch != 0 && request != 0 && (epoch > p.epoch || (p.life.Invalidated? && epoch == p.epoch))
  }

  /** A refused call throws and changes nothing. */
  function Begin(p: Probe, epoch: nat, request: nat): Probe {
    if MayBegin(p, epoch, request) then Restarted(p, Active, epoch, request).(claims := p.claims + [epoch]) else p
  }

  function Invalidate(p: Probe, epoch: nat): Probe {
    if epoch > p.epoch then Restarted(p, Invalidated, epoch, 0) else p
  }

  function ObservePcm(p: Probe, epoch: nat, c: Pcm): Outcome {
    if epoch != p.epoch then Outcome(p, StaleEpoch)
    else if p.request == 0 || c.request != p.request then Outcome(p, StaleRequest)
    else if p.summary.terminal then Outcome(p, AlreadyTerminal)
    else if c.count == 0 then Outcome(p, InvalidRange)
    else if c.rate == 0 then Outcome(p, InvalidSampleRate)
    else if p.summary.rate != 0 && p.summary.rate != c.rate then Outcome(p, SampleRateMismatch)
    else if RangeEnd(c.first, c.count).None? then Outcome(p, InvalidRange)
    else
      var rated := p.summary.(rate := c.rate);
      if c.first != (if p.pcmStarted then p.nextPcm else 0)
      then Outcome(p.(summary := rated.(pcmContiguous := false)), DiscontinuousPcm)
      else Outcome(p.(pcmStarted := true, nextPcm := c.first + c.count, heard := p.heard + [c],
                      summary := rated.(pcmChunks := rated.pcmChunks + 1, pcmSamples := c.first + c.count)), Accepted)
  }

  function AppendCue(max: nat, p: Probe, c: Cue): Outcome {
    if c.epoch != p.epoch then Outcome(p, StaleEpoch)
    else if p.request == 0 || c.request != p.request then Outcome(p, StaleRequest)
    else if p.summary.terminal then Outcome(p, AlreadyTerminal)
    else if c.count == 0 || !c.mouthOpen.Finite? || !c.activity.Finite? then Outcome(p, InvalidRange)
    else if RangeEnd(c.first, c.count).None? then Outcome(p, InvalidRange)
    else if p.cueStarted && c.first != p.nextCue then
      Outcome(p.(summary := p.summary.(cueContiguous := false)), DiscontinuousCue)
    else if |p.cues| >= max then Outcome(p.(summary := p.summary.(overflow := true)), CueHistoryFull)
    else if p.summary.cueSamples > MAX64 - c.count then Outcome(p, InvalidRange)
    else Outcome(p.(cueStarted := true, nextCue := c.first + c.count, cues := p.cues + [c],
                    summary := p.summary.(cueCount := p.summary.cueCount + 1, cueSamples := p.summary.cueSamples + c.count)),
                 Accepted)
  }

  function MarkTerminal(p: Probe, epoch: nat, request: nat): Probe {
    if epoch != p.epoch || p.request == 0 || request != p.request || p.summary.terminal then p
    else p.(summary := p.summary.(terminal := true))
  }

  predicate Covers(c: Cue, sample: nat) {
    RangeEnd(c.first, c.count).Some? && c.first <= sample < c.first + c.count
  }

  predicate Matches(p: Probe, cursor: Cursor) {
    cursor.epoch == p.epoch && p.request != 0 && cursor.request == p.request && cursor.available &&
    p.summary.rate != 0 && cursor.rate == p.summary.rate
  }

  // ----- runs -----

  datatype Label =
    | BeginRequest(epoch: nat, request: nat) | InvalidateEpoch(epoch: nat)
    | Observe(epoch: nat, chunk: Pcm) | Append(cue: Cue) | Terminate(epoch: nat, request: nat)

  function Step(max: nat, p: Probe, l: Label): Probe {
    match l
    case BeginRequest(epoch, request) => Begin(p, epoch, request)
    case InvalidateEpoch(epoch) => Invalidate(p, epoch)
    case Observe(epoch, chunk) => ObservePcm(p, epoch, chunk).probe
    case Append(cue) => AppendCue(max, p, cue).probe
    case Terminate(epoch, request) => MarkTerminal(p, epoch, request)
  }

  function Run(max: nat, labels: seq<Label>): Probe {
    if labels == [] then NEW else Step(max, Run(max, labels[..|labels| - 1]), labels[|labels| - 1])
  }

  // ----- invariants -----

  /** Cue i belongs to the timeline and starts where the one before it ends. */
  predicate CueOk(cues: seq<Cue>, epoch: nat, request: nat, i: nat)
    requires i < |cues|
  {
    && cues[i].epoch == epoch && cues[i].request == request && cues[i].count > 0
    && cues[i].first + cues[i].count <= MAX64
    && (i > 0 ==> cues[i].first == cues[i - 1].first + cues[i - 1].count)
  }

  ghost predicate Chained(p: Probe) { forall i :: 0 <= i < |p.cues| ==> CueOk(p.cues, p.epoch, p.request, i) }

  ghost predicate Measured(max: nat, p: Probe) {
    && |p.cues| <= max && p.summary.cueCount == |p.cues|
    && (p.cueStarted <==> p.cues != [])
    && (p.cues == [] ==> p.summary.cueSamples == 0)
    && (p.cues != [] ==>
          && p.request != 0
          && p.nextCue == p.cues[|p.cues| - 1].first + p.cues[|p.cues| - 1].count
          && p.nextCue == p.cues[0].first + p.summary.cueSamples)
  }

  ghost predicate Rising(p: Probe) {
    && (forall i, j :: 0 <= i < j < |p.claims| ==> p.claims[i] < p.claims[j])
    && (forall i :: 0 <= i < |p.claims| ==> p.claims[i] <= p.epoch)
    && (p.life.Invalidated? ==> forall i :: 0 <= i < |p.claims| ==> p.claims[i] < p.epoch)
  }

  /** PCM range i belongs to the request and starts where the one before it ends. */
  predicate PcmOk(heard: seq<Pcm>, request: nat, rate: nat, i: nat)
    requires i < |heard|
  {
    && heard[i].request == request && heard[i].count > 0 && heard[i].rate == rate
    && heard[i].first == if i == 0 then 0 else heard[i - 1].first + heard[i - 1].count
  }

  ghost predicate Heard(p: Probe) {
    && (forall i :: 0 <= i < |p.heard| ==> PcmOk(p.heard, p.request, p.summary.rate, i))
    && (p.pcmStarted <==> p.heard != []) && p.summary.pcmChunks == |p.heard|
    && p.summary.pcmSamples == (if p.heard == [] then 0 else p.nextPcm)
    && (p.heard != [] ==>
          && p.summary.rate != 0
          && p.nextPcm == p.heard[|p.heard| - 1].first + p.heard[|p.heard| - 1].count <= MAX64)
  }

  ghost predicate Inv(max: nat, p: Probe) { Chained(p) && Measured(max, p) && Rising(p) && Heard(p) }

  /** The check on the total of cue samples never fires. */
  lemma TotalFits(max: nat, p: Probe, c: Cue)
    requires Inv(max, p) && RangeEnd(c.first, c.count).Some? && (p.cueStarted ==> c.first == p.nextCue)
    ensures p.summary.cueSamples <= MAX64 - c.count
  {
  }

  lemma AppendKeeps(max: nat, p: Probe, c: Cue)
    requires Inv(max, p)
    ensures Inv(max, AppendCue(max, p, c).probe)
  {
    if AppendCue(max, p, c).probe.cues == p.cues {
      Unchanged(p, AppendCue(max, p, c).probe);
    } else {
      AppendChained(p, c);
    }
  }

  lemma Unchanged(p: Probe, q: Probe)
    requires Chained(p) && q.cues == p.cues && q.epoch == p.epoch && q.request == p.request
    ensures Chained(q)
  {
    forall i | 0 <= i < |q.cues| ensures CueOk(q.cues, q.epoch, q.request, i) {
      assert CueOk(p.cues, p.epoch, p.request, i);
    }
  }

  lemma AppendChained(p: Probe, c: Cue)
    requires Chained(p) && c.epoch == p.epoch && c.request == p.request && c.count > 0 && c.first + c.count <= MAX64
    requires p.cues != [] ==> c.first == p.cues[|p.cues| - 1].first + p.cues[|p.cues| - 1].count
    ensures Chained(p.(cues := p.cues + [c]))
  {
    var cues := p.cues + [c];
    forall i | 0 <= i < |cues| ensures CueOk(cues, p.epoch, p.request, i) {
      if i < |p.cues| {
        assert CueOk(p.cues, p.epoch, p.request, i);
      }
    }
  }

  lemma ObserveKeeps(p: Probe, epoch: nat, c: Pcm)
    requires Heard(p)
    ensures Heard(ObservePcm(p, epoch, c).probe)
  {
    var after := ObservePcm(p, epoch, c).probe;
    forall i | 0 <= i < |after.heard| ensures PcmOk(after.heard, after.request, after.summary.rate, i) {
      if i < |p.heard| {
        assert PcmOk(p.heard, p.request, p.summary.rate, i);
      }
    }
  }

  lemma ObserveInv(max: nat, p: Probe, epoch: nat, c: Pcm)
    requires Inv(max, p)
    ensures Inv(max, ObservePcm(p, epoch, c).probe)
  {
    ObserveKeeps(p, epoch, c);
    Unchanged(p, ObservePcm(p, epoch, c).probe);
  }

  lemma TerminalKeeps(max: nat, p: Probe, epoch: nat, request: nat)
    requires Inv(max, p)
    ensures Inv(max, MarkTerminal(p, epoch, request))
  {
    Unchanged(p, MarkTerminal(p, epoch, request));
  }

  lemma StepKeeps(max: nat, p: Probe, l: Label)
    requires Inv(max, p)
    ensures Inv(max, Step(max, p, l)) && Step(max, p, l).epoch >= p.epoch
  {
    if l.Append? {
      AppendKeeps(max, p, l.cue);
    } else if l.Observe? {
      ObserveInv(max, p, l.epoch, l.chunk);
    } else if l.Terminate? {
      TerminalKeeps(max, p, l.epoch, l.request);
    }
  }

  lemma StepHolds(max: nat, p: Probe, l: Label)
    ensures Inv(max, p) ==> Inv(max, Step(max, p, l))
  {
    if Inv(max, p) {
      StepKeeps(max, p, l);
    }
  }

  lemma {:induction false} RunInv(max: nat, labels: seq<Label>)
    ensures Inv(max, Run(max, labels))
  {
    if labels != [] {
      RunInv(max, labels[..|labels| - 1]);
      StepKeeps(max, Run(max, labels[..|labels| - 1]), labels[|labels| - 1]);
    }
  }

  // ----- theorems -----

  /** In every run the stored cues belong to the current epoch and request, follow each other
      without gaps and respect the bound; their total is the length they span. */
  lemma CuesContiguous(max: nat, labels: seq<Label>, i: nat)
    requires i < |Run(max, labels).cues|
    ensures var p := Run(max, labels);
      && |p.cues| <= max && p.summary.cueCount == |p.cues|
      && p.cues[i].epoch == p.epoch && p.cues[i].request == p.request != 0
      && (i + 1 < |p.cues| ==> p.cues[i + 1].first == p.cues[i].first + p.cues[i].count)
      && p.nextCue == p.cues[0].first + p.summary.cueSamples
  {
    RunInv(max, labels);
    var p := Run(max, labels);
    assert CueOk(p.cues, p.epoch, p.request, i);
    if i + 1 < |p.cues| {
      assert CueOk(p.cues, p.epoch, p.request, i + 1);
    }
  }

  /** In every run the accepted PCM ranges belong to the current request, have one sample rate
      and tile the clock from zero; the summary counts exactly them. */
  lemma PcmTiles(max: nat, labels: seq<Label>, i: nat)
    requires i < |Run(max, labels).heard|
    ensures var p := Run(max, labels);
      && p.heard[0].first == 0 && p.heard[i].request == p.request && p.heard[i].rate == p.summary.rate
      && (i + 1 < |p.heard| ==> p.heard[i + 1].first == p.heard[i].first + p.heard[i].count)
      && (i + 1 == |p.heard| ==> p.summary.pcmSamples == p.heard[i].first + p.heard[i].count)
      && p.summary.pcmChunks == |p.heard|
  {
    RunInv(max, labels);
    var p := Run(max, labels);
    assert PcmOk(p.heard, p.request, p.summary.rate, 0) && PcmOk(p.heard, p.request, p.summary.rate, i);
    if i + 1 < |p.heard| {
      assert PcmOk(p.heard, p.request, p.summary.rate, i + 1);
    }
  }

  /** A cue that continues the timeline is refused for the total in no run. */
  lemma TotalNeverOverflows(max: nat, labels: seq<Label>, c: Cue)
    requires RangeEnd(c.first, c.count).Some?
    requires Run(max, labels).cueStarted ==> c.first == Run(max, labels).nextCue
    ensures Run(max, labels).summary.cueSamples <= MAX64 - c.count
  {
    RunInv(max, labels);
    TotalFits(max, Run(max, labels), c);
  }

  lemma {:induction false} Spans(cues: seq<Cue>, epoch: nat, request: nat, i: nat, j: nat)
    requires i < j < |cues| && forall k :: 0 <= k < |cues| ==> CueOk(cues, epoch, request, k)
    ensures cues[i].first + cues[i].count <= cues[j].first
    decreases j
  {
    assert CueOk(cues, epoch, request, j) && CueOk(cues, epoch, request, j - 1);
    if i < j - 1 {
      Spans(cues, epoch, request, i, j - 1);
    }
  }

  lemma {:induction false} FindCue(cues: seq<Cue>, epoch: nat, request: nat, n: nat, sample: nat) returns (i: nat)
    requires n < |cues| && forall k :: 0 <= k < |cues| ==> CueOk(cues, epoch, request, k)
    requires cues[0].first <= sample < cues[n].first + cues[n].count
    ensures i <= n && Covers(cues[i], sample)
  {
    assert CueOk(cues, epoch, request, n);
    if cues[n].first <= sample {
      i := n;
    } else {
      i := FindCue(cues, epoch, request, n - 1, sample);
    }
  }

  /** No sample lies in two cues. */
  lemma CueUnique(max: nat, labels: seq<Label>, i: nat, j: nat, sample: nat)
    requires var cues := Run(max, labels).cues; i < |cues| && j < |cues| && Covers(cues[i], sample) && Covers(cues[j], sample)
    ensures i == j
  {
    RunInv(max, labels);
    var p := Run(max, labels);
    if i < j {
      Spans(p.cues, p.epoch, p.request, i, j);
    } else if j < i {
      Spans(p.cues, p.epoch, p.request, j, i);
    }
  }

  lemma CoverSpans(max: nat, p: Probe, i: nat, sample: nat)
    requires Inv(max, p) && i < |p.cues| && Covers(p.cues[i], sample)
    ensures p.cues[0].first <= sample < p.nextCue
  {
    assert CueOk(p.cues, p.epoch, p.request, i);
    if i > 0 {
      Spans(p.cues, p.epoch, p.request, 0, i);
    }
    if i < |p.cues| - 1 {
      Spans(p.cues, p.epoch, p.request, i, |p.cues| - 1);
    }
  }

  /** Some cue covers a sample exactly when it lies in the interval the cues span. */
  lemma CoveredInterval(max: nat, labels: seq<Label>, sample: nat)
    ensures var p := Run(max, labels);
      (exists i :: 0 <= i < |p.cues| && Covers(p.cues[i], sample)) <==>
      p.cues != [] && p.cues[0].first <= sample < p.nextCue
  {
    RunInv(max, labels);
    var p := Run(max, labels);
    if exists i :: 0 <= i < |p.cues| && Covers(p.cues[i], sample) {
      var i :| 0 <= i < |p.cues| && Covers(p.cues[i], sample);
      CoverSpans(max, p, i, sample);
    } else if p.cues != [] && p.cues[0].first <= sample < p.nextCue {
      var i := FindCue(p.cues, p.epoch, p.request, |p.cues| - 1, sample);
    }
  }

  /** Epochs never fall, and the timelines begun have strictly rising epochs: an invalidate
      allows one claim of its epoch, not two. */
  lemma EpochsRise(max: nat, labels: seq<Label>, l: Label)
    ensures var p := Run(max, labels);
      && Step(max, p, l).epoch >= p.epoch
      && (forall i, j :: 0 <= i < j < |p.claims| ==> p.claims[i] < p.claims[j])
  {
    RunInv(max, labels);
    StepKeeps(max, Run(max, labels), l);
  }

  // ----- the object -----

  class PlaybackReceiptProbe {
    const maxCues: nat
    var life: Life
    var epoch: nat
    var request: nat
    var nextPcm: nat
    var nextCue: nat
    var pcmStarted: bool
    var cueStarted: bool
    var summary: Summary
    var cues: seq<Cue>
    ghost var claims: seq<nat>
    ghost var heard: seq<Pcm>

    ghost function View(): Probe
      reads this
    {
      Probe(life, epoch, request, nextPcm, nextCue, pcmStarted, cueStarted, summary, cues, claims, heard)
    }

    constructor (max: nat)
      requires max > 0
      ensures maxCues == max && View() == NEW
    {
      maxCues, life, epoch, request, nextPcm, nextCue := max, Uninitialized, 0, 0, 0, 0;
      pcmStarted, cueStarted, summary, cues, claims, heard := false, false, BLANK, [], [], [];
    }

    method Restart(l: Life, e: nat, r: nat)
      modifies this
      ensures View() == Restarted(old(View()), l, e, r)
    {
      life, epoch, request, nextPcm, nextCue := l, e, r, 0, 0;
      pcmStarted, cueStarted, summary, cues, heard := false, false, BLANK, [], [];
    }

    method BeginRequest(e: nat, r: nat) returns (ok: bool)
      modifies this
      ensures ok == MayBegin(old(View()), e, r) && View() == Begin(old(View()), e, r)
      ensures Inv(maxCues, old(View())) ==> Inv(maxCues, View())
    {
      StepHolds(maxCues, View(), Label.BeginRequest(e, r));
      if e == 0 || r == 0 {
        return false;
      }
      var replacement := life.Invalidated? && e == epoch;
      if !replacement && e <= epoch {
        return false;
      }
      Restart(Active, e, r);
      claims := claims + [e];
      return true;
    }

    method InvalidateEpoch(e: nat) returns (ok: bool)
      modifies this
      ensures ok == (e > old(epoch)) && View() == Invalidate(old(View()), e)
      ensures Inv(maxCues, old(View())) ==> Inv(maxCues, View())
    {
      StepHolds(maxCues, View(), Label.InvalidateEpoch(e));
      if e == 0 || e <= epoch {
        return false;
      }
      Restart(Invalidated, e, 0);
      return true;
    }

    method Observe(e: nat, c: Pcm) returns (status: Status)
      modifies this`pcmStarted, this`nextPcm, this`summary, this`heard
      ensures Outcome(View(), status) == ObservePcm(old(View()), e, c)
      ensures Inv(maxCues, old(View())) ==> Inv(maxCues, View())
    {
      StepHolds(maxCues, View(), Label.Observe(e, c));
      if e != epoch {
        return StaleEpoch;
      }
      if request == 0 || c.request != request {
        return StaleRequest;
      }
      if summary.terminal {
        return AlreadyTerminal;
      }
      if c.count == 0 {
        return InvalidRange;
      }
      if c.rate == 0 {
        return InvalidSampleRate;
      }
      if summary.rate != 0 && summary.rate != c.rate {
        return SampleRateMismatch;
      }
      var end := RangeEnd(c.first, c.count);
      if end.None? {
        return InvalidRange;
      }
      status := PlacePcm(c, end.value);
    }

    /** The range check against the PCM seen so far. */
    method PlacePcm(c: Pcm, end: nat) returns (status: Status)
      modifies this`pcmStarted, this`nextPcm, this`summary, this`heard
      ensures status == if c.first == (if old(pcmStarted) then old(nextPcm) else 0) then Accepted else DiscontinuousPcm
      ensures var rated := if old(summary.rate) == 0 then old(summary).(rate := c.rate) else old(summary);
        summary == if status == Accepted then rated.(pcmChunks := rated.pcmChunks + 1, pcmSamples := end)
                   else rated.(pcmContiguous := false)
      ensures status == Accepted ==> pcmStarted && nextPcm == end && heard == old(heard) + [c]
      ensures status != Accepted ==> pcmStarted == old(pcmStarted) && nextPcm == old(nextPcm) && heard == old(heard)
    {
      if summary.rate == 0 {
        summary := summary.(rate := c.rate);
      }
      if (pcmStarted && c.first != nextPcm) || (!pcmStarted && c.first != 0) {
        summary := summary.(pcmContiguous := false);
        return DiscontinuousPcm;
      }
      pcmStarted, nextPcm, heard := true, end, heard + [c];
      summary := summary.(pcmChunks := summary.pcmChunks + 1, pcmSamples := end);
      return Accepted;
    }

    method Append(c: Cue) returns (status: Status)
      modifies this`cueStarted, this`nextCue, this`cues, this`summary
      ensures Outcome(View(), status) == AppendCue(maxCues, old(View()), c)
      ensures Inv(maxCues, old(View())) ==> Inv(maxCues, View())
    {
      StepHolds(maxCues, View(), Label.Append(c));
      if c.epoch != epoch {
        return StaleEpoch;
      }
      if request == 0 || c.request != request {
        return StaleRequest;
      }
      if summary.terminal {
        return AlreadyTerminal;
      }
      if c.count == 0 || !c.mouthOpen.Finite? || !c.activity.Finite? {
        return InvalidRange;
      }
      var end := RangeEnd(c.first, c.count);
      if end.None? {
        return InvalidRange;
      }
      if cueStarted && c.first != nextCue {
        summary := summary.(cueContiguous := false);
        return DiscontinuousCue;
      }
      if |cues| >= maxCues {
        summary := summary.(overflow := true);
        return CueHistoryFull;
      }
      if summary.cueSamples > MAX64 - c.count {
        return InvalidRange;
      }
      cueStarted, nextCue, cues := true, end.value, cues + [c];
      summary := summary.(cueCount := summary.cueCount + 1, cueSamples := summary.cueSamples + c.count);
      return Accepted;
    }

    /** A cue is selected exactly when the cursor matches and some cue covers it. */
    method Select(cursor: Cursor) returns (cue: Option<Cue>)
      ensures cue.Some? <==>
        Matches(View(), cursor) && exists i :: 0 <= i < |cues| && Covers(cues[i], cursor.sample)
      ensures cue.Some? ==> cue.value in cues && Covers(cue.value, cursor.sample)
    {
      if cursor.epoch != epoch || request == 0 || cursor.request != request || !cursor.available ||
         summary.rate == 0 || cursor.rate != summary.rate {
        return None;
      }
      for i := 0 to |cues|
        invariant forall k :: 0 <= k < i ==> !Covers(cues[k], cursor.sample)
      {
        var end := RangeEnd(cues[i].first, cues[i].count);
        if end.Some? && cursor.sample >= cues[i].first && cursor.sample < end.value {
          return Some(cues[i]);
        }
      }
      return None;
    }
  }
}
