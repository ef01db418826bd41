/** What it means that the callbacks of a request are in order, said of any two places of the
    log. */
module ClientOrder {
  import opened Basics
  import opened ClientDispatch
  import opened ClientStream

  /** A callback of the request, one that runs. */
  predicate Says(item: Item, id: RequestId) { item.Call? && item.id == id && IsTold(item.kind) }

  /** A callback that carries a new range of samples. */
  predicate IsChunk(item: Item, id: RequestId, sinks: set<Sink>) {
    item.Call? && item.id == id && (item.kind.Audio? || (item.kind.Timing? && OnAudio !in sinks))
  }

  function At(log: seq<Item>, k: nat, id: RequestId, sinks: set<Sink>): Option<Progress>
    requires k <= |log|
  {
    Track(Some(Nothing(sinks)), log[..k], id)
  }

  predicate Ordered(log: seq<Item>, id: RequestId, sinks: set<Sink>) {
    Track(Some(Nothing(sinks)), log, id).Some?
  }

  lemma Prefix(log: seq<Item>, k: nat, id: RequestId, sinks: set<Sink>)
    requires Ordered(log, id, sinks) && k <= |log|
    ensures At(log, k, id, sinks).Some? && At(log, k, id, sinks).value.sinks == sinks
  {
    TrackConcat(Some(Nothing(sinks)), log[..k], log[k..], id);
    assert log == log[..k] + log[k..];
    BrokenStays(log[k..], id);
    SinksStay(Some(Nothing(sinks)), log[..k], id);
  }

  /** One entry of an ordered log. */
  lemma Entry(log: seq<Item>, k: nat, id: RequestId, sinks: set<Sink>) returns (p: Progress, q: Progress)
    requires Ordered(log, id, sinks) && k < |log|
    ensures At(log, k, id, sinks) == Some(p) && At(log, k + 1, id, sinks) == Some(q)
    ensures p.sinks == sinks && Advance(Some(p), log[k], id) == Some(q)
  {
    Prefix(log, k, id, sinks);
    Prefix(log, k + 1, id, sinks);
    assert log[..k + 1] == log[..k] + [log[k]];
    TrackAppend(Some(Nothing(sinks)), log[..k], log[k], id);
    p, q := At(log, k, id, sinks).value, At(log, k + 1, id, sinks).value;
  }

  function SinkOf(kind: Kind): Sink {
    match kind
    case Text => OnText
    case Audio(_, _) => OnAudio
    case Timing(_, _) => OnTiming
    case Metadata => OnMetadata
    case Completed(_) => OnCompleted
    case Cancelled(_) => OnCancelled
    case Failed(_) => OnError
  }

  /** A callback runs exactly when it is registered. */
  lemma OnlyRegistered(log: seq<Item>, j: nat, id: RequestId, sinks: set<Sink>)
    requires Ordered(log, id, sinks) && j < |log| && log[j].Call? && log[j].id == id
    ensures IsTold(log[j].kind) <==> SinkOf(log[j].kind) in sinks
  {
    var p, q := Entry(log, j, id, sinks);
  }

  /** Progress is never lost. */
  lemma {:induction false} Lasts(log: seq<Item>, i: nat, j: nat, id: RequestId, sinks: set<Sink>)
    requires Ordered(log, id, sinks) && i <= j <= |log|
    ensures At(log, i, id, sinks).Some? && At(log, j, id, sinks).Some?
    ensures var p, q := At(log, i, id, sinks).value, At(log, j, id, sinks).value;
      (p.text ==> q.text) && (p.done ==> q.done)
  {
    Prefix(log, i, id, sinks);
    if i < j {
      Lasts(log, i, j - 1, id, sinks);
      var p, q := Entry(log, j - 1, id, sinks);
    }
  }

  lemma {:induction false} TextFirst(log: seq<Item>, k: nat, id: RequestId, sinks: set<Sink>)
    requires Ordered(log, id, sinks) && k <= |log|
    ensures At(log, k, id, sinks).Some?
    ensures var p := At(log, k, id, sinks).value; p.owed.Some? && OnText in sinks ==> p.text
  {
    if k > 0 {
      TextFirst(log, k - 1, id, sinks);
      var p, q := Entry(log, k - 1, id, sinks);
    }
  }

  /** No callback follows a terminal one, and the text comes once and before audio and timing. */
  lemma EndsLastTextFirst(log: seq<Item>, i: nat, j: nat, id: RequestId, sinks: set<Sink>)
    requires Ordered(log, id, sinks) && i < j < |log| && Says(log[i], id) && Says(log[j], id)
    ensures !IsEnd(log[i], id)
    ensures log[j].kind.Text? ==> !log[i].kind.Text? && !log[i].kind.Audio? && !log[i].kind.Timing?
  {
    TextFirst(log, i, id, sinks);
    var p, q := Entry(log, i, id, sinks);
    Lasts(log, i + 1, j, id, sinks);
    var r, s := Entry(log, j, id, sinks);
  }

  /** With the text registered, it has come before any chunk. */
  lemma {:induction false} TextCame(log: seq<Item>, k: nat, id: RequestId, sinks: set<Sink>)
    requires Ordered(log, id, sinks) && k <= |log| && At(log, k, id, sinks).Some? && At(log, k, id, sinks).value.text
    ensures exists i :: 0 <= i < k && log[i] == Call(id, Text)
  {
    if k > 0 {
      var p, q := Entry(log, k - 1, id, sinks);
      if p.text {
        TextCame(log, k - 1, id, sinks);
      }
    }
  }

  lemma TextBeforeChunk(log: seq<Item>, j: nat, id: RequestId, sinks: set<Sink>)
    requires Ordered(log, id, sinks) && j < |log| && IsChunk(log[j], id, sinks) && OnText in sinks
    ensures exists i :: 0 <= i < j && log[i] == Call(id, Text)
  {
    var p, q := Entry(log, j, id, sinks);
    TextCame(log, j, id, sinks);
  }

  // ----- the sample clock -----

  predicate NoChunks(log: seq<Item>, from: nat, to: nat, id: RequestId, sinks: set<Sink>) {
    forall k :: from <= k < to <= |log| ==> !IsChunk(log[k], id, sinks)
  }

  lemma {:induction false} ClockStays(log: seq<Item>, i: nat, j: nat, id: RequestId, sinks: set<Sink>)
    requires Ordered(log, id, sinks) && i <= j <= |log| && NoChunks(log, i, j, id, sinks)
    ensures At(log, i, id, sinks).Some? && At(log, j, id, sinks).Some?
    ensures At(log, i, id, sinks).value.next == At(log, j, id, sinks).value.next
  {
    Prefix(log, i, id, sinks);
    if i < j {
      assert NoChunks(log, i, j - 1, id, sinks) && !IsChunk(log[j - 1], id, sinks);
      ClockStays(log, i, j - 1, id, sinks);
      var p, q := Entry(log, j - 1, id, sinks);
    }
  }

  /** The first chunk starts at zero. */
  lemma FirstChunk(log: seq<Item>, j: nat, id: RequestId, sinks: set<Sink>)
    requires Ordered(log, id, sinks) && j < |log| && IsChunk(log[j], id, sinks) && NoChunks(log, 0, j, id, sinks)
    ensures log[j].kind.first == 0
  {
    ClockStays(log, 0, j, id, sinks);
    var p, q := Entry(log, j, id, sinks);
  }

  /** Every other chunk starts where the one before it ended. */
  lemma ChunksTile(log: seq<Item>, i: nat, j: nat, id: RequestId, sinks: set<Sink>)
    requires Ordered(log, id, sinks) && i < j < |log| && IsChunk(log[i], id, sinks) && IsChunk(log[j], id, sinks)
    requires NoChunks(log, i + 1, j, id, sinks)
    ensures log[j].kind.first == (log[i].kind.first + log[i].kind.count) % TWO64 && log[i].kind.count != 0
  {
    var p, q := Entry(log, i, id, sinks);
    ClockStays(log, i + 1, j, id, sinks);
    var r, s := Entry(log, j, id, sinks);
  }

  // ----- timing -----

  /** No callback of the request in between. */
  predicate Silent(log: seq<Item>, from: nat, to: nat, id: RequestId) {
    forall k :: from <= k < to <= |log| ==> !Says(log[k], id)
  }

  lemma {:induction false} OwedStays(log: seq<Item>, i: nat, j: nat, id: RequestId, sinks: set<Sink>)
    requires Ordered(log, id, sinks) && i <= j <= |log| && Silent(log, i, j, id)
    ensures At(log, i, id, sinks).Some? && At(log, i, id, sinks) == At(log, j, id, sinks)
  {
    Prefix(log, i, id, sinks);
    if i < j {
      assert Silent(log, i, j - 1, id) && !Says(log[j - 1], id);
      OwedStays(log, i, j - 1, id, sinks);
      var p, q := Entry(log, j - 1, id, sinks);
    }
  }

  /** With timing registered, the next callback after audio is the timing of its range. */
  lemma TimingFollows(log: seq<Item>, i: nat, j: nat, id: RequestId, sinks: set<Sink>)
    requires Ordered(log, id, sinks) && i < j < |log| && Says(log[i], id) && Says(log[j], id)
    requires log[i].kind.Audio? && OnTiming in sinks && Silent(log, i + 1, j, id)
    ensures log[j] == Call(id, Timing(log[i].kind.first, log[i].kind.count))
  {
    var p, q := Entry(log, i, id, sinks);
    OwedStays(log, i + 1, j, id, sinks);
    var r, s := Entry(log, j, id, sinks);
  }

  lemma {:induction false} OwedOfAudio(log: seq<Item>, k: nat, id: RequestId, sinks: set<Sink>) returns (i: nat)
    requires Ordered(log, id, sinks) && k <= |log| && At(log, k, id, sinks).Some? && At(log, k, id, sinks).value.owed.Some?
    ensures i < k && Says(log[i], id) && log[i].kind.Audio? && Silent(log, i + 1, k, id)
    ensures At(log, k, id, sinks).value.owed == Some(Timing(log[i].kind.first, log[i].kind.count))
  {
    var p, q := Entry(log, k - 1, id, sinks);
    if Says(log[k - 1], id) {
      i := k - 1;
    } else {
      i := OwedOfAudio(log, k - 1, id, sinks);
    }
  }

  /** And with audio registered, the callback before a timing is audio of the same range. */
  lemma AudioBeforeTiming(log: seq<Item>, j: nat, id: RequestId, sinks: set<Sink>) returns (i: nat)
    requires Ordered(log, id, sinks) && j < |log| && Says(log[j], id) && log[j].kind.Timing? && OnAudio in sinks
    ensures i < j && Silent(log, i + 1, j, id)
    ensures log[i] == Call(id, Audio(log[j].kind.first, log[j].kind.count))
  {
    var p, q := Entry(log, j, id, sinks);
    i := OwedOfAudio(log, j, id, sinks);
  }
}
