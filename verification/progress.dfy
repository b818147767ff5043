/** The image-pull progress aggregator (`pull_image` in src/docker.rs). It keeps one
    bar per image layer in a map keyed by layer id. Each pull event may create, size,
    complete or drop that layer's bar. Whatever is still open when the stream ends is
    finished and cleared. Only the abstract bar state is kept: length, position and
    message. */
module PullProgress {
  import opened Wrappers
  import opened Text
  import opened Ints
  import opened Errors

  /** Image reference pulled, and later run, by every session. */
  const Image: string := "codeberg.org/land/tempsystem:latest"
  /** Id of the tag-alias event, which is not a layer. */
  const TagAlias: string := "latest"
  /** Status that retires a layer's bar. */
  const PullComplete: string := "Pull complete"
  /** Suffix of the other completion statuses ("Download complete", ...). */
  const CompleteSuffix: string := " complete"

  datatype ProgressDetail = ProgressDetail(current: Option<I64>, total: Option<I64>)

  /** One item of the engine's create-image stream. */
  datatype PullEvent = PullEvent(id: Option<string>, progressDetail: Option<ProgressDetail>, status: Option<string>)

  datatype PullItem = Update(event: PullEvent) | StreamFault(cause: Fault)

  /** A progress bar: `length` is absent for a bar made without a known size. */
  datatype Bar = Bar(length: Option<U64>, position: U64, message: string)

  type Bars = map<string, Bar>

  /** The id an event is about, unless it has none or is the tag alias. */
  function TrackedId(ev: PullEvent): Option<string> {
    match ev.id
    case Some(id) => if id != TagAlias then Some(id) else None
    case None => None
  }

  /** The (current, total) pair, when the event carries both. */
  function SizeOf(ev: PullEvent): Option<(I64, I64)> {
    match ev.progressDetail
    case Some(ProgressDetail(Some(cur), Some(total))) => Some((cur, total))
    case _ => None
  }

  /** The bar of a freshly created entry that was given no size. */
  const Unsized: Bar := Bar(None, 0, "")

  /** The loop body of `pull_image` for one event. */
  function Step(bars: Bars, ev: PullEvent): (r: Bars)
    // Events without an id, or about the tag alias, are ignored.
    ensures TrackedId(ev).None? ==> r == bars
    // Every other id has an entry afterwards unless the status retires it.
    ensures TrackedId(ev).Some? ==>
              (TrackedId(ev).value in r <==> ev.status != Some(PullComplete))
    // Other entries are left alone.
    ensures forall k :: k in bars && Some(k) != TrackedId(ev) ==> k in r && r[k] == bars[k]
    ensures forall k :: k in r ==> k in bars || Some(k) == TrackedId(ev)
    // The entry of a tracked id that survives the event, field by field, against
    // its bar before the event (or a fresh unsized one): only a size pair sets the
    // length; the position is the length when a completion status meets a known
    // length (sized by this event or earlier), else the size pair's current value,
    // else unchanged; the message is the status unless it snapped the position.
    ensures TrackedId(ev).Some? && TrackedId(ev).value in r ==>
              var id := TrackedId(ev).value;
              var prior := if id in bars then bars[id] else Unsized;
              var bar := r[id];
              var snaps := ev.status.Some? && EndsWith(ev.status.value, CompleteSuffix) && bar.length.Some?;
              && bar.length == (if SizeOf(ev).Some? then Some(AsU64(SizeOf(ev).value.1)) else prior.length)
              && bar.position == (if snaps then bar.length.value
                                  else if SizeOf(ev).Some? then AsU64(SizeOf(ev).value.0)
                                  else prior.position)
              && bar.message == (if ev.status.Some? && !snaps then ev.status.value else prior.message)
  {
    match TrackedId(ev)
    case None => bars
    case Some(id) =>
      var sized := match SizeOf(ev)
        case Some((cur, total)) =>
          var pb := if id in bars then bars[id] else Bar(Some(AsU64(total)), 0, "");
          bars[id := pb.(position := AsU64(cur), length := Some(AsU64(total)))]
        case None => bars;
      var pb := if id in sized then sized[id] else Unsized;
      var entered := sized[id := pb];
      match ev.status
      case None => entered
      case Some(msg) =>
        if msg == PullComplete then entered - {id}
        else if EndsWith(msg, CompleteSuffix) && pb.length.Some? then entered[id := pb.(position := pb.length.value)]
        else entered[id := pb.(message := msg)]
  }

  /** Folds `Step` over the stream; the first stream error stops the fold. */
  function Aggregate(bars: Bars, items: seq<PullItem>): Result<Bars, Fault>
    decreases |items|
  {
    if |items| == 0 then Ok(bars)
    else match items[0]
      case StreamFault(cause) => Err(cause)
      case Update(ev) => Aggregate(Step(bars, ev), items[1..])
  }

  predicate Mentions(item: PullItem, k: string) {
    item.Update? && TrackedId(item.event) == Some(k)
  }

  /** Index of the last event about `k`. */
  function LastMention(items: seq<PullItem>, k: string): (r: Option<nat>)
    ensures r.Some? ==> r.value < |items| && Mentions(items[r.value], k)
    ensures r.Some? ==> forall j :: r.value < j < |items| ==> !Mentions(items[j], k)
    ensures r.None? ==> forall j :: 0 <= j < |items| ==> !Mentions(items[j], k)
  {
    if |items| == 0 then None
    else if Mentions(items[|items| - 1], k) then Some(|items| - 1)
    else LastMention(items[..|items| - 1], k)
  }

  /** Reference definition of the bars open at stream end: a layer is open when its
      last event did not report "Pull complete". */
  predicate OpenAtEnd(items: seq<PullItem>, k: string) {
    match LastMention(items, k)
    case None => false
    case Some(i) => items[i].event.status != Some(PullComplete)
  }

  predicate IsFirstFault(items: seq<PullItem>, i: int) {
    0 <= i < |items| && items[i].StreamFault? && forall j :: 0 <= j < i ==> items[j].Update?
  }

  /** `pull_image` after the engine accepted the request: the set of layer ids whose
      bars are still open, and are finished and cleared, when the stream ends. */
  function PullImage(items: seq<PullItem>): (r: Result<set<string>, Error>)
    ensures r.Err? <==> exists i :: 0 <= i < |items| && items[i].StreamFault?
    ensures r.Err? ==> exists i :: IsFirstFault(items, i) && r.error == ImageCreate(items[i].cause)
    ensures r.Ok? ==> forall k :: k in r.value <==> OpenAtEnd(items, k)
    ensures r.Ok? ==> TagAlias !in r.value
  {
    AggregateFaults(map[], items);
    match Aggregate(map[], items)
    case Err(cause) => Err(ImageCreate(cause))
    case Ok(bars) =>
      forall k ensures k in bars <==> OpenAtEnd(items, k) {
        AggregateOpen(map[], items, k);
      }
      Ok(bars.Keys)
  }

  /** The fold fails exactly at the first stream error. */
  lemma {:induction false} AggregateFaults(bars: Bars, items: seq<PullItem>)
    ensures Aggregate(bars, items).Err? <==> exists i :: 0 <= i < |items| && items[i].StreamFault?
    ensures Aggregate(bars, items).Err? ==>
              exists i :: IsFirstFault(items, i) && Aggregate(bars, items).error == items[i].cause
    decreases |items|
  {
    if |items| > 0 {
      if items[0].StreamFault? {
        assert IsFirstFault(items, 0);
      } else {
        var rest := items[1..];
        AggregateFaults(Step(bars, items[0].event), rest);
        assert forall i :: 0 <= i < |rest| ==> rest[i] == items[i + 1];
        if Aggregate(bars, items).Err? {
          var i :| IsFirstFault(rest, i) && Aggregate(bars, items).error == rest[i].cause;
          assert IsFirstFault(items, i + 1);
        } else {
          forall i | 0 <= i < |items| ensures items[i].Update? {
            if i > 0 {
              assert items[i] == rest[i - 1];
            }
          }
        }
      }
    }
  }

  /** After a fold without stream errors, an id has a bar exactly when its last event
      did not retire it, or, never mentioned, when it had one to begin with. */
  lemma {:induction false} AggregateOpen(bars: Bars, items: seq<PullItem>, k: string)
    requires Aggregate(bars, items).Ok?
    ensures k in Aggregate(bars, items).value <==>
              match LastMention(items, k)
              case None => k in bars
              case Some(i) => items[i].event.status != Some(PullComplete)
    decreases |items|
  {
    if |items| > 0 {
      var ev := items[0].event;
      var rest := items[1..];
      AggregateOpen(Step(bars, ev), rest, k);
      assert forall j :: 0 <= j < |rest| ==> rest[j] == items[j + 1];
      match LastMention(rest, k)
      case Some(j) =>
        assert LastMention(items, k) == Some(j + 1) by { LastMentionUnique(items, k, j + 1); }
      case None =>
        if Mentions(items[0], k) {
          LastMentionUnique(items, k, 0);
        } else {
          assert LastMention(items, k).None?;
        }
    }
  }

  lemma LastMentionUnique(items: seq<PullItem>, k: string, i: nat)
    requires i < |items| && Mentions(items[i], k)
    requires forall j :: i < j < |items| ==> !Mentions(items[j], k)
    ensures LastMention(items, k) == Some(i)
  {
    var r := LastMention(items, k);
    assert r.Some?;
    assert !(r.value < i) && !(r.value > i);
  }

  /** A layer reported at 50 of 100 and then "Pull complete" leaves no bar behind. */
  lemma SizedThenCompleted(id: string)
    requires id != TagAlias
    ensures var sized := PullEvent(Some(id), Some(ProgressDetail(Some(50), Some(100))), None);
            var done := PullEvent(Some(id), None, Some(PullComplete));
            && Step(map[], sized) == map[id := Bar(Some(100), 50, "")]
            && PullImage([Update(sized), Update(done)]) == Ok({})
  {
    var sized := PullEvent(Some(id), Some(ProgressDetail(Some(50), Some(100))), None);
    var done := PullEvent(Some(id), None, Some(PullComplete));
    var after := Step(map[], sized);
    assert after.Keys == {id};
    assert after == map[id := Bar(Some(100), 50, "")];
    var final := Step(after, done);
    assert final == map[];
    var items := [Update(sized), Update(done)];
    assert items[1..] == [Update(done)];
    assert [Update(done)][1..] == [];
    assert Aggregate(final, []) == Ok(map[]);
    assert Aggregate(after, [Update(done)]) == Ok(map[]);
    var r := PullImage(items);
    assert r.Ok? by {
      assert forall i :: 0 <= i < |items| ==> items[i].Update?;
    }
    forall k ensures k !in r.value {
      match LastMention(items, k)
      case None =>
      case Some(i) =>
        assert Mentions(items[1], id);
    }
    assert r.value == {};
  }

  /** A completion status without a size pair snaps a bar whose length is already
      known to full, and leaves its length and message as they were. */
  lemma CompletionSnapsKnownLength(bars: Bars, ev: PullEvent)
    requires TrackedId(ev).Some? && TrackedId(ev).value in bars
    requires bars[TrackedId(ev).value].length.Some? && SizeOf(ev).None?
    requires ev.status.Some? && ev.status.value != PullComplete && EndsWith(ev.status.value, CompleteSuffix)
    ensures var id := TrackedId(ev).value;
            var before := bars[id];
            && id in Step(bars, ev)
            && Step(bars, ev)[id] == before.(position := before.length.value)
  {
    hide Step;
  }

  /** A "Pull complete" for a layer never seen before is created and dropped at once. */
  lemma CompletionOfUnknownLayerChangesNothing(bars: Bars, ev: PullEvent)
    requires TrackedId(ev).Some? && TrackedId(ev).value !in bars
    requires ev.status == Some(PullComplete)
    ensures Step(bars, ev) == bars
  {
  }
}
