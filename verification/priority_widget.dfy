/** `PriorityProvider`: the timeline provider of the priority widget. It
    fetches today's todos for the configured priority, cuts them into chunks
    of at most three and turns every chunk into one timeline entry. */
module PriorityWidget {
  import opened Wrappers
  import opened Todo

  /** `PrioritySelectionIntent`: only `priority?.intValue` is read. */
  datatype Configuration = Configuration(priority: Option<int>)

  /** Errors a fetch can throw; `FailureFetch` is `CoreDataStoreError.failureFetch`. */
  datatype StoreError = FailureFetch | StoreFailure(description: string)

  /** The outcome of one fetch from the item store. */
  datatype FetchResult = Ok(items: seq<Item>) | Fail(error: StoreError)

  /** `TodoListStore().fetchTodayItems(by:)`: today's items with a given raw priority. */
  type Store = int -> FetchResult

  /** `PriorityEntry`. */
  datatype Entry = Entry(date: Date, priority: Priority, todoList: seq<Item>)

  /** The two reload policies the provider uses. */
  datatype Policy = AtEnd | Never

  datatype Timeline = Timeline(entries: seq<Entry>, policy: Policy)

  const ChunkSize: nat := 3

  function Min(a: int, b: int): int { if a < b then a else b }

  function Last<T>(xs: seq<T>): T
    requires |xs| > 0
  {
    xs[|xs| - 1]
  }

  /** The items of a list of chunks, in order. */
  function Flatten<T>(chunks: seq<seq<T>>): seq<T>
  {
    if |chunks| == 0 then [] else chunks[0] + Flatten(chunks[1..])
  }

  /** `fetchPriority(for:)`: without a configured priority it throws
      `failureFetch` and never reaches the store; otherwise it passes the
      store's answer on unchanged. */
  function FetchPriority(configuration: Configuration, store: Store): (r: FetchResult)
    ensures configuration.priority.None? ==> r == Fail(FailureFetch)
    ensures configuration.priority.Some? ==> r == store(configuration.priority.value)
  {
    match configuration.priority
    case None => Fail(FailureFetch)
    case Some(value) => store(value)
  }

  /** Without a configured priority, the store's contents cannot matter. */
  lemma UnsetPriorityIgnoresStore(configuration: Configuration, s1: Store, s2: Store)
    requires configuration.priority.None?
    ensures FetchPriority(configuration, s1) == FetchPriority(configuration, s2) == Fail(FailureFetch)
  {
  }

  /** `stride(from:to:by:)` for a positive step: the values `from`,
      `from + step`, ... that lie below `to`. */
  function Stride(from: int, to: int, step: int): (r: seq<int>)
    requires step > 0
    ensures forall k :: 0 <= k < |r| ==> r[k] == from + k * step
    ensures from < to ==> |r| > 0 && from + (|r| - 1) * step < to <= from + |r| * step
    ensures to <= from ==> r == []
    decreases if from < to then to - from else 0
  {
    if from < to then [from] + Stride(from + step, to, step) else []
  }

  /** `divideByThree(todoList:)`: one chunk per stride start, each the slice
      from that start up to three items further or the end of the list. */
  function DivideByThree(todoList: seq<Item>): (chunks: seq<seq<Item>>)
    ensures |chunks| == (|todoList| + ChunkSize - 1) / ChunkSize
    ensures forall k :: 0 <= k < |chunks| ==> 0 < |chunks[k]| <= ChunkSize
    ensures forall k :: 0 <= k < |chunks| - 1 ==> |chunks[k]| == ChunkSize
  {
    var starts := Stride(0, |todoList|, ChunkSize);
    seq(|starts|, k requires 0 <= k < |starts| =>
      todoList[starts[k] .. Min(starts[k] + ChunkSize, |todoList|)])
  }

  /** Chunk `k` is the slice starting at item `ChunkSize * k`. */
  lemma DivideByThreeChunk(todoList: seq<Item>, k: int)
    requires 0 <= k < |DivideByThree(todoList)|
    ensures ChunkSize * k < |todoList|
    ensures DivideByThree(todoList)[k] == todoList[ChunkSize * k .. Min(ChunkSize * k + ChunkSize, |todoList|)]
  {
  }

  lemma {:induction false} FlattenSuffix(todoList: seq<Item>, j: nat)
    requires j <= |DivideByThree(todoList)|
    ensures Flatten(DivideByThree(todoList)[j..]) == todoList[Min(ChunkSize * j, |todoList|)..]
    decreases |DivideByThree(todoList)| - j
  {
    var chunks := DivideByThree(todoList);
    if j < |chunks| {
      DivideByThreeChunk(todoList, j);
      FlattenSuffix(todoList, j + 1);
      assert chunks[j..][1..] == chunks[j + 1..];
      var lo := ChunkSize * j;
      var hi := Min(ChunkSize * j + ChunkSize, |todoList|);
      assert Min(ChunkSize * (j + 1), |todoList|) == hi;
      assert todoList[lo..hi] + todoList[hi..] == todoList[lo..];
    }
  }

  /** Concatenating the chunks in order gives back the list: nothing is
      dropped, duplicated or reordered. */
  lemma DivideByThreeFlattens(todoList: seq<Item>)
    ensures Flatten(DivideByThree(todoList)) == todoList
  {
    FlattenSuffix(todoList, 0);
    assert DivideByThree(todoList)[0..] == DivideByThree(todoList);
  }

  /** Seven items give chunks of sizes 3, 3 and 1; an empty list gives no chunk. */
  lemma DivideByThreeSizes(todoList: seq<Item>)
    ensures |todoList| == 0 ==> DivideByThree(todoList) == []
    ensures |todoList| == 7 ==>
      var chunks := DivideByThree(todoList);
      |chunks| == 3 && |chunks[0]| == 3 && |chunks[1]| == 3 && |chunks[2]| == 1
      && chunks[2] == [todoList[6]]
  {
    if |todoList| == 7 {
      DivideByThreeChunk(todoList, 2);
    }
  }

  /** The entry built for one chunk inside `getTimeline`. A non-empty chunk
      takes its date and priority from its last item. The branch for an empty
      chunk force-unwraps the configured priority and its decoding, and traps
      when either is missing. */
  function EntryFor(chunk: seq<Item>, configuration: Configuration,
                    decode: RawPriorityDecoder, now: Date): (r: Run<Entry>)
    ensures r.Traps? ==> chunk == []
    ensures r.Returns? ==> r.value.todoList == chunk
  {
    if |chunk| > 0 then
      Returns(Entry(Last(chunk).startDate, Last(chunk).priority, chunk))
    else
      match configuration.priority
      case None => Traps
      case Some(value) =>
        match decode(value)
        case None => Traps
        case Some(selected) => Returns(Entry(now, selected, []))
  }

  /** The `forEach` over the chunks: one entry per chunk, in chunk order; a
      trap in any chunk stops the whole provider. */
  function BuildEntries(chunks: seq<seq<Item>>, configuration: Configuration,
                        decode: RawPriorityDecoder, now: Date): (r: Run<seq<Entry>>)
    ensures (forall k :: 0 <= k < |chunks| ==> |chunks[k]| > 0) ==>
      && r.Returns?
      && |r.value| == |chunks|
      && forall k :: 0 <= k < |chunks| ==>
           r.value[k] == Entry(Last(chunks[k]).startDate, Last(chunks[k]).priority, chunks[k])
    decreases |chunks|
  {
    if |chunks| == 0 then Returns([])
    else
      match EntryFor(chunks[0], configuration, decode, now)
      case Traps => Traps
      case Returns(entry) =>
        match BuildEntries(chunks[1..], configuration, decode, now)
        case Traps => Traps
        case Returns(rest) => Returns([entry] + rest)
  }

  /** `getTimeline(for:in:completion:)`. It never traps: every chunk is
      non-empty, so the force-unwrapping branch is never taken. */
  function GetTimeline(configuration: Configuration, store: Store,
                       decode: RawPriorityDecoder, now: Date): (r: Run<Timeline>)
    ensures r.Returns?
    ensures FetchPriority(configuration, store).Fail? ==>
      r.value == Timeline([Entry(now, Low, [])], Never)
    ensures FetchPriority(configuration, store).Ok? ==>
      var chunks := DivideByThree(FetchPriority(configuration, store).items);
      && r.value.policy == AtEnd
      && |r.value.entries| == |chunks|
      && forall k :: 0 <= k < |chunks| ==>
           r.value.entries[k] == Entry(Last(chunks[k]).startDate, Last(chunks[k]).priority, chunks[k])
  {
    match FetchPriority(configuration, store)
    case Fail(_) => Returns(Timeline([Entry(now, Low, [])], Never))
    case Ok(todoList) =>
      match BuildEntries(DivideByThree(todoList), configuration, decode, now)
      case Traps => Traps
      case Returns(entries) => Returns(Timeline(entries, AtEnd))
  }

  /** The lists shown by a sequence of entries. */
  function TodoLists(entries: seq<Entry>): (lists: seq<seq<Item>>)
    ensures |lists| == |entries|
  {
    seq(|entries|, k requires 0 <= k < |entries| => entries[k].todoList)
  }

  /** After a successful fetch, the entries together show exactly the fetched
      items in fetched order, ceil(n/3) entries for n items, so none at all for
      an empty list. */
  lemma TimelineCoversFetch(configuration: Configuration, store: Store,
                            decode: RawPriorityDecoder, now: Date)
    requires FetchPriority(configuration, store).Ok?
    ensures var items := FetchPriority(configuration, store).items;
            var entries := GetTimeline(configuration, store, decode, now).value.entries;
            && Flatten(TodoLists(entries)) == items
            && |entries| == (|items| + ChunkSize - 1) / ChunkSize
  {
    var items := FetchPriority(configuration, store).items;
    var entries := GetTimeline(configuration, store, decode, now).value.entries;
    assert TodoLists(entries) == DivideByThree(items);
    DivideByThreeFlattens(items);
  }

  /** Seven fetched items give three entries showing 3, 3 and 1 items; the
      third is dated by the seventh item and carries its priority. */
  lemma TimelineSevenItems(configuration: Configuration, store: Store,
                           decode: RawPriorityDecoder, now: Date)
    requires FetchPriority(configuration, store).Ok?
    requires |FetchPriority(configuration, store).items| == 7
    ensures var items := FetchPriority(configuration, store).items;
            var t := GetTimeline(configuration, store, decode, now).value;
            && t.policy == AtEnd
            && |t.entries| == 3
            && |t.entries[0].todoList| == 3 && |t.entries[1].todoList| == 3
            && t.entries[2] == Entry(items[6].startDate, items[6].priority, [items[6]])
  {
    DivideByThreeSizes(FetchPriority(configuration, store).items);
  }

  /** The empty-chunk branch is dead code: the timeline never depends on how
      raw priorities decode, the only thing that branch reads. */
  lemma TimelineIgnoresDecoder(configuration: Configuration, store: Store,
                               d1: RawPriorityDecoder, d2: RawPriorityDecoder, now: Date)
    ensures GetTimeline(configuration, store, d1, now) == GetTimeline(configuration, store, d2, now)
  {
    var t1 := GetTimeline(configuration, store, d1, now);
    var t2 := GetTimeline(configuration, store, d2, now);
    if FetchPriority(configuration, store).Ok? {
      assert t1.value.entries == t2.value.entries;
    }
  }

  /** `getSnapshot(for:in:completion:)` outside preview. The fetch comes first
      under `try!`, so a failed fetch traps. A configured priority whose raw
      value does not decode gives an empty `.low` entry; a recognised one gives
      an entry with the whole fetched list, unchunked. */
  function GetSnapshot(configuration: Configuration, store: Store,
                       decode: RawPriorityDecoder, now: Date): (r: Run<Entry>)
    ensures r.Traps? <==> FetchPriority(configuration, store).Fail?
    ensures r.Returns? ==> r.value.date == now
    ensures r.Returns? ==>
      var value := configuration.priority.value;
      if decode(value).Some? then
        r.value.priority == decode(value).value
        && r.value.todoList == FetchPriority(configuration, store).items
      else
        r.value.priority == Low && r.value.todoList == []
  {
    match FetchPriority(configuration, store)
    case Fail(_) => Traps
    case Ok(todoList) =>
      if configuration.priority.Some? && decode(configuration.priority.value).Some? then
        Returns(Entry(now, decode(configuration.priority.value).value, todoList))
      else
        Returns(Entry(now, Low, []))
  }

  /** A recognised snapshot shows the same items as the whole timeline for the
      same configuration and store, only without the chunking. */
  lemma SnapshotIsUnchunkedTimeline(configuration: Configuration, store: Store,
                                    decode: RawPriorityDecoder, now: Date)
    requires GetSnapshot(configuration, store, decode, now).Returns?
    requires decode(configuration.priority.value).Some?
    ensures GetSnapshot(configuration, store, decode, now).value.todoList
         == Flatten(TodoLists(GetTimeline(configuration, store, decode, now).value.entries))
  {
    TimelineCoversFetch(configuration, store, decode, now);
  }

  /** With no priority configured the snapshot traps at the fetch, so the
      `.low` fallback of its guard is reached only for an unknown raw value. */
  lemma UnsetPrioritySnapshotTraps(configuration: Configuration, store: Store,
                                   decode: RawPriorityDecoder, now: Date)
    requires configuration.priority.None?
    ensures GetSnapshot(configuration, store, decode, now).Traps?
  {
  }
}
