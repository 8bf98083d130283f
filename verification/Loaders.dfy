/** The batched loaders of the French dictionaries: numbering or dropping duplicates, batches, and a limit. */
module Loaders {
  import opened Outcomes
  import opened Batches
  import opened Splitting

  /** The table a loader writes to. */
  class Table<T> {
    var batches: seq<seq<T>>

    constructor ()
      ensures batches == []
    {
      batches := [];
    }

    /** `_flush_entries`, which writes nothing for an empty batch. */
    method Flush(batch: seq<T>)
      modifies this
      ensures batches == if batch == [] then old(batches) else old(batches) + [batch]
    {
      if batch != [] {
        batches := batches + [batch];
      }
    }
  }

  function Limited<T>(rows: seq<T>, limit: Option<int>): seq<T> {
    if limit.None? then rows else First(rows, limit.value)
  }

  // ----- The numbering of the Sanskrit-French dictionary

  /** A chunk of the dictionary file: the id of its headword, and the hash of its body. */
  datatype Chunk = Chunk(id: string, body: string)

  datatype Numbered = Numbered(chunk: Chunk, occurrence: nat)

  /** The bodies seen under an id, each once, in the order in which they appeared. */
  function BodiesOf(chunks: seq<Chunk>, id: string): seq<string> {
    if chunks == [] then []
    else
      var before := BodiesOf(chunks[..|chunks| - 1], id);
      var last := chunks[|chunks| - 1];
      if last.id == id && last.body !in before then before + [last.body] else before
  }

  /** Each chunk but those with a body already seen under its id, numbered by the bodies before it. */
  function Numbering(chunks: seq<Chunk>): seq<Numbered> {
    if chunks == [] then []
    else
      var before := chunks[..|chunks| - 1];
      var last := chunks[|chunks| - 1];
      var bodies := BodiesOf(before, last.id);
      if last.body in bodies then Numbering(before) else Numbering(before) + [Numbered(last, |bodies|)]
  }

  function Seen(seenBodies: map<string, set<string>>, id: string): set<string> {
    if id in seenBodies then seenBodies[id] else {}
  }

  ghost predicate Tracks(seenBodies: map<string, set<string>>, chunks: seq<Chunk>) {
    forall id: string ::
      (forall body: string :: body in Seen(seenBodies, id) <==> body in BodiesOf(chunks, id))
      && |Seen(seenBodies, id)| == |BodiesOf(chunks, id)|
  }

  lemma TracksMore(seenBodies: map<string, set<string>>, chunks: seq<Chunk>, i: nat)
    requires i < |chunks| && Tracks(seenBodies, chunks[..i])
    ensures var c := chunks[i]; var seen := Seen(seenBodies, c.id); var bodies := BodiesOf(chunks[..i], c.id);
      (c.body in seen <==> c.body in bodies) && |seen| == |bodies|
      && Tracks(seenBodies[c.id := if c.body in seen then seen else seen + {c.body}], chunks[..i + 1])
      && Numbering(chunks[..i + 1])
         == if c.body in seen then Numbering(chunks[..i]) else Numbering(chunks[..i]) + [Numbered(c, |seen|)]
  {
    var c := chunks[i];
    assert chunks[..i + 1][..i] == chunks[..i];
    var seen := Seen(seenBodies, c.id);
    assert forall body: string :: body in seen <==> body in BodiesOf(chunks[..i], c.id);
    var more := seenBodies[c.id := if c.body in seen then seen else seen + {c.body}];
    forall id: string
      ensures forall body: string :: body in Seen(more, id) <==> body in BodiesOf(chunks[..i + 1], id)
      ensures |Seen(more, id)| == |BodiesOf(chunks[..i + 1], id)|
    {
      assert forall body: string :: body in Seen(seenBodies, id) <==> body in BodiesOf(chunks[..i], id);
      assert |Seen(seenBodies, id)| == |BodiesOf(chunks[..i], id)|;
    }
  }

  lemma NothingSeen(chunks: seq<Chunk>)
    ensures Tracks(map[], chunks[..0]) && Numbering(chunks[..0]) == []
  {
  }

  /** The numbering loop of `_parse_col_entries`. */
  method ParseColEntries(chunks: seq<Chunk>) returns (entries: seq<Numbered>)
    ensures entries == Numbering(chunks)
  {
    hide Tracks, Numbering, BodiesOf;
    entries := [];
    var seenBodies: map<string, set<string>> := map[];
    NothingSeen(chunks);
    for i := 0 to |chunks|
      invariant entries == Numbering(chunks[..i]) && Tracks(seenBodies, chunks[..i])
    {
      TracksMore(seenBodies, chunks, i);
      ghost var before := seenBodies;
      var chunk := chunks[i];
      var seenSet := Seen(seenBodies, chunk.id);
      seenBodies := seenBodies[chunk.id := seenSet];
      if chunk.body in seenSet {
        continue;
      }
      var occurrence := |seenSet|;
      seenBodies := seenBodies[chunk.id := seenSet + {chunk.body}];
      assert seenBodies == before[chunk.id := seenSet + {chunk.body}];
      entries := entries + [Numbered(chunk, occurrence)];
    }
    assert chunks[..|chunks|] == chunks;
  }

  /** An entry is numbered by the place of its body among the bodies of its id. */
  ghost predicate InPlace(n: Numbered, chunks: seq<Chunk>) {
    var bodies := BodiesOf(chunks, n.chunk.id);
    n.occurrence < |bodies| && bodies[n.occurrence] == n.chunk.body
  }

  lemma {:induction false} BodiesDistinct(chunks: seq<Chunk>, id: string)
    ensures forall i, j :: 0 <= i < j < |BodiesOf(chunks, id)| ==> BodiesOf(chunks, id)[i] != BodiesOf(chunks, id)[j]
    ensures forall body: string :: body in BodiesOf(chunks, id) <==> Chunk(id, body) in chunks
  {
    if chunks != [] {
      var last := chunks[|chunks| - 1];
      BodiesDistinct(chunks[..|chunks| - 1], id);
      assert chunks == chunks[..|chunks| - 1] + [last];
      assert last.id == id ==> last == Chunk(id, last.body);
    }
  }

  lemma BodiesGrow(chunks: seq<Chunk>, id: string)
    requires chunks != []
    ensures BodiesOf(chunks[..|chunks| - 1], id) <= BodiesOf(chunks, id)
  {
  }

  lemma {:induction false} NumberedInPlace(chunks: seq<Chunk>)
    ensures forall i :: 0 <= i < |Numbering(chunks)| ==> InPlace(Numbering(chunks)[i], chunks)
  {
    if chunks != [] {
      hide BodiesOf;
      var before, last := chunks[..|chunks| - 1], chunks[|chunks| - 1];
      var earlier := Numbering(before);
      NumberedInPlace(before);
      forall i | 0 <= i < |earlier|
        ensures InPlace(earlier[i], chunks)
      {
        BodiesGrow(chunks, earlier[i].chunk.id);
      }
      if last.body !in BodiesOf(before, last.id) {
        LastInPlace(chunks);
      }
    }
  }

  lemma LastInPlace(chunks: seq<Chunk>)
    requires chunks != [] && var last := chunks[|chunks| - 1]; last.body !in BodiesOf(chunks[..|chunks| - 1], last.id)
    ensures var last := chunks[|chunks| - 1];
      InPlace(Numbered(last, |BodiesOf(chunks[..|chunks| - 1], last.id)|), chunks)
  {
  }

  predicate Ascend(ns: seq<Numbered>) {
    forall i, j :: 0 <= i < j < |ns| && ns[i].chunk.id == ns[j].chunk.id ==> ns[i].occurrence < ns[j].occurrence
  }

  lemma AscendMore(ns: seq<Numbered>, n: Numbered)
    requires Ascend(ns)
    requires forall i :: 0 <= i < |ns| && ns[i].chunk.id == n.chunk.id ==> ns[i].occurrence < n.occurrence
    ensures Ascend(ns + [n])
  {
  }

  lemma {:induction false} NumbersAscend(chunks: seq<Chunk>)
    ensures Ascend(Numbering(chunks))
  {
    if chunks != [] {
      hide BodiesOf;
      var before, last := chunks[..|chunks| - 1], chunks[|chunks| - 1];
      var earlier := Numbering(before);
      NumbersAscend(before);
      NumberedInPlace(before);
      forall i | 0 <= i < |earlier| && earlier[i].chunk.id == last.id
        ensures earlier[i].occurrence < |BodiesOf(before, last.id)|
      {
        assert InPlace(earlier[i], before);
      }
      AscendMore(earlier, Numbered(last, |BodiesOf(before, last.id)|));
    }
  }

  lemma {:induction false} BodyNumbered(chunks: seq<Chunk>, id: string, k: nat)
    requires k < |BodiesOf(chunks, id)|
    ensures Numbered(Chunk(id, BodiesOf(chunks, id)[k]), k) in Numbering(chunks)
  {
    var before, last := chunks[..|chunks| - 1], chunks[|chunks| - 1];
    if k < |BodiesOf(before, id)| {
      BodyNumbered(before, id, k);
    } else {
      assert last == Chunk(id, BodiesOf(chunks, id)[k]);
    }
  }

  /**
   * The entries are exactly the distinct chunks, each once; the occurrences of an id ascend in the order
   * of the file.
   */
  lemma NumberingIsExact(chunks: seq<Chunk>, c: Chunk)
    ensures c in chunks <==> exists k: nat :: Numbered(c, k) in Numbering(chunks)
    ensures var ns := Numbering(chunks);
      Ascend(ns) && forall i, j :: 0 <= i < j < |ns| ==> ns[i].chunk != ns[j].chunk
  {
    hide BodiesOf, Numbering;
    NumberedInPlace(chunks);
    NumbersAscend(chunks);
    BodiesDistinct(chunks, c.id);
    var ns := Numbering(chunks);
    if c in chunks {
      var k :| 0 <= k < |BodiesOf(chunks, c.id)| && BodiesOf(chunks, c.id)[k] == c.body;
      BodyNumbered(chunks, c.id, k);
    }
    if k: nat :| Numbered(c, k) in ns {
      var i :| 0 <= i < |ns| && ns[i] == Numbered(c, k);
      assert InPlace(ns[i], chunks);
    }
    forall i, j | 0 <= i < j < |ns|
      ensures ns[i].chunk != ns[j].chunk
    {
      BodiesDistinct(chunks, ns[i].chunk.id);
      assert InPlace(ns[i], chunks) && InPlace(ns[j], chunks);
    }
  }

  /** No number below one given to an id is left out. */
  lemma NumberingHasNoGaps(chunks: seq<Chunk>, n: Numbered, k: nat)
    requires n in Numbering(chunks) && k < n.occurrence
    ensures exists body :: Numbered(Chunk(n.chunk.id, body), k) in Numbering(chunks)
  {
    hide BodiesOf, Numbering;
    NumberedInPlace(chunks);
    var i :| 0 <= i < |Numbering(chunks)| && Numbering(chunks)[i] == n;
    assert InPlace(Numbering(chunks)[i], chunks);
    BodyNumbered(chunks, n.chunk.id, k);
  }

  // ----- Loading in batches, up to a limit

  /** What a loader has written and what it still holds, with its running total. */
  ghost predicate Holds<T>(written: seq<seq<T>>, pending: seq<T>, total: nat, rows: seq<T>, batchSize: int) {
    && Concat(written) + pending == rows && total + |pending| == |rows|
    && AllFull(written, batchSize) && |pending| < BatchCapacity(batchSize)
  }

  lemma HoldsOneMore<T>(written: seq<seq<T>>, pending: seq<T>, total: nat, rows: seq<T>, row: T, batchSize: int)
    requires Holds(written, pending, total, rows, batchSize)
    ensures var more := pending + [row];
      && (|more| < batchSize ==> Holds(written, more, total, rows + [row], batchSize))
      && (|more| >= batchSize ==> Holds(written + [more], [], total + |more|, rows + [row], batchSize))
      && Ends(written, more, total, rows + [row], batchSize)
  {
    Batching(written, pending, row, batchSize);
    var more := pending + [row];
    assert Concat(written + [more]) + [] == Concat(written + [more]);
    LastBatch(written, more, batchSize);
  }

  /** Flushing what is still held ends with just the given rows written. */
  ghost predicate Ends<T>(written: seq<seq<T>>, pending: seq<T>, total: nat, rows: seq<T>, batchSize: int) {
    var all := if pending == [] then written else written + [pending];
    WellBatched(all, batchSize) && Concat(all) == rows && total + |pending| == |rows|
  }

  lemma HeldEnds<T>(written: seq<seq<T>>, pending: seq<T>, total: nat, rows: seq<T>, batchSize: int)
    requires Holds(written, pending, total, rows, batchSize)
    ensures Ends(written, pending, total, rows, batchSize)
  {
    LastBatch(written, pending, batchSize);
  }

  lemma NothingHeld<T>(batchSize: int)
    ensures Holds<T>([], [], 0, [], batchSize)
    ensures Ends<T>([], [], 0, [], batchSize)
  {
    assert Concat<T>([]) + [] == [];
  }

  /** `_load_entries` of the Sanskrit-French dictionary */
  method LoadDico<T>(table: Table<T>, entries: seq<T>, limit: Option<int>, batchSize: int)
    returns (total: nat, ghost written: seq<seq<T>>)
    modifies table
    ensures table.batches == old(table.batches) + written && WellBatched(written, batchSize)
    ensures Concat(written) == Limited(entries, limit) && total == |Limited(entries, limit)|
  {
    hide Concat, WellBatched, Holds, Ends, BatchCapacity, SliceTo, Limited, First;
    total, written := 0, [];
    var pending: seq<T> := [];
    NothingHeld<T>(batchSize);
    var i := 0;
    while i < |entries|
      invariant i <= |entries| && total + |pending| == i
      invariant Holds(written, pending, total, entries[..i], batchSize)
      invariant limit.Some? ==> i < limit.value || i == 0
      invariant table.batches == old(table.batches) + written
    {
      HoldsNext(written, pending, total, entries, i, batchSize);
      if limit.Some? && total + |pending| + 1 >= limit.value {
        var remaining := limit.value - total;
        var last := SliceTo(pending + [entries[i]], remaining);
        LimitCuts(written, pending, total, entries, i, limit.value, batchSize);
        table.Flush(last);
        written := if last == [] then written else written + [last];
        total := total + |last|;
        return;
      }
      pending := pending + [entries[i]];
      i := i + 1;
      if |pending| >= batchSize {
        table.Flush(pending);
        written := written + [pending];
        total := total + |pending|;
        pending := [];
      }
    }
    NotCut(written, pending, total, entries, limit, batchSize);
    table.Flush(pending);
    written := if pending == [] then written else written + [pending];
    total := total + |pending|;
  }

  lemma HoldsNext<T>(written: seq<seq<T>>, pending: seq<T>, total: nat, entries: seq<T>, i: nat, batchSize: int)
    requires i < |entries| && Holds(written, pending, total, entries[..i], batchSize)
    ensures var more := pending + [entries[i]];
      && (|more| < batchSize ==> Holds(written, more, total, entries[..i + 1], batchSize))
      && (|more| >= batchSize ==> Holds(written + [more], [], total + |more|, entries[..i + 1], batchSize))
      && Ends(written, more, total, entries[..i + 1], batchSize)
  {
    hide Holds, Ends;
    HoldsOneMore(written, pending, total, entries[..i], entries[i], batchSize);
    assert entries[..i + 1] == entries[..i] + [entries[i]];
  }

  /** What is written once the rest is flushed, when no limit was reached. */
  lemma NotCut<T>(written: seq<seq<T>>, pending: seq<T>, total: nat, entries: seq<T>, limit: Option<int>,
                  batchSize: int)
    requires Holds(written, pending, total, entries[..|entries|], batchSize)
    requires limit.Some? ==> |entries| < limit.value || entries == []
    ensures var all := if pending == [] then written else written + [pending]; var rows := Limited(entries, limit);
      WellBatched(all, batchSize) && Concat(all) == rows && total + |pending| == |rows|
  {
    hide Holds, WellBatched, Concat;
    assert entries[..|entries|] == entries;
    HeldEnds(written, pending, total, entries, batchSize);
  }

  lemma FlushEnds<T>(written: seq<seq<T>>, pending: seq<T>, total: nat, rows: seq<T>, batchSize: int)
    requires Ends(written, pending, total, rows, batchSize)
    ensures var all := if pending == [] then written else written + [pending];
      WellBatched(all, batchSize) && Concat(all) == rows && total + |pending| == |rows|
  {
  }

  /** At the limit, the slice leaves just the rows up to it; below one, none. */
  lemma LimitCuts<T>(written: seq<seq<T>>, pending: seq<T>, total: nat, entries: seq<T>, i: nat, limit: int,
                     batchSize: int)
    requires i < |entries| && Holds(written, pending, total, entries[..i], batchSize)
    requires Ends(written, pending + [entries[i]], total, entries[..i + 1], batchSize)
    requires (i < limit || i == 0) && i + 1 >= limit
    ensures var last, rows := SliceTo(pending + [entries[i]], limit - total), Limited(entries, Some(limit));
      var all := if last == [] then written else written + [last];
      WellBatched(all, batchSize) && Concat(all) == rows && total + |last| == |rows|
  {
    hide WellBatched, Concat;
    var more := pending + [entries[i]];
    if limit < 1 {
      assert written == [] && pending == [] by { NothingWritten(written, pending, total, entries[..i], batchSize); }
      assert SliceTo(more, limit - total) == [];
      NothingHeld<T>(batchSize);
    } else {
      assert SliceTo(more, limit - total) == more;
    }
  }

  lemma NothingWritten<T>(written: seq<seq<T>>, pending: seq<T>, total: nat, rows: seq<T>, batchSize: int)
    requires Holds(written, pending, total, rows, batchSize) && rows == []
    ensures written == [] && pending == [] && total == 0
  {
    ConcatCounts(written, batchSize);
  }

  lemma {:induction false} ConcatCounts<T>(batches: seq<seq<T>>, batchSize: int)
    requires AllFull(batches, batchSize)
    ensures |Concat(batches)| >= |batches|
  {
    if batches != [] {
      ConcatCounts(batches[..|batches| - 1], batchSize);
    }
  }

  // ----- The Latin-French dictionary: duplicate bodies dropped

  datatype Source = Source(hash: string, content: string)

  /** A row, with the place of its entry in the source, from one. */
  datatype Row = Row(place: nat, source: Source)

  predicate HashSeen(entries: seq<Source>, hash: string) {
    exists i :: 0 <= i < |entries| && entries[i].hash == hash
  }

  /** The first entry of each hash. */
  function FirstOfHash(entries: seq<Source>): seq<Row> {
    if entries == [] then []
    else
      var before := entries[..|entries| - 1];
      var last := entries[|entries| - 1];
      if HashSeen(before, last.hash) then FirstOfHash(before) else FirstOfHash(before) + [Row(|entries|, last)]
  }

  /** What is loaded: the first rows up to the limit, but one row even for a limit below one. */
  function LoadedRows(entries: seq<Source>, limit: Option<int>): seq<Row> {
    if limit.None? then FirstOfHash(entries)
    else First(FirstOfHash(entries), if limit.value < 1 then 1 else limit.value)
  }

  lemma {:induction false} FirstOfHashPrefix(entries: seq<Source>, i: nat)
    requires i <= |entries|
    ensures FirstOfHash(entries[..i]) <= FirstOfHash(entries)
  {
    if i == |entries| {
      assert entries[..i] == entries;
    } else {
      FirstOfHashPrefix(entries[..|entries| - 1], i);
      assert entries[..|entries| - 1][..i] == entries[..i];
    }
  }

  lemma FirstOfHashStep(entries: seq<Source>, i: nat)
    requires i < |entries|
    ensures FirstOfHash(entries[..i + 1])
         == if HashSeen(entries[..i], entries[i].hash) then FirstOfHash(entries[..i])
            else FirstOfHash(entries[..i]) + [Row(i + 1, entries[i])]
    ensures forall hash: string :: HashSeen(entries[..i + 1], hash) <==>
      HashSeen(entries[..i], hash) || hash == entries[i].hash
  {
    var more := entries[..i + 1];
    assert more[..i] == entries[..i] && more[i] == entries[i];
    forall hash: string | HashSeen(entries[..i], hash)
      ensures HashSeen(more, hash)
    {
      var k :| 0 <= k < i && entries[..i][k].hash == hash;
      assert more[k].hash == hash;
    }
    forall hash: string | HashSeen(more, hash) && hash != entries[i].hash
      ensures HashSeen(entries[..i], hash)
    {
      var k :| 0 <= k < i + 1 && more[k].hash == hash;
      assert entries[..i][k].hash == hash;
    }
  }

  ghost predicate SeenHashes(seen: set<string>, entries: seq<Source>) {
    forall hash: string :: hash in seen <==> HashSeen(entries, hash)
  }

  lemma SeenHashesStep(seen: set<string>, entries: seq<Source>, i: nat)
    requires i < |entries| && SeenHashes(seen, entries[..i])
    ensures SeenHashes(seen + {entries[i].hash}, entries[..i + 1])
    ensures FirstOfHash(entries[..i + 1])
         == if entries[i].hash in seen then FirstOfHash(entries[..i])
            else FirstOfHash(entries[..i]) + [Row(i + 1, entries[i])]
  {
    hide HashSeen;
    FirstOfHashStep(entries, i);
  }

  /** `_load_entries` of the Latin-French dictionary */
  method LoadGaffiot(table: Table<Row>, entries: seq<Source>, limit: Option<int>, batchSize: int)
    returns (total: nat, ghost written: seq<seq<Row>>)
    modifies table
    ensures table.batches == old(table.batches) + written && WellBatched(written, batchSize)
    ensures Concat(written) == LoadedRows(entries, limit) && total == |LoadedRows(entries, limit)|
  {
    hide Concat, WellBatched, Holds, FirstOfHash, SeenHashes, Ends, LoadedRows, BatchCapacity;
    total, written := 0, [];
    var pending: seq<Row> := [];
    var seen: set<string> := {};
    NothingHeld<Row>(batchSize);
    NothingHashed(entries);
    var i := 0;
    while i < |entries|
      invariant i <= |entries| && SeenHashes(seen, entries[..i]) && total + |pending| == |FirstOfHash(entries[..i])|
      invariant Holds(written, pending, total, FirstOfHash(entries[..i]), batchSize)
      invariant limit.Some? ==> total + |pending| < limit.value || total + |pending| == 0
      invariant table.batches == old(table.batches) + written
    {
      SeenHashesStep(seen, entries, i);
      var entry := entries[i];
      i := i + 1;
      if entry.hash in seen {
        assert seen + {entry.hash} == seen;
        continue;
      }
      seen := seen + {entry.hash};
      HoldsOneMore(written, pending, total, FirstOfHash(entries[..i - 1]), Row(i, entry), batchSize);
      pending := pending + [Row(i, entry)];
      if limit.Some? {
        var remaining := limit.value - total;
        if remaining <= 0 || |pending| >= remaining {
          LimitReached(entries, i, limit.value);
          pending := if remaining <= 0 then pending else SliceTo(pending, remaining);
          FlushEnds(written, pending, total, LoadedRows(entries, limit), batchSize);
          table.Flush(pending);
          written := written + [pending];
          total := total + |pending|;
          return;
        }
      }
      if |pending| >= batchSize {
        table.Flush(pending);
        written := written + [pending];
        total := total + |pending|;
        pending := [];
      }
    }
    assert entries[..i] == entries;
    HeldEnds(written, pending, total, FirstOfHash(entries), batchSize);
    FlushEnds(written, pending, total, FirstOfHash(entries), batchSize);
    AllLoaded(entries, limit);
    table.Flush(pending);
    written := if pending == [] then written else written + [pending];
    total := total + |pending|;
  }

  lemma NothingHashed(entries: seq<Source>)
    ensures SeenHashes({}, entries[..0]) && FirstOfHash(entries[..0]) == []
  {
  }

  lemma AllLoaded(entries: seq<Source>, limit: Option<int>)
    requires limit.Some? ==> |FirstOfHash(entries)| < limit.value || FirstOfHash(entries) == []
    ensures LoadedRows(entries, limit) == FirstOfHash(entries)
  {
  }

  lemma LimitReached(entries: seq<Source>, i: nat, limit: int)
    requires i <= |entries| && |FirstOfHash(entries[..i])| == if limit < 1 then 1 else limit
    ensures FirstOfHash(entries[..i]) == LoadedRows(entries, Some(limit))
  {
    hide FirstOfHash;
    FirstOfHashPrefix(entries, i);
  }

  /** No two rows share a hash, every hash has a row, and each row is the first entry with its hash. */
  lemma {:induction false} RowsAreFirst(entries: seq<Source>)
    ensures forall r :: r in FirstOfHash(entries) <==>
      1 <= r.place <= |entries| && entries[r.place - 1] == r.source && !HashSeen(entries[..r.place - 1], r.source.hash)
  {
    if entries != [] {
      hide HashSeen;
      var n := |entries| - 1;
      RowsAreFirst(entries[..n]);
      assert forall k: nat :: k <= n ==> entries[..n][..k] == entries[..k];
      assert forall k :: 0 <= k < n ==> entries[..n][k] == entries[k];
    }
  }

  /** The limit is kept exactly if it is at least one, or there is nothing to load. */
  lemma LimitKept(entries: seq<Source>, limit: int)
    ensures |LoadedRows(entries, Some(limit))| <= (if limit < 0 then 0 else limit) <==> limit >= 1 || entries == []
  {
    if entries != [] {
      FirstOfHashPrefix(entries, 1);
      assert entries[..1] == [entries[0]] && [entries[0]][..0] == [];
      assert FirstOfHash(entries[..1]) == [Row(1, entries[0])];
    }
  }
}
