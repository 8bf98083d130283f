/** Importing a dictionary from its source file, one entry a line, each linked to its neighbours. */
module LinkedImport {
  import opened Outcomes
  import opened EntryIndex
  import opened Batches

  type Bytes = seq<bv8>

  const NEWLINE: bv8 := 10

  /** Where the line that starts at `pos` ends: behind its newline, or at the end of the file. */
  function LineEnd(data: Bytes, pos: nat): (end: nat)
    requires pos < |data|
    ensures pos < end <= |data|
    ensures forall i :: pos <= i < end - 1 ==> data[i] != NEWLINE
    ensures end < |data| ==> data[end - 1] == NEWLINE
    decreases |data| - pos
  {
    if data[pos] == NEWLINE || pos + 1 == |data| then pos + 1 else LineEnd(data, pos + 1)
  }

  /** The entries of the lines from `pos` on, unlinked; `read` finds the content of a line, if it has a headword. */
  function EntriesFrom(data: Bytes, pos: nat, read: Bytes -> Option<string>): seq<Entry>
    requires pos <= |data|
    decreases |data| - pos
  {
    if pos == |data| then []
    else
      var end := LineEnd(data, pos);
      var content := read(data[pos..end]);
      (if content.Some? then [Entry(pos, content.value, None, None)] else []) + EntriesFrom(data, end, read)
  }

  function OffsetAt(entries: seq<Entry>, i: int): Option<int> {
    if 0 <= i < |entries| then Some(entries[i].offset) else None
  }

  function LinkedAt(entries: seq<Entry>, i: nat): Entry
    requires i < |entries|
  {
    entries[i].(previous := OffsetAt(entries, i - 1), next := OffsetAt(entries, i + 1))
  }

  /** The doubly linked list of the entries. */
  function Linked(entries: seq<Entry>): (linked: seq<Entry>)
    ensures |linked| == |entries|
    ensures forall i :: 0 <= i < |linked| ==> linked[i] == LinkedAt(entries, i)
  {
    seq(|entries|, i requires 0 <= i < |entries| => LinkedAt(entries, i))
  }

  function Limited(entries: seq<Entry>, limit: Option<int>): seq<Entry> {
    if limit.Some? && 0 < limit.value < |entries| then entries[..limit.value] else entries
  }

  /** What an import inserts: the first entries, up to the limit, of the linked list of the whole file. */
  function Imported(data: Bytes, read: Bytes -> Option<string>, limit: Option<int>): seq<Entry> {
    Limited(Linked(EntriesFrom(data, 0, read)), limit)
  }

  // ----- One entry more

  lemma LinkedGrows(entries: seq<Entry>, entry: Entry)
    requires entries != []
    ensures var more := entries + [entry]; var last := |entries| - 1;
      Linked(more)[..last + 1] == Linked(entries)[..last] + [Linked(entries)[last].(next := Some(entry.offset))]
      && Linked(more)[last + 1] == entry.(previous := Some(entries[last].offset), next := None)
  {
    var more := entries + [entry];
    var last := |entries| - 1;
    forall i | 0 <= i <= last
      ensures Linked(more)[i] == (Linked(entries)[..last] + [Linked(entries)[last].(next := Some(entry.offset))])[i]
    {
      assert OffsetAt(more, i - 1) == OffsetAt(entries, i - 1);
      assert i < last ==> OffsetAt(more, i + 1) == OffsetAt(entries, i + 1);
    }
  }

  /** The links of entries that have a successor do not depend on what else follows. */
  lemma LinkedPrefix(entries: seq<Entry>, more: seq<Entry>, k: nat)
    requires k < |entries|
    ensures Linked(entries + more)[..k] == Linked(entries)[..k]
  {
    forall i | 0 <= i < k
      ensures Linked(entries + more)[i] == Linked(entries)[i]
    {
      assert OffsetAt(entries + more, i - 1) == OffsetAt(entries, i - 1);
      assert OffsetAt(entries + more, i + 1) == OffsetAt(entries, i + 1);
    }
  }

  lemma EntriesStep(data: Bytes, pos: nat, read: Bytes -> Option<string>, found: seq<Entry>)
    requires pos < |data|
    ensures var end := LineEnd(data, pos); var content := read(data[pos..end]);
      found + EntriesFrom(data, pos, read)
      == found + (if content.Some? then [Entry(pos, content.value, None, None)] else []) + EntriesFrom(data, end, read)
  {
    hide LineEnd;
    var end := LineEnd(data, pos);
    var content := read(data[pos..end]);
    var here := if content.Some? then [Entry(pos, content.value, None, None)] else [];
    assert EntriesFrom(data, pos, read) == here + EntriesFrom(data, end, read);
    hide EntriesFrom;
    assert found + (here + EntriesFrom(data, end, read)) == (found + here) + EntriesFrom(data, end, read);
    assert found + [] == found;
  }

  // ----- The import

  /** What the import holds back: the last entry found, whose successor is not known yet. */
  function HeldBack(found: seq<Entry>): Option<Entry> {
    if found == [] then None else Some(Linked(found)[|found| - 1])
  }

  /** What the import has let go: all entries found but the last. */
  function LetGo(found: seq<Entry>): seq<Entry> {
    if found == [] then [] else Linked(found)[..|found| - 1]
  }

  lemma LetsGoOne(found: seq<Entry>, entry: Entry)
    requires entry.previous.None? && entry.next.None?
    ensures LetGo(found + [entry])
            == if found == [] then [] else LetGo(found) + [HeldBack(found).value.(next := Some(entry.offset))]
    ensures HeldBack(found + [entry]) == Some(entry.(previous := OffsetAt(found, |found| - 1)))
  {
    if found != [] {
      LinkedGrows(found, entry);
    } else {
      assert [] + [entry] == [entry];
    }
  }

  lemma HeldBackOffset(found: seq<Entry>)
    ensures HeldBack(found).None? <==> found == []
    ensures found == [] ==> LetGo(found) == []
    ensures HeldBack(found).Some? ==> Some(HeldBack(found).value.offset) == OffsetAt(found, |found| - 1)
  {
  }

  /** Where an import is: the entries `found` in the file before `pos`, the one held back, and those let go. */
  predicate Importing(data: Bytes, read: Bytes -> Option<string>, found: seq<Entry>, pos: nat,
                      heldBack: Option<Entry>, letGo: seq<Entry>) {
    && pos <= |data| && found + EntriesFrom(data, pos, read) == EntriesFrom(data, 0, read)
    && heldBack == HeldBack(found) && letGo == LetGo(found)
  }

  lemma ImportSteps(data: Bytes, read: Bytes -> Option<string>, found: seq<Entry>, pos: nat,
                    heldBack: Option<Entry>, letGo: seq<Entry>)
    requires Importing(data, read, found, pos, heldBack, letGo) && pos < |data|
    ensures var end := LineEnd(data, pos); var content := read(data[pos..end]);
      if content.None? then Importing(data, read, found, end, heldBack, letGo)
      else
        var entry := Entry(pos, content.value, None, None);
        Importing(data, read, found + [entry], end,
                  Some(entry.(previous := if heldBack.Some? then Some(heldBack.value.offset) else None)),
                  if heldBack.Some? then letGo + [heldBack.value.(next := Some(pos))] else letGo)
  {
    hide EntriesFrom, LineEnd, LetGo, HeldBack;
    EntriesStep(data, pos, read, found);
    var content := read(data[pos..LineEnd(data, pos)]);
    if content.Some? {
      LetsGoOne(found, Entry(pos, content.value, None, None));
      HeldBackOffset(found);
    }
  }

  /** What has been let go, with the entry held back if there is room for it, is what the import is to insert. */
  lemma ImportEnds(data: Bytes, read: Bytes -> Option<string>, limit: Option<int>, found: seq<Entry>, pos: nat,
                   heldBack: Option<Entry>, letGo: seq<Entry>)
    requires Importing(data, read, found, pos, heldBack, letGo)
    requires LimitReached(|letGo|, limit) || pos == |data|
    requires limit.Some? && limit.value > 0 ==> |letGo| <= limit.value
    ensures Imported(data, read, limit)
         == if heldBack.Some? && !LimitReached(|letGo|, limit) then letGo + [heldBack.value] else letGo
  {
    if LimitReached(|LetGo(found)|, limit) {
      LinkedPrefix(found, EntriesFrom(data, pos, read), |found| - 1);
    } else {
      assert found + [] == found;
      if found != [] {
        assert Linked(found)[..|found| - 1] + [Linked(found)[|found| - 1]] == Linked(found);
      }
    }
  }

  /** Appending to the batch being filled and writing it when full, with the table and the batches written so far. */
  method AppendPending(index: Index, pending: seq<Entry>, entry: Entry, batchSize: int,
                       ghost batches: seq<seq<Entry>>, ghost rows: map<int, Entry>, ghost log: seq<seq<Entry>>)
    returns (rest: seq<Entry>, ghost written: seq<seq<Entry>>)
    requires index.connected && AllFull(batches, batchSize) && |pending| < BatchCapacity(batchSize)
    requires index.rows == Upserted(rows, Concat(batches)) && index.batches == log + batches
    modifies index
    ensures index.connected && AllFull(written, batchSize) && |rest| < BatchCapacity(batchSize)
    ensures index.rows == Upserted(rows, Concat(written)) && index.batches == log + written
    ensures Concat(written) + rest == (Concat(batches) + pending) + [entry]
  {
    hide Concat, AllFull, Upserted, Inserted, DistinctOffsets;
    Batching(batches, pending, entry, batchSize);
    rest, written := pending + [entry], batches;
    if |rest| >= batchSize {
      UpsertedJoins(rows, Concat(batches), rest);
      var inserted := index.InsertEntries(rest);
      written := batches + [rest];
      rest := [];
    }
  }

  lemma ImportStarts(data: Bytes, read: Bytes -> Option<string>, batchSize: int, rows: map<int, Entry>)
    ensures Importing(data, read, [], 0, None, Concat<Entry>([]) + [])
    ensures Concat<Entry>([]) + [] == [] && Upserted(rows, Concat<Entry>([])) == rows
    ensures AllFull<Entry>([], batchSize) && WellBatched<Entry>([], batchSize) && 0 < BatchCapacity(batchSize)
  {
    assert [] + EntriesFrom(data, 0, read) == EntriesFrom(data, 0, read);
  }

  /** `_import_source_file`; `batches` are the batches it inserted. */
  method ImportSourceFile(index: Index, data: Bytes, read: Bytes -> Option<string>, limit: Option<int>, batchSize: int)
    returns (result: Attempt<nat, BuildError>, ghost batches: seq<seq<Entry>>)
    modifies index
    ensures index.connected == old(index.connected)
    ensures !index.connected ==>
      result == Raised(NotConnected) && batches == [] && index.rows == old(index.rows)
    ensures index.connected ==>
      && result == Done(|Imported(data, read, limit)|)
      && Concat(batches) == Imported(data, read, limit)
      && index.rows == Upserted(old(index.rows), Imported(data, read, limit))
    ensures WellBatched(batches, batchSize) && index.batches == old(index.batches) + batches
  {
    hide Importing, Imported, Concat, AllFull, WellBatched, Upserted, BatchCapacity, LineEnd, Inserted,
         DistinctOffsets;
    batches := [];
    ImportStarts(data, read, batchSize, index.rows);
    if !index.connected {
      return Raised(NotConnected), [];
    }
    var processed, pos := 0, 0;
    var pending: seq<Entry> := [];
    var previousEntry: Option<Entry> := None;
    ghost var found: seq<Entry> := [];
    while !LimitReached(processed, limit)
      invariant index.connected && pos <= |data|
      invariant Importing(data, read, found, pos, previousEntry, Concat(batches) + pending)
      invariant processed == |Concat(batches) + pending|
      invariant limit.Some? && limit.value > 0 ==> processed <= limit.value
      invariant AllFull(batches, batchSize) && |pending| < BatchCapacity(batchSize)
      invariant index.rows == Upserted(old(index.rows), Concat(batches))
      invariant index.batches == old(index.batches) + batches
      decreases |data| - pos
    {
      if pos == |data| {
        break;
      }
      ImportSteps(data, read, found, pos, previousEntry, Concat(batches) + pending);
      var offset := pos;
      pos := LineEnd(data, offset);
      var content := read(data[offset..pos]);
      if content.None? {
        continue;
      }
      var entry := Entry(offset, content.value, None, None);
      if previousEntry.Some? {
        var linked := previousEntry.value.(next := Some(entry.offset));
        pending, batches :=
          AppendPending(index, pending, linked, batchSize, batches, old(index.rows), old(index.batches));
        processed := processed + 1;
      }
      var previousOffset := if previousEntry.Some? then Some(previousEntry.value.offset) else None;
      previousEntry := Some(entry.(previous := previousOffset));
      found := found + [entry];
    }
    ImportEnds(data, read, limit, found, pos, previousEntry, Concat(batches) + pending);
    if previousEntry.Some? && !LimitReached(processed, limit) {
      PendingGrows(Concat(batches), pending, previousEntry.value);
      pending := pending + [previousEntry.value];
      processed := processed + 1;
    }
    LastBatch(batches, pending, batchSize);
    if pending != [] {
      UpsertedJoins(old(index.rows), Concat(batches), pending);
      var inserted := index.InsertEntries(pending);
      batches := batches + [pending];
    }
    return Done(processed), batches;
  }

  lemma PendingGrows(before: seq<Entry>, pending: seq<Entry>, entry: Entry)
    ensures before + (pending + [entry]) == (before + pending) + [entry]
  {
  }

  // ----- What is imported

  predicate Ascending(entries: seq<Entry>, from: nat, to: nat) {
    && (forall i :: 0 <= i < |entries| ==> from <= entries[i].offset < to)
    && (forall i, j :: 0 <= i < j < |entries| ==> entries[i].offset < entries[j].offset)
  }

  lemma AscendingCons(entry: Entry, rest: seq<Entry>, from: nat, to: nat)
    requires from <= entry.offset < to && Ascending(rest, entry.offset + 1, to)
    ensures Ascending([entry] + rest, from, to)
  {
  }

  lemma AscendingWider(rest: seq<Entry>, later: nat, from: nat, to: nat)
    requires from <= later && Ascending(rest, later, to)
    ensures Ascending(rest, from, to)
  {
  }

  lemma {:induction false} EntriesAscend(data: Bytes, pos: nat, read: Bytes -> Option<string>)
    requires pos <= |data|
    ensures Ascending(EntriesFrom(data, pos, read), pos, |data|)
    decreases |data| - pos
  {
    hide LineEnd, Ascending;
    if pos == |data| {
      NothingAscends(pos);
    } else {
      var end := LineEnd(data, pos);
      EntriesAscend(data, end, read);
      var content := read(data[pos..end]);
      var rest := EntriesFrom(data, end, read);
      if content.Some? {
        AscendingWider(rest, end, pos + 1, |data|);
        AscendingCons(Entry(pos, content.value, None, None), rest, pos, |data|);
      } else {
        AscendingWider(rest, end, pos, |data|);
        assert [] + rest == rest;
      }
    }
  }

  lemma NothingAscends(pos: nat)
    ensures Ascending([], pos, pos)
  {
  }

  /** Each entry names its neighbours in both directions. */
  predicate LinkedList(entries: seq<Entry>) {
    && (entries != [] ==> entries[0].previous.None?)
    && forall i, j :: 0 <= i && j == i + 1 < |entries| ==>
         entries[i].offset < entries[j].offset
         && entries[i].next == Some(entries[j].offset) && entries[j].previous == Some(entries[i].offset)
  }

  lemma LinkedIsList(all: seq<Entry>, limit: Option<int>, to: nat)
    requires Ascending(all, 0, to)
    ensures var entries := Limited(Linked(all), limit); var last := |entries| - 1;
      DistinctOffsets(entries) && LinkedList(entries)
      && (entries != [] ==> entries[last].next == if |entries| < |all| then Some(all[|entries|].offset) else None)
  {
    var entries := Limited(Linked(all), limit);
    assert forall i :: 0 <= i < |entries| ==> entries[i] == LinkedAt(all, i);
  }

  /**
   * What is imported is one doubly linked list in the order of the file, each entry at an offset of its
   * own; only a last entry that the limit cut off links on, to the first entry left out.
   */
  lemma ImportedIsLinked(data: Bytes, read: Bytes -> Option<string>, limit: Option<int>)
    ensures var entries, all := Imported(data, read, limit), EntriesFrom(data, 0, read); var last := |entries| - 1;
      && DistinctOffsets(entries) && LinkedList(entries)
      && (entries != [] ==> entries[last].next == if |entries| < |all| then Some(all[|entries|].offset) else None)
  {
    hide EntriesFrom, Ascending, LinkedList;
    EntriesAscend(data, 0, read);
    LinkedIsList(EntriesFrom(data, 0, read), limit, |data|);
  }

  /** Into an empty table, the import leaves one row for each entry imported. */
  lemma ImportFillsTable(data: Bytes, read: Bytes -> Option<string>, limit: Option<int>)
    ensures var entries := Imported(data, read, limit); var rows := Upserted(map[], entries);
      && |rows| == |entries|
      && forall i :: 0 <= i < |entries| ==> entries[i].offset in rows && rows[entries[i].offset] == entries[i]
  {
    hide Imported, Upserted;
    ImportedIsLinked(data, read, limit);
    UpsertedCount(Imported(data, read, limit));
    UpsertedFinds(map[], Imported(data, read, limit));
  }
}
