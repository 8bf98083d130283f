/** The index table that both ways of building a dictionary write to. */
module EntryIndex {
  import opened Outcomes

  /** `content` stands for the headword, the text and the hash of an entry. */
  datatype Entry = Entry(offset: int, content: string, previous: Option<int>, next: Option<int>)

  datatype BuildError = NotConnected | NoSeed

  predicate LimitReached(processed: nat, limit: Option<int>) {
    limit.Some? && limit.value > 0 && processed >= limit.value
  }

  /** The table after inserting or replacing the rows of a batch. */
  function Upserted(rows: map<int, Entry>, entries: seq<Entry>): map<int, Entry> {
    if entries == [] then rows
    else
      var last := |entries| - 1;
      Upserted(rows, entries[..last])[entries[last].offset := entries[last]]
  }

  predicate DistinctOffsets(entries: seq<Entry>) {
    forall i, j :: 0 <= i < j < |entries| ==> entries[i].offset != entries[j].offset
  }

  lemma {:induction false} UpsertedJoins(rows: map<int, Entry>, before: seq<Entry>, batch: seq<Entry>)
    ensures Upserted(rows, before + batch) == Upserted(Upserted(rows, before), batch)
  {
    if batch == [] {
      assert before + batch == before;
    } else {
      var last := |batch| - 1;
      assert (before + batch)[..|before| + last] == before + batch[..last];
      UpsertedJoins(rows, before, batch[..last]);
    }
  }

  /** All the entries are found again in the table, at their offsets, and no other row was touched. */
  ghost predicate Inserted(before: map<int, Entry>, after: map<int, Entry>, entries: seq<Entry>) {
    && (forall i :: 0 <= i < |entries| ==> entries[i].offset in after && after[entries[i].offset] == entries[i])
    && (forall k :: k in after && (forall i :: 0 <= i < |entries| ==> entries[i].offset != k) ==>
          k in before && before[k] == after[k])
    && (forall k :: k in before ==> k in after)
  }

  lemma {:induction false} UpsertedFinds(rows: map<int, Entry>, entries: seq<Entry>)
    requires DistinctOffsets(entries)
    ensures Inserted(rows, Upserted(rows, entries), entries)
  {
    if entries != [] {
      var last := |entries| - 1;
      var before := entries[..last];
      UpsertedFinds(rows, before);
      assert forall i :: 0 <= i < last ==> before[i] == entries[i];
    }
  }

  lemma {:induction false} UpsertedCount(entries: seq<Entry>)
    requires DistinctOffsets(entries)
    ensures |Upserted(map[], entries)| == |entries|
    ensures forall k :: k in Upserted(map[], entries) <==> exists i :: 0 <= i < |entries| && entries[i].offset == k
  {
    if entries != [] {
      var last := |entries| - 1;
      var before := entries[..last];
      UpsertedCount(before);
      assert forall i :: 0 <= i < last ==> before[i] == entries[i];
      var rows := Upserted(map[], before);
      var k := entries[last].offset;
      assert k !in rows;
      assert rows[k := entries[last]].Keys == rows.Keys + {k};
    }
  }

  class Index {
    var connected: bool
    var rows: map<int, Entry>
    /** The batches inserted so far, in order. */
    ghost var batches: seq<seq<Entry>>

    /** `_insert_entries` */
    method InsertEntries(entries: seq<Entry>) returns (count: nat)
      modifies this
      ensures connected == old(connected)
      ensures old(connected) ==> count == |entries| && rows == Upserted(old(rows), entries)
      ensures old(connected) && DistinctOffsets(entries) ==> Inserted(old(rows), rows, entries)
      ensures !old(connected) ==> count == 0 && rows == old(rows)
      ensures batches == if old(connected) && entries != [] then old(batches) + [entries] else old(batches)
    {
      if !connected || entries == [] {
        return 0;
      }
      assert DistinctOffsets(entries) ==> Inserted(rows, Upserted(rows, entries), entries) by {
        if DistinctOffsets(entries) { UpsertedFinds(rows, entries); }
      }
      rows := Upserted(rows, entries);
      batches := batches + [entries];
      return |entries|;
    }
  }
}
