// Transcript rows and the keyed, ordered window they live in
// (frontend/shared/transcript-window-reducer.js, frontend/local/view-only-thread.js).

module TranscriptRows {
  import opened Options
  import opened Filters

  // `key` is transcriptRowKey(entry); an empty key is no key. `orderSeq` and `entrySeq`
  // are present exactly when the field is a safe integer.
  datatype Row = Row(
    key: Option<string>,
    orderSeq: Option<int>,
    entrySeq: Option<int>,
    withdrawn: bool,
    preview: bool,
    text: string)

  // The two row merges a pin uses: keepHeldRow and takeIncomingRow.
  datatype MergeRow = KeepHeld | TakeIncoming

  // What a row's identity owns survives any content merge: the tombstone and the number.
  function Merged(existing: Row, incoming: Row, mode: MergeRow): Row {
    var chosen := if mode == KeepHeld then existing else incoming;
    chosen.(
      withdrawn := existing.withdrawn || chosen.withdrawn,
      orderSeq := if existing.orderSeq.Some? then existing.orderSeq else chosen.orderSeq)
  }

  ghost predicate Distinct(rows: seq<Row>) {
    forall i, j :: 0 <= i < j < |rows| ==> rows[i].key != rows[j].key
  }

  predicate Keyed(rows: seq<Row>) {
    forall i :: 0 <= i < |rows| ==> rows[i].key.Some?
  }

  predicate Numbered(rows: seq<Row>) {
    forall i :: 0 <= i < |rows| ==> rows[i].orderSeq.Some?
  }

  ghost predicate Ascending(rows: seq<Row>)
  {
    && Numbered(rows)
    && forall i, j :: 0 <= i < j < |rows| ==> rows[i].orderSeq.value <= rows[j].orderSeq.value
  }

  // rowsAreOrderKeyed: an empty page proves nothing.
  predicate RowsAreOrderKeyed(rows: seq<Row>) {
    rows != [] && Keyed(rows) && Numbered(rows)
  }

  // pinRowsAreKeyedInOrder: an empty pin is trivially both.
  ghost predicate KeyedInOrder(rows: seq<Row>) {
    Keyed(rows) && Ascending(rows)
  }

  method PinRowsAreKeyedInOrder(entries: seq<Row>) returns (keyed: bool)
    ensures keyed <==> KeyedInOrder(entries)
  {
    var previous: Option<int> := None;
    for i := 0 to |entries|
      invariant KeyedInOrder(entries[..i])
      invariant previous == if i == 0 then None else entries[i - 1].orderSeq
    {
      var entry := entries[i];
      if entry.key.None? || entry.orderSeq.None? {
        return false;
      }
      if previous.Some? && entry.orderSeq.value < previous.value {
        assert entries[i - 1].orderSeq.value > entries[i].orderSeq.value;
        return false;
      }
      previous := entry.orderSeq;
      assert entries[..i + 1] == entries[..i] + [entry];
      forall j | 0 <= j < i ensures entries[j].orderSeq.value <= entry.orderSeq.value {
        assert entries[..i][j] == entries[j] && entries[..i][i - 1] == entries[i - 1];
      }
    }
    assert entries[..|entries|] == entries;
    return true;
  }

  // ----- The window as a sequence of rows with distinct keys ---------------------------

  function KeyIndex(rows: seq<Row>, key: Option<string>): (i: nat)
    ensures i <= |rows|
    ensures i < |rows| ==> rows[i].key == key
    ensures forall j :: 0 <= j < i ==> rows[j].key != key
  {
    if rows == [] || rows[0].key == key then 0 else 1 + KeyIndex(rows[1..], key)
  }

  // pinDraft: keyless rows are dropped and the first copy of a key wins.
  function FirstByKey(entries: seq<Row>): (rows: seq<Row>)
    ensures Keyed(rows) && Distinct(rows)
    ensures forall r :: r in rows ==> r in entries
  {
    if entries == [] then []
    else
      var held := FirstByKey(entries[..|entries| - 1]);
      var last := entries[|entries| - 1];
      if last.key.None? || KeyIndex(held, last.key) < |held| then held else held + [last]
  }

  lemma {:induction false} FirstByKeyOfDistinct(entries: seq<Row>)
    requires Keyed(entries) && Distinct(entries)
    ensures FirstByKey(entries) == entries
  {
    if entries != [] {
      var front := entries[..|entries| - 1];
      FirstByKeyOfDistinct(front);
      assert entries == front + [entries[|entries| - 1]];
    }
  }

  lemma {:induction false} FirstByKeyKeepsOrder(entries: seq<Row>)
    requires Ascending(entries)
    ensures Ascending(FirstByKey(entries))
  {
    if entries != [] {
      var front, last := entries[..|entries| - 1], entries[|entries| - 1];
      FirstByKeyKeepsOrder(front);
      var held := FirstByKey(front);
      forall i | 0 <= i < |held| ensures held[i].orderSeq.Some? && held[i].orderSeq.value <= last.orderSeq.value {
        assert held[i] in front;
        var j :| 0 <= j < |front| && front[j] == held[i];
        assert entries[j] == front[j];
      }
      assert Ascending(held + [last]);
    }
  }

  // windowInsertionIndex without a hint: walk from the tail past larger numbers and past
  // unnumbered neighbours; with nothing to measure against, the tail is the slot.
  function WalkFromTail(rows: seq<Row>, seqNumber: int, index: nat, sawNumber: bool): (i: nat)
    requires index <= |rows|
    ensures i <= |rows|
  {
    if index == 0 then (if sawNumber then 0 else |rows|)
    else if rows[index - 1].orderSeq.None? then WalkFromTail(rows, seqNumber, index - 1, sawNumber)
    else if rows[index - 1].orderSeq.value <= seqNumber then index
    else WalkFromTail(rows, seqNumber, index - 1, true)
  }

  function InsertionIndex(rows: seq<Row>, row: Row): (i: nat)
    ensures i <= |rows|
  {
    if row.orderSeq.None? then |rows| else WalkFromTail(rows, row.orderSeq.value, |rows|, false)
  }

  lemma {:induction false} WalkStopsAt(rows: seq<Row>, seqNumber: int, index: nat, saw: bool, at: nat)
    requires Numbered(rows) && at <= index <= |rows| && (index < |rows| ==> saw)
    requires forall j :: 0 <= j < at ==> rows[j].orderSeq.value <= seqNumber
    requires forall j :: at <= j < |rows| ==> rows[j].orderSeq.value > seqNumber
    ensures WalkFromTail(rows, seqNumber, index, saw) == at
    decreases index
  {
    if index > at {
      WalkStopsAt(rows, seqNumber, index - 1, true, at);
    }
  }

  // In a numbered window the slot is after every number that is not larger.
  lemma InsertionIndexIs(rows: seq<Row>, row: Row, at: nat)
    requires Numbered(rows) && row.orderSeq.Some? && at <= |rows|
    requires forall j :: 0 <= j < at ==> rows[j].orderSeq.value <= row.orderSeq.value
    requires forall j :: at <= j < |rows| ==> rows[j].orderSeq.value > row.orderSeq.value
    ensures InsertionIndex(rows, row) == at
  {
    WalkStopsAt(rows, row.orderSeq.value, |rows|, false, at);
  }

  // One row at a time: a held key keeps its slot, a new one is placed by its number.
  function Upsert(rows: seq<Row>, row: Row, mode: MergeRow): seq<Row> {
    if row.key.None? then rows
    else
      var held := KeyIndex(rows, row.key);
      if held < |rows| then rows[held := Merged(rows[held], row, mode)]
      else
        InsertAt(rows, InsertionIndex(rows, row), row)
  }

  // The simple form of a page merge: upsert its rows in turn.
  function MergeRows(rows: seq<Row>, page: seq<Row>, mode: MergeRow): seq<Row> {
    if page == [] then rows
    else Upsert(MergeRows(rows, page[..|page| - 1], mode), page[|page| - 1], mode)
  }

  // A stable sort by number, as Array.prototype.sort is.
  function SortRows(page: seq<Row>): seq<Row> {
    if page == [] then []
    else
      var front := SortRows(page[..|page| - 1]);
      InsertAt(front, InsertionIndex(front, page[|page| - 1]), page[|page| - 1])
  }

  // Placing a row at its slot keeps the window in number order.
  lemma PlacedInOrder(rows: seq<Row>, row: Row) returns (at: nat)
    requires Ascending(rows) && row.orderSeq.Some?
    ensures at == InsertionIndex(rows, row) && Ascending(InsertAt(rows, at, row))
  {
    at := LastSlotFor(rows, row);
    InsertionIndexIs(rows, row, at);
    SlotKeepsOrder(rows, row, at);
  }

  lemma SlotKeepsOrder(rows: seq<Row>, row: Row, at: nat)
    requires Ascending(rows) && row.orderSeq.Some? && at <= |rows|
    requires forall j :: 0 <= j < at ==> rows[j].orderSeq.value <= row.orderSeq.value
    requires forall j :: at <= j < |rows| ==> rows[j].orderSeq.value > row.orderSeq.value
    ensures Ascending(InsertAt(rows, at, row))
  {
  }

  lemma {:induction false} SortRowsSorts(page: seq<Row>)
    requires Numbered(page)
    ensures Ascending(SortRows(page))
  {
    if page != [] {
      SortRowsSorts(page[..|page| - 1]);
      var at := PlacedInOrder(SortRows(page[..|page| - 1]), page[|page| - 1]);
    }
  }

  lemma {:induction false} SortRowsKeepsRows(page: seq<Row>)
    ensures multiset(SortRows(page)) == multiset(page)
  {
    if page != [] {
      var front, last := page[..|page| - 1], page[|page| - 1];
      SortRowsKeepsRows(front);
      assert page == front + [last];
      InsertAtIsMultisetAdd(SortRows(front), InsertionIndex(SortRows(front), last), last);
    }
  }

  // An ascending window has exactly one slot for a number.
  lemma LastSlotFor(rows: seq<Row>, row: Row) returns (at: nat)
    requires Ascending(rows) && row.orderSeq.Some?
    ensures at <= |rows|
    ensures forall j :: 0 <= j < at ==> rows[j].orderSeq.value <= row.orderSeq.value
    ensures forall j :: at <= j < |rows| ==> rows[j].orderSeq.value > row.orderSeq.value
  {
    at := |rows|;
    while at > 0 && rows[at - 1].orderSeq.value > row.orderSeq.value
      invariant at <= |rows|
      invariant forall j :: at <= j < |rows| ==> rows[j].orderSeq.value > row.orderSeq.value
    {
      at := at - 1;
    }
  }

  lemma {:induction false} SortRowsOfAscending(page: seq<Row>)
    requires Ascending(page)
    ensures SortRows(page) == page
  {
    if page != [] {
      var front, last := page[..|page| - 1], page[|page| - 1];
      SortRowsOfAscending(front);
      assert front == [] || front[|front| - 1].orderSeq.value <= last.orderSeq.value;
      InsertionIndexIs(front, last, |front|);
      assert InsertAt(front, |front|, last) == front + [last] == page;
    }
  }

  lemma UpsertKeepsWindow(rows: seq<Row>, row: Row, mode: MergeRow)
    requires Keyed(rows) && Distinct(rows) && Ascending(rows)
    requires row.key.Some? && row.orderSeq.Some?
    ensures Keyed(Upsert(rows, row, mode)) && Distinct(Upsert(rows, row, mode))
    ensures Ascending(Upsert(rows, row, mode))
  {
    if KeyIndex(rows, row.key) == |rows| {
      var at := PlacedInOrder(rows, row);
    } else {
      UpdateKeepsWindow(rows, row, mode, KeyIndex(rows, row.key));
    }
  }

  lemma UpdateKeepsWindow(rows: seq<Row>, row: Row, mode: MergeRow, i: nat)
    requires Keyed(rows) && Distinct(rows) && Ascending(rows)
    requires i < |rows| && rows[i].key == row.key
    ensures var r := rows[i := Merged(rows[i], row, mode)]; Keyed(r) && Distinct(r) && Ascending(r)
  {
  }

  function KeysOf(rows: seq<Row>): set<Option<string>> {
    set i | 0 <= i < |rows| :: rows[i].key
  }

  lemma UpsertAddsKey(rows: seq<Row>, row: Row, mode: MergeRow)
    requires row.key.Some?
    ensures KeysOf(Upsert(rows, row, mode)) == KeysOf(rows) + {row.key}
  {
    var held, after := KeyIndex(rows, row.key), Upsert(rows, row, mode);
    if held == |rows| {
      InsertAddsKey(rows, InsertionIndex(rows, row), row);
    } else {
      SameKeys(rows, after);
      assert row.key in KeysOf(rows);
    }
  }

  lemma InsertAddsKey(rows: seq<Row>, at: nat, row: Row)
    requires at <= |rows|
    ensures KeysOf(InsertAt(rows, at, row)) == KeysOf(rows) + {row.key}
  {
    var after := InsertAt(rows, at, row);
    forall i | 0 <= i < |rows| ensures rows[i].key in KeysOf(after) {
      assert after[if i < at then i else i + 1] == rows[i];
    }
    assert after[at] == row;
  }

  lemma SameKeys(rows: seq<Row>, more: seq<Row>)
    requires |rows| == |more| && forall i :: 0 <= i < |rows| ==> rows[i].key == more[i].key
    ensures KeysOf(rows) == KeysOf(more)
  {
  }

  lemma {:induction false} MergeRowsKeepsWindow(rows: seq<Row>, page: seq<Row>, mode: MergeRow)
    requires Keyed(rows) && Distinct(rows) && Ascending(rows)
    requires Keyed(page) && Numbered(page)
    ensures Keyed(MergeRows(rows, page, mode)) && Distinct(MergeRows(rows, page, mode))
    ensures Ascending(MergeRows(rows, page, mode))
    ensures KeysOf(MergeRows(rows, page, mode)) == KeysOf(rows) + KeysOf(page)
  {
    if page != [] {
      MergeRowsKeepsWindow(rows, page[..|page| - 1], mode);
      UpsertAddsKey(MergeRows(rows, page[..|page| - 1], mode), page[|page| - 1], mode);
      InsertAddsKey(page[..|page| - 1], |page| - 1, page[|page| - 1]);
      assert InsertAt(page[..|page| - 1], |page| - 1, page[|page| - 1]) == page;
      UpsertKeepsWindow(MergeRows(rows, page[..|page| - 1], mode), page[|page| - 1], mode);
    }
  }

  // ----- The mutable draft {order, entries} --------------------------------------------

  ghost predicate DraftValid(order: seq<string>, entries: map<string, Row>) {
    && (forall i, j :: 0 <= i < j < |order| ==> order[i] != order[j])
    && (forall i :: 0 <= i < |order| ==> order[i] in entries)
    && (forall k :: k in entries ==> k in order && entries[k].key == Some(k))
  }

  function RowsOf(order: seq<string>, entries: map<string, Row>): (rows: seq<Row>)
    requires forall i :: 0 <= i < |order| ==> order[i] in entries
    ensures |rows| == |order|
    ensures forall i :: 0 <= i < |order| ==> rows[i] == entries[order[i]]
  {
    seq(|order|, i requires 0 <= i < |order| => entries[order[i]])
  }

  lemma DraftFind(order: seq<string>, entries: map<string, Row>, key: Option<string>)
    requires DraftValid(order, entries)
    ensures key.Some? && key.value in entries <==> KeyIndex(RowsOf(order, entries), key) < |order|
    ensures key.Some? && key.value in entries ==> order[KeyIndex(RowsOf(order, entries), key)] == key.value
  {
  }

  lemma DraftUpdate(order: seq<string>, entries: map<string, Row>, key: string, row: Row, mode: MergeRow)
    requires DraftValid(order, entries) && key in entries && row.key == Some(key)
    ensures DraftValid(order, entries[key := Merged(entries[key], row, mode)])
    ensures RowsOf(order, entries[key := Merged(entries[key], row, mode)]) == Upsert(RowsOf(order, entries), row, mode)
  {
  }

  lemma DraftInsert(order: seq<string>, entries: map<string, Row>, key: string, row: Row, at: nat)
    requires DraftValid(order, entries) && key !in entries && row.key == Some(key)
    requires at <= |order|
    ensures DraftValid(InsertAt(order, at, key), entries[key := row])
    ensures RowsOf(InsertAt(order, at, key), entries[key := row]) == InsertAt(RowsOf(order, entries), at, row)
  {
  }

  lemma DraftAppend(order: seq<string>, entries: map<string, Row>, key: string, row: Row)
    requires DraftValid(order, entries) && key !in entries && row.key == Some(key)
    ensures DraftValid(order + [key], entries[key := row])
    ensures RowsOf(order + [key], entries[key := row]) == RowsOf(order, entries) + [row]
  {
  }

  class WindowDraft {
    var order: seq<string>
    var entries: map<string, Row>

    ghost predicate Valid()
      reads this
    {
      DraftValid(order, entries)
    }

    ghost function Rows(): seq<Row>
      reads this
      requires Valid()
    {
      RowsOf(order, entries)
    }

    // pinDraft
    constructor (held: seq<Row>)
      ensures Valid()
      ensures Rows() == FirstByKey(held)
    {
      order := [];
      entries := map[];
      new;
      for i := 0 to |held|
        invariant Valid()
        invariant Rows() == FirstByKey(held[..i])
      {
        assert held[..i + 1][..i] == held[..i];
        HoldFirst(held[i]);
      }
      assert held[..|held|] == held;
    }

    method HoldFirst(entry: Row)
      requires Valid()
      modifies this
      ensures Valid()
      ensures Rows() ==
        if entry.key.None? || KeyIndex(old(Rows()), entry.key) < |old(Rows())| then old(Rows())
        else old(Rows()) + [entry]
    {
      DraftFind(order, entries, entry.key);
      if entry.key.None? || entry.key.value in entries { return; }
      DraftAppend(order, entries, entry.key.value, entry);
      order := order + [entry.key.value];
      entries := entries[entry.key.value := entry];
    }

    // mergeWindowRowsInPlace, as both pin merges reach it: every page row keyed and
    // numbered, the window in number order.
    method MergeWindowRows(rows: seq<Row>, mode: MergeRow)
      requires Valid() && Ascending(Rows())
      requires RowsAreOrderKeyed(rows)
      modifies this
      ensures Valid()
      ensures Rows() == MergeRows(old(Rows()), SortRows(rows), mode)
    {
      if |rows| > 1 {
        MergeKeyedRowsLinearly(rows, mode);
      } else {
        SortRowsOfAscending(rows);
        assert rows[..0] == [] && MergeRows(Rows(), rows[..0], mode) == Rows();
        UpsertRow(rows[0], mode);
      }
    }

    // upsertRowAt with no hint.
    method UpsertRow(row: Row, mode: MergeRow)
      requires Valid()
      modifies this
      ensures Valid()
      ensures Rows() == Upsert(old(Rows()), row, mode)
    {
      if row.key.None? {
        return;
      }
      DraftFind(order, entries, row.key);
      var key := row.key.value;
      if key in entries {
        DraftUpdate(order, entries, key, row, mode);
        entries := entries[key := Merged(entries[key], row, mode)];
        return;
      }
      var insertAt := WindowInsertionIndex(row);
      DraftInsert(order, entries, key, row, insertAt);
      entries := entries[key := row];
      order := order[..insertAt] + [key] + order[insertAt..];
    }

    method WindowInsertionIndex(row: Row) returns (at: nat)
      requires Valid()
      ensures at == InsertionIndex(Rows(), row) && at <= |order|
    {
      if row.orderSeq.None? {
        return |order|;
      }
      var index := |order|;
      var sawKeyedNeighbour := false;
      while index > 0
        invariant 0 <= index <= |order|
        invariant InsertionIndex(Rows(), row) == WalkFromTail(Rows(), row.orderSeq.value, index, sawKeyedNeighbour)
      {
        var neighbour := entries[order[index - 1]];
        assert neighbour == Rows()[index - 1];
        if neighbour.orderSeq.None? {
          index := index - 1;
        } else if neighbour.orderSeq.value <= row.orderSeq.value {
          return index;
        } else {
          sawKeyedNeighbour := true;
          index := index - 1;
        }
      }
      return if sawKeyedNeighbour then 0 else |order|;
    }

    // Two cursors, each element written once: the fast form of upserting every row.
    method MergeKeyedRowsLinearly(rows: seq<Row>, mode: MergeRow)
      requires Valid() && Ascending(Rows())
      requires Keyed(rows) && Numbered(rows)
      modifies this
      ensures Valid()
      ensures Rows() == MergeRows(old(Rows()), SortRows(rows), mode)
    {
      var sorted := SortRows(rows);
      SortRowsSorts(rows);
      SortRowsKeepsKeys(rows);
      order := WalkInStep(sorted, mode);
    }

    method WalkInStep(sorted: seq<Row>, mode: MergeRow) returns (merged: seq<string>)
      requires Valid() && Ascending(Rows())
      requires Keyed(sorted) && Ascending(sorted)
      modifies this`entries
      ensures HalfMerged(old(Rows()), merged, entries, sorted, mode)
    {
      ghost var was := Rows();
      merged := [];
      var index: nat := 0;
      assert merged + order[index..] == order;
      for i := 0 to |sorted|
        invariant index <= |order|
        invariant HalfMerged(was, merged + order[index..], entries, sorted[..i], mode)
        invariant i < |sorted| ==> NoLarger(merged, entries, sorted[i].orderSeq.value)
      {
        merged, index := PlaceNext(merged, index, sorted, i, mode, was);
      }
      assert sorted[..|sorted|] == sorted;
      merged := merged + order[index..];
    }

    method PlaceNext(written: seq<string>, from: nat, sorted: seq<Row>, i: nat, mode: MergeRow, ghost was: seq<Row>)
      returns (merged: seq<string>, index: nat)
      requires i < |sorted| && Keyed(sorted) && Ascending(sorted) && from <= |order|
      requires HalfMerged(was, written + order[from..], entries, sorted[..i], mode)
      requires NoLarger(written, entries, sorted[i].orderSeq.value)
      modifies this`entries
      ensures index <= |order|
      ensures HalfMerged(was, merged + order[index..], entries, sorted[..i + 1], mode)
      ensures i + 1 < |sorted| ==> NoLarger(merged, entries, sorted[i + 1].orderSeq.value)
    {
      var row := sorted[i];
      if row.key.value in entries {
        merged, index := written, from;
        UpdateInPlace(merged, index, sorted, i, mode, was);
      } else {
        merged, index := CopyNoLarger(written, from, row.orderSeq.value);
        merged := WriteNew(merged, index, sorted, i, mode, was);
      }
      LargerBound(merged, entries, row.orderSeq.value, sorted, i);
    }

    method UpdateInPlace(ghost merged: seq<string>, index: nat, sorted: seq<Row>, i: nat, mode: MergeRow, ghost was: seq<Row>)
      requires i < |sorted| && Keyed(sorted) && Ascending(sorted) && index <= |order|
      requires sorted[i].key.value in entries
      requires HalfMerged(was, merged + order[index..], entries, sorted[..i], mode)
      requires NoLarger(merged, entries, sorted[i].orderSeq.value)
      modifies this`entries
      ensures HalfMerged(was, merged + order[index..], entries, sorted[..i + 1], mode)
      ensures NoLarger(merged, entries, sorted[i].orderSeq.value)
    {
      var row := sorted[i];
      HalfMergedUpdate(was, merged + order[index..], entries, sorted, i, mode);
      entries := entries[row.key.value := Merged(entries[row.key.value], row, mode)];
    }

    method WriteNew(copied: seq<string>, index: nat, sorted: seq<Row>, i: nat, mode: MergeRow, ghost was: seq<Row>)
      returns (merged: seq<string>)
      requires i < |sorted| && Keyed(sorted) && Ascending(sorted) && index <= |order|
      requires sorted[i].key.value !in entries
      requires HalfMerged(was, copied + order[index..], entries, sorted[..i], mode)
      requires NoLarger(copied, entries, sorted[i].orderSeq.value)
      requires index < |order| ==>
        RowsOf(copied + order[index..], entries)[|copied|].orderSeq.value > sorted[i].orderSeq.value
      modifies this`entries
      ensures HalfMerged(was, merged + order[index..], entries, sorted[..i + 1], mode)
      ensures NoLarger(merged, entries, sorted[i].orderSeq.value)
    {
      var row := sorted[i];
      HalfMergedPlace(was, copied, order[index..], entries, sorted, i, mode);
      entries := entries[row.key.value := row];
      merged := copied + [row.key.value];
    }

    // The inner walk: write out what is no larger than the number about to be placed.
    method CopyNoLarger(merged: seq<string>, from: nat, bound: int) returns (copied: seq<string>, index: nat)
      requires from <= |order| && DraftValid(merged + order[from..], entries)
      requires Numbered(RowsOf(merged + order[from..], entries))
      requires NoLarger(merged, entries, bound)
      ensures index <= |order| && copied + order[index..] == merged + order[from..]
      ensures NoLarger(copied, entries, bound)
      ensures index < |order| ==> RowsOf(copied + order[index..], entries)[|copied|].orderSeq.value > bound
    {
      ghost var view := merged + order[from..];
      copied, index := merged, from;
      while index < |order|
        invariant index <= |order|
        invariant copied + order[index..] == view
        invariant NoLarger(copied, entries, bound)
      {
        assert view[|copied|] == order[index];
        assert RowsOf(view, entries)[|copied|] == entries[order[index]];
        if entries[order[index]].orderSeq.value > bound {
          return;
        }
        copied := copied + [order[index]];
        index := index + 1;
      }
    }
  }

  // The window half way through a linear merge: what is written out, then what is not.
  ghost predicate HalfMerged(was: seq<Row>, view: seq<string>, entries: map<string, Row>, done: seq<Row>, mode: MergeRow) {
    && DraftValid(view, entries)
    && RowsOf(view, entries) == MergeRows(was, done, mode)
    && Ascending(RowsOf(view, entries))
  }

  lemma HalfMergedUpdate(was: seq<Row>, view: seq<string>, entries: map<string, Row>, sorted: seq<Row>, i: nat, mode: MergeRow)
    requires i < |sorted| && sorted[i].key.Some? && sorted[i].key.value in entries
    requires HalfMerged(was, view, entries, sorted[..i], mode)
    ensures var key := sorted[i].key.value;
      HalfMerged(was, view, entries[key := Merged(entries[key], sorted[i], mode)], sorted[..i + 1], mode)
  {
    assert sorted[..i + 1][..i] == sorted[..i];
    DraftUpdate(view, entries, sorted[i].key.value, sorted[i], mode);
    UpdateKeepsWindowAt(view, entries, sorted[i], mode);
  }

  lemma HalfMergedPlace(was: seq<Row>, merged: seq<string>, rest: seq<string>, entries: map<string, Row>, sorted: seq<Row>, i: nat, mode: MergeRow)
    requires i < |sorted| && sorted[i].orderSeq.Some? && sorted[i].key.Some? && sorted[i].key.value !in entries
    requires HalfMerged(was, merged + rest, entries, sorted[..i], mode)
    requires NoLarger(merged, entries, sorted[i].orderSeq.value)
    requires rest != [] ==> RowsOf(merged + rest, entries)[|merged|].orderSeq.value > sorted[i].orderSeq.value
    ensures var key := sorted[i].key.value;
      HalfMerged(was, merged + [key] + rest, entries[key := sorted[i]], sorted[..i + 1], mode)
  {
    var key, view := sorted[i].key.value, merged + rest;
    assert sorted[..i + 1][..i] == sorted[..i];
    DraftFind(view, entries, Some(key));
    PlacedAfterMerged(merged, rest, entries, sorted[i]);
    DraftInsert(view, entries, key, sorted[i], |merged|);
    assert InsertAt(view, |merged|, key) == merged + [key] + rest;
  }

  // What is no larger than one row of an ascending page is no larger than the next.
  lemma LargerBound(merged: seq<string>, entries: map<string, Row>, bound: int, sorted: seq<Row>, i: nat)
    requires Ascending(sorted) && i < |sorted| && bound == sorted[i].orderSeq.value && NoLarger(merged, entries, bound)
    ensures i + 1 < |sorted| ==> NoLarger(merged, entries, sorted[i + 1].orderSeq.value)
  {
  }

  // Everything already written out is numbered, and no larger than the row at hand.
  ghost predicate NoLarger(merged: seq<string>, entries: map<string, Row>, bound: int) {
    forall i :: 0 <= i < |merged| ==>
      merged[i] in entries && entries[merged[i]].orderSeq.Some? && entries[merged[i]].orderSeq.value <= bound
  }

  lemma UpdateKeepsWindowAt(order: seq<string>, entries: map<string, Row>, row: Row, mode: MergeRow)
    requires DraftValid(order, entries) && row.key.Some? && row.key.value in entries
    requires Ascending(RowsOf(order, entries))
    ensures Ascending(Upsert(RowsOf(order, entries), row, mode))
  {
  }

  lemma PlacedAfterMerged(merged: seq<string>, rest: seq<string>, entries: map<string, Row>, row: Row)
    requires DraftValid(merged + rest, entries) && row.orderSeq.Some?
    requires Ascending(RowsOf(merged + rest, entries))
    requires NoLarger(merged, entries, row.orderSeq.value)
    requires rest != [] ==> RowsOf(merged + rest, entries)[|merged|].orderSeq.value > row.orderSeq.value
    ensures InsertionIndex(RowsOf(merged + rest, entries), row) == |merged|
    ensures Ascending(InsertAt(RowsOf(merged + rest, entries), |merged|, row))
  {
    var rows := RowsOf(merged + rest, entries);
    forall j | 0 <= j < |merged| ensures rows[j].orderSeq.value <= row.orderSeq.value {
      assert (merged + rest)[j] == merged[j];
    }
    InsertionIndexIs(rows, row, |merged|);
    var at := PlacedInOrder(rows, row);
  }

  lemma SortRowsKeepsKeys(page: seq<Row>)
    requires Keyed(page)
    ensures Keyed(SortRows(page)) && |SortRows(page)| == |page|
  {
  }
}
