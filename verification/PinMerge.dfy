// Merging a page into what a pane already holds (frontend/local/view-only-thread.js,
// frontend/local/pin-page.js). Each merge has two algorithms: by number, and by key
// overlap. Both are modelled; PinSlices proves when they agree.

module PinMerge {
  import opened Options
  import opened Filters
  import opened TranscriptRows

  // A cursor names the transcript position its page starts at; "no cursor" is the start.
  type Cursor = nat

  // What a merge reads of a pin.
  datatype Window = Window(
    threadId: string,
    entries: seq<Row>,
    olderCursor: Option<Cursor>,
    historyExtended: bool)

  // A transcript-page response; `entries` is None when the field is not an array.
  datatype Page = Page(
    threadId: string,
    entries: Option<seq<Row>>,
    prevCursor: Option<Cursor>,
    revision: Option<int>,
    generation: string)
  {
    function Rows(): seq<Row> {
      match entries
      case Some(rows) => rows
      case None => []
    }
  }

  // `new Set(rows.map(transcriptRowKey).filter(Boolean))`
  function NamedKeysOf(rows: seq<Row>): set<Option<string>> {
    set i | 0 <= i < |rows| && rows[i].key.Some? :: rows[i].key
  }

  // absorbWithdrawnById: OR the tombstone of a dropped copy onto the kept one.
  function WithdrawnKeys(dropped: seq<Row>): set<Option<string>> {
    set i | 0 <= i < |dropped| && dropped[i].withdrawn && dropped[i].key.Some? :: dropped[i].key
  }

  function AbsorbWithdrawn(kept: seq<Row>, dropped: seq<Row>): (rows: seq<Row>)
    ensures |rows| == |kept|
    ensures forall i :: 0 <= i < |kept| ==>
      rows[i] == kept[i].(withdrawn := kept[i].withdrawn || kept[i].key in WithdrawnKeys(dropped))
  {
    seq(|kept|, i requires 0 <= i < |kept| =>
      kept[i].(withdrawn := kept[i].withdrawn || kept[i].key in WithdrawnKeys(dropped)))
  }

  // Placing a page by number: the held rows deduplicated, the page's rows upserted in order.
  function PlaceByNumber(held: seq<Row>, page: seq<Row>, mode: MergeRow): seq<Row> {
    MergeRows(FirstByKey(held), SortRows(page), mode)
  }

  // ----- Older pages -------------------------------------------------------------------

  function OlderByNumber(held: seq<Row>, page: seq<Row>): seq<Row> {
    PlaceByNumber(held, page, KeepHeld)
  }

  function OlderByOverlap(held: seq<Row>, page: seq<Row>): seq<Row> {
    var ids := NamedKeysOf(held);
    Filter(page, (r: Row) => r.key !in ids)
      + AbsorbWithdrawn(held, Filter(page, (r: Row) => r.key in ids))
  }

  ghost function MergeOlder(pin: Window, page: Page): Window {
    if page.threadId != pin.threadId then pin
    else
      pin.(
        entries :=
          if RowsAreOrderKeyed(page.Rows()) && KeyedInOrder(pin.entries) then OlderByNumber(pin.entries, page.Rows())
          else OlderByOverlap(pin.entries, page.Rows()),
        historyExtended := true,
        olderCursor := page.prevCursor)
  }

  // mergeOlderViewOnlyPage
  method MergeOlderPage(pin: Window, page: Page) returns (merged: Window)
    ensures merged == MergeOlder(pin, page)
  {
    if page.threadId != pin.threadId {
      return pin;
    }
    var keyed := PinRowsAreKeyedInOrder(pin.entries);
    if RowsAreOrderKeyed(page.Rows()) && keyed {
      var draft := new WindowDraft(pin.entries);
      FirstByKeyKeepsOrder(pin.entries);
      draft.MergeWindowRows(page.Rows(), KeepHeld);
      return Window(pin.threadId, RowsOf(draft.order, draft.entries), page.prevCursor, true);
    }
    var existingIds := NamedKeysOf(pin.entries);
    var older := Filter(page.Rows(), (r: Row) => r.key !in existingIds);
    var overlapping := Filter(page.Rows(), (r: Row) => r.key in existingIds);
    return Window(pin.threadId, older + AbsorbWithdrawn(pin.entries, overlapping), page.prevCursor, true);
  }

  // ----- Refreshed tails ---------------------------------------------------------------

  function MinOrder(rows: seq<Row>): (m: int)
    requires rows != [] && Numbered(rows)
    ensures forall i :: 0 <= i < |rows| ==> m <= rows[i].orderSeq.value
    ensures exists i :: 0 <= i < |rows| && rows[i].orderSeq.value == m
  {
    var first := rows[0].orderSeq.value;
    if |rows| == 1 then first
    else
      var rest := MinOrder(rows[1..]);
      if first <= rest then first else rest
  }

  function MinEntrySeq(rows: seq<Row>): (m: Option<int>)
    ensures m.None? <==> forall i :: 0 <= i < |rows| ==> rows[i].entrySeq.None?
    ensures m.Some? ==> forall i :: 0 <= i < |rows| && rows[i].entrySeq.Some? ==> m.value <= rows[i].entrySeq.value
    ensures m.Some? ==> exists i :: 0 <= i < |rows| && rows[i].entrySeq == m
  {
    if rows == [] then None
    else
      var rest := MinEntrySeq(rows[1..]);
      if rows[0].entrySeq.None? then rest
      else if rest.None? || rows[0].entrySeq.value <= rest.value then rows[0].entrySeq
      else rest
  }

  function MaxEntrySeq(rows: seq<Row>): (m: Option<int>)
    ensures m.None? <==> forall i :: 0 <= i < |rows| ==> rows[i].entrySeq.None?
    ensures m.Some? ==> forall i :: 0 <= i < |rows| && rows[i].entrySeq.Some? ==> m.value >= rows[i].entrySeq.value
    ensures m.Some? ==> exists i :: 0 <= i < |rows| && rows[i].entrySeq == m
  {
    if rows == [] then None
    else
      var rest := MaxEntrySeq(rows[1..]);
      if rows[0].entrySeq.None? then rest
      else if rest.None? || rows[0].entrySeq.value >= rest.value then rows[0].entrySeq
      else rest
  }

  // A reader who never scrolled does not accumulate older rows.
  function Retained(pin: Window, freshMin: int): seq<Row> {
    if pin.historyExtended then pin.entries
    else Filter(pin.entries, (r: Row) => r.orderSeq.Some? && r.orderSeq.value >= freshMin)
  }

  predicate HasBelow(rows: seq<Row>, bound: int) {
    exists i :: 0 <= i < |rows| && rows[i].orderSeq.Some? && rows[i].orderSeq.value < bound
  }

  function RefreshByNumber(pin: Window, page: Page): Window
    requires RowsAreOrderKeyed(page.Rows()) && Numbered(pin.entries)
  {
    var freshMin := MinOrder(page.Rows());
    var retained := Retained(pin, freshMin);
    pin.(
      entries := PlaceByNumber(retained, page.Rows(), TakeIncoming),
      historyExtended := pin.historyExtended
        && HasBelow(retained, freshMin),
      olderCursor := if pin.historyExtended then pin.olderCursor else page.prevCursor)
  }

  // The positions of the first and last shared row; |rows| and -1 when there is none.
  function FirstIn(rows: seq<Row>, ids: set<Option<string>>): (i: nat)
    ensures i <= |rows|
    ensures i < |rows| ==> rows[i].key in ids
    ensures forall j :: 0 <= j < i ==> rows[j].key !in ids
  {
    if rows == [] || rows[0].key in ids then 0 else 1 + FirstIn(rows[1..], ids)
  }

  function LastIn(rows: seq<Row>, ids: set<Option<string>>): (i: int)
    ensures -1 <= i < |rows|
    ensures i >= 0 ==> rows[i].key in ids
    ensures forall j :: i < j < |rows| ==> rows[j].key !in ids
  {
    if rows == [] then -1
    else if rows[|rows| - 1].key in ids then |rows| - 1
    else LastIn(rows[..|rows| - 1], ids)
  }

  function SequencedBelow(low: Option<int>): Row -> bool {
    (r: Row) => r.entrySeq.Some? && low.Some? && r.entrySeq.value < low.value
  }

  function SequencedAbove(high: Option<int>): Row -> bool {
    (r: Row) => r.entrySeq.Some? && high.Some? && r.entrySeq.value > high.value
  }

  // What the pin holds before and after the window the page covers: by shared keys, or,
  // with none, by entry_seq.
  function PrefixOf(prior: seq<Row>, page: seq<Row>): seq<Row> {
    var ids := NamedKeysOf(page);
    if LastIn(prior, ids) == -1 then
      var low := MinEntrySeq(page);
      Filter(prior, SequencedBelow(low))
    else Filter(prior[..FirstIn(prior, ids)], (r: Row) => r.key !in ids)
  }

  function TailOf(prior: seq<Row>, page: seq<Row>): seq<Row> {
    var ids := NamedKeysOf(page);
    var last := LastIn(prior, ids);
    if last == -1 then
      var high := MaxEntrySeq(page);
      Filter(prior, SequencedAbove(high))
    else Filter(prior[last + 1..], (r: Row) => r.key !in ids)
  }

  // History held open, the page, and what the stream appended since it was built.
  function Joined(pin: Window, page: Page, prefix: seq<Row>, rows: seq<Row>, tail: seq<Row>): Window {
    pin.(
      entries := (if pin.historyExtended then prefix else []) + rows + tail,
      historyExtended := pin.historyExtended && prefix != [],
      olderCursor := if pin.historyExtended then pin.olderCursor else page.prevCursor)
  }

  function RefreshByOverlap(pin: Window, page: Page): Window {
    var absorbed := AbsorbWithdrawn(page.Rows(), pin.entries);
    if LastIn(pin.entries, NamedKeysOf(page.Rows())) == -1 && MaxEntrySeq(page.Rows()).None? then
      pin.(entries := absorbed, historyExtended := false, olderCursor := page.prevCursor)
    else
      Joined(pin, page, PrefixOf(pin.entries, page.Rows()), absorbed, TailOf(pin.entries, page.Rows()))
  }

  // `pin` is the null pin's empty window when nothing was held.
  ghost function MergeRefreshed(pin: Window, page: Page): Window {
    if page.threadId != pin.threadId then pin
    else if page.Rows() == [] then
      pin.(olderCursor := if pin.olderCursor.Some? then pin.olderCursor else page.prevCursor)
    else if pin.entries == [] then
      pin.(entries := page.Rows(), historyExtended := false, olderCursor := page.prevCursor)
    else if RowsAreOrderKeyed(page.Rows()) && KeyedInOrder(pin.entries) then RefreshByNumber(pin, page)
    else RefreshByOverlap(pin, page)
  }

  // mergeRefreshedViewOnlyPage
  method MergeRefreshedPage(pin: Window, page: Page) returns (merged: Window)
    ensures merged == MergeRefreshed(pin, page)
  {
    if page.threadId != pin.threadId {
      return pin;
    }
    var freshEntries, prior := page.Rows(), pin.entries;
    if freshEntries == [] {
      return pin.(olderCursor := if pin.olderCursor.Some? then pin.olderCursor else page.prevCursor);
    }
    if prior == [] {
      return Window(pin.threadId, freshEntries, page.prevCursor, false);
    }
    var keyed := PinRowsAreKeyedInOrder(prior);
    if RowsAreOrderKeyed(freshEntries) && keyed {
      var freshMin := MinOrder(freshEntries);
      var retained := Retained(pin, freshMin);
      FilterKeepsOrder(prior, (r: Row) => r.orderSeq.Some? && r.orderSeq.value >= freshMin);
      FirstByKeyKeepsOrder(retained);
      var draft := new WindowDraft(retained);
      draft.MergeWindowRows(freshEntries, TakeIncoming);
      return Window(
        pin.threadId,
        RowsOf(draft.order, draft.entries),
        if pin.historyExtended then pin.olderCursor else page.prevCursor,
        pin.historyExtended && HasBelow(retained, freshMin));
    }
    merged := RefreshOverlapping(pin, page);
  }

  method RefreshOverlapping(pin: Window, page: Page) returns (merged: Window)
    ensures merged == RefreshByOverlap(pin, page)
  {
    var freshEntries, prior := page.Rows(), pin.entries;
    var freshAbsorbed := AbsorbWithdrawn(freshEntries, prior);
    var freshIds := NamedKeysOf(freshEntries);
    var firstOverlap, lastOverlap := FindOverlap(prior, freshIds);
    var prefix, tail;
    if lastOverlap == -1 {
      var low, high := MinEntrySeq(freshEntries), MaxEntrySeq(freshEntries);
      if high.None? {
        return pin.(entries := freshAbsorbed, historyExtended := false, olderCursor := page.prevCursor);
      }
      prefix := Filter(prior, SequencedBelow(low));
      tail := Filter(prior, SequencedAbove(high));
    } else {
      prefix := Filter(prior[..firstOverlap], (r: Row) => r.key !in freshIds);
      tail := Filter(prior[lastOverlap + 1..], (r: Row) => r.key !in freshIds);
    }
    return Window(
      pin.threadId,
      (if pin.historyExtended then prefix else []) + freshAbsorbed + tail,
      if pin.historyExtended then pin.olderCursor else page.prevCursor,
      pin.historyExtended && prefix != []);
  }

  method FindOverlap(prior: seq<Row>, freshIds: set<Option<string>>) returns (firstOverlap: int, lastOverlap: int)
    ensures lastOverlap == LastIn(prior, freshIds)
    ensures lastOverlap == -1 ==> firstOverlap == -1
    ensures lastOverlap >= 0 ==> firstOverlap == FirstIn(prior, freshIds) && firstOverlap < |prior|
  {
    firstOverlap, lastOverlap := -1, -1;
    for index := 0 to |prior|
      invariant -1 <= firstOverlap < index && -1 <= lastOverlap < index
      invariant firstOverlap == -1 <==> lastOverlap == -1
      invariant firstOverlap == -1 ==> forall j :: 0 <= j < index ==> prior[j].key !in freshIds
      invariant firstOverlap >= 0 ==> prior[firstOverlap].key in freshIds && prior[lastOverlap].key in freshIds
      invariant firstOverlap >= 0 ==> forall j :: 0 <= j < firstOverlap ==> prior[j].key !in freshIds
      invariant forall j :: lastOverlap < j < index ==> prior[j].key !in freshIds
    {
      if prior[index].key in freshIds {
        if firstOverlap == -1 {
          firstOverlap := index;
        }
        lastOverlap := index;
      }
    }
  }

  lemma {:induction false} FilterKeepsOrder(rows: seq<Row>, keep: Row -> bool)
    requires KeyedInOrder(rows)
    ensures KeyedInOrder(Filter(rows, keep))
    ensures forall r :: r in Filter(rows, keep) ==> r in rows
  {
    if rows != [] {
      FilterKeepsOrder(rows[1..], keep);
      var rest := Filter(rows[1..], keep);
      forall r | r in rest ensures rows[0].orderSeq.value <= r.orderSeq.value {
        NotBeforeFirst(rows, r);
      }
      FirstGoesBefore(rows[0], rest);
    }
  }

  lemma FirstGoesBefore(first: Row, rest: seq<Row>)
    requires KeyedInOrder(rest) && first.key.Some? && first.orderSeq.Some?
    requires forall r :: r in rest && r.orderSeq.Some? ==> first.orderSeq.value <= r.orderSeq.value
    ensures KeyedInOrder([first] + rest)
  {
    var both := [first] + rest;
    forall i, j | 0 <= i < j < |both| ensures both[i].orderSeq.value <= both[j].orderSeq.value {
      assert both[j] == rest[j - 1] && rest[j - 1] in rest;
      if i > 0 { assert both[i] == rest[i - 1]; }
    }
  }

  lemma NotBeforeFirst(rows: seq<Row>, r: Row)
    requires KeyedInOrder(rows) && rows != [] && r in rows[1..]
    ensures r in rows && r.orderSeq.Some? && rows[0].orderSeq.value <= r.orderSeq.value
  {
  }

  // ----- Pages as answers --------------------------------------------------------------

  datatype Checked = Accepted(page: Page) | WrongThread

  // normalizeTranscriptPage: no entries reads as an empty page; another thread's throws.
  function NormalizePage(page: Page, threadId: string): Checked {
    if page.entries.None? then Accepted(Page(threadId, Some([]), None, None, page.generation))
    else if page.threadId != threadId then WrongThread
    else Accepted(page)
  }
}
