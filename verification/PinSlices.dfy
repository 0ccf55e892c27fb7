// Pins and pages as slices of one transcript: what both merge algorithms then compute,
// and exactly when they agree.

module PinSlices {
  import opened Options
  import opened Filters
  import opened TranscriptRows
  import opened PinMerge

  // Two copies of a row may differ in text, preview and tombstone, never in identity.
  predicate SameRow(r: Row, s: Row) {
    r.key == s.key && r.orderSeq == s.orderSeq && r.entrySeq == s.entrySeq
  }

  ghost predicate StrictlyNumbered(log: seq<Row>) {
    && Numbered(log)
    && forall i, j :: 0 <= i < j < |log| ==> log[i].orderSeq.value < log[j].orderSeq.value
  }

  predicate Sequenced(log: seq<Row>) {
    forall i :: 0 <= i < |log| ==> log[i].entrySeq.Some?
  }

  ghost predicate StrictlySequenced(log: seq<Row>) {
    && Sequenced(log)
    && forall i, j :: 0 <= i < j < |log| ==> log[i].entrySeq.value < log[j].entrySeq.value
  }

  predicate Unsequenced(log: seq<Row>) {
    forall i :: 0 <= i < |log| ==> log[i].entrySeq.None?
  }

  predicate Unnumbered(log: seq<Row>) {
    forall i :: 0 <= i < |log| ==> log[i].orderSeq.None?
  }

  // A transcript the relay serves: every row named once, and each kind of number either on
  // every row, increasing, or on none.
  ghost predicate Transcript(log: seq<Row>) {
    && Keyed(log)
    && Distinct(log)
    && (StrictlyNumbered(log) || Unnumbered(log))
    && (StrictlySequenced(log) || Unsequenced(log))
  }

  ghost predicate SliceAt(rows: seq<Row>, log: seq<Row>, a: nat) {
    && a + |rows| <= |log|
    && forall i :: 0 <= i < |rows| ==> SameRow(rows[i], log[a + i])
  }

  // A page from c over what is held from a: the page's rows, each merged with the held copy.
  function Blend(held: seq<Row>, a: nat, page: seq<Row>, c: nat, mode: MergeRow): (rows: seq<Row>)
    ensures |rows| == |page|
    ensures forall i :: 0 <= i < |page| ==>
      rows[i] == if a <= c + i < a + |held| then Merged(held[c + i - a], page[i], mode) else page[i]
  {
    seq(|page|, i requires 0 <= i < |page| =>
      if a <= c + i < a + |held| then Merged(held[c + i - a], page[i], mode) else page[i])
  }

  // What is held before p, the rows, what is held from q on.
  function Splice(held: seq<Row>, p: nat, rows: seq<Row>, q: nat): (spliced: seq<Row>)
    requires p <= |held| && q <= |held|
    ensures |spliced| == p + |rows| + |held| - q
  {
    held[..p] + rows + held[q..]
  }

  lemma SpliceElement(held: seq<Row>, p: nat, rows: seq<Row>, q: nat, i: nat)
    requires p <= |held| && q <= |held| && i < |Splice(held, p, rows, q)|
    ensures Splice(held, p, rows, q)[i]
      == if i < p then held[i] else if i < p + |rows| then rows[i - p] else held[q + (i - p - |rows|)]
  {
  }

  function Overlay(held: seq<Row>, a: nat, page: seq<Row>, c: nat, mode: MergeRow): seq<Row> {
    Splice(held, Clamp(c - a, |held|), Blend(held, a, page, c, mode), Clamp(c + |page| - a, |held|))
  }

  lemma SliceKeys(rows: seq<Row>, log: seq<Row>, a: nat)
    requires Transcript(log) && SliceAt(rows, log, a)
    ensures Keyed(rows) && Distinct(rows)
    ensures StrictlyNumbered(log) ==> KeyedInOrder(rows)
    ensures Unnumbered(log) && rows != [] ==> !Numbered(rows)
  {
    forall i, j | 0 <= i < j < |rows| ensures rows[i].key != rows[j].key {
      assert log[a + i].key != log[a + j].key;
    }
    if StrictlyNumbered(log) {
      forall i, j | 0 <= i < j < |rows| ensures rows[i].orderSeq.value <= rows[j].orderSeq.value {
        assert log[a + i].orderSeq.value < log[a + j].orderSeq.value;
      }
    }
    if Unnumbered(log) && rows != [] {
      assert SameRow(rows[0], log[a]);
    }
  }

  lemma SharedPosition(rows: seq<Row>, a: nat, i: nat, row: Row, t: nat, log: seq<Row>)
    requires Transcript(log) && SliceAt(rows, log, a) && i < |rows| && t < |log| && SameRow(row, log[t])
    ensures rows[i].key == row.key <==> a + i == t
  {
  }

  // Where row t of the transcript stands in an overlay whose page ends just before t.
  lemma OverlayPositions(held: seq<Row>, a: nat, page: seq<Row>, c: nat, mode: MergeRow, log: seq<Row>, i: nat) returns (t: nat)
    requires Transcript(log) && SliceAt(held, log, a) && SliceAt(page, log, c)
    requires i < |Overlay(held, a, page, c, mode)|
    ensures t < |log| && SameRow(Overlay(held, a, page, c, mode)[i], log[t])
    ensures var p, q := Clamp(c - a, |held|), Clamp(c + |page| - a, |held|);
      t == if i < p then a + i else if i < p + |page| then c + i - p else a + q + (i - p - |page|)
  {
    var p, q := Clamp(c - a, |held|), Clamp(c + |page| - a, |held|);
    SpliceElement(held, p, Blend(held, a, page, c, mode), q, i);
    t := if i < p then a + i else if i < p + |page| then c + i - p else a + q + (i - p - |page|);
    if a <= t < a + |held| {
      assert SameRow(held[t - a], log[t]);
    }
  }

  lemma OverlayKeyAt(held: seq<Row>, a: nat, page: seq<Row>, c: nat, mode: MergeRow, log: seq<Row>, i: nat)
    requires Transcript(log) && SliceAt(held, log, a) && SliceAt(page, log, c) && page != []
    requires i < |Overlay(held, a, page[..|page| - 1], c, mode)|
    ensures Overlay(held, a, page[..|page| - 1], c, mode)[i].key == page[|page| - 1].key
      <==> a <= c + |page| - 1 < a + |held| && i == Clamp(c - a, |held|) + |page| - 1
  {
  }

  lemma OverlayFind(held: seq<Row>, a: nat, page: seq<Row>, c: nat, mode: MergeRow, log: seq<Row>)
    requires Transcript(log)
    requires SliceAt(held, log, a) && SliceAt(page, log, c) && page != []
    ensures var m, w := |page| - 1, Overlay(held, a, page[..|page| - 1], c, mode);
      KeyIndex(w, page[m].key) == if a <= c + m < a + |held| then Clamp(c - a, |held|) + m else |w|
  {
    var m := |page| - 1;
    var w := Overlay(held, a, page[..m], c, mode);
    var at := Clamp(c - a, |held|) + m;
    forall i | 0 <= i < |w| ensures w[i].key == page[m].key <==> a <= c + m < a + |held| && i == at {
      OverlayKeyAt(held, a, page, c, mode, log, i);
    }
    if a <= c + m < a + |held| {
      FirstAt(w, page[m].key, at);
    }
  }

  // One more page row, by upsert: the overlay grows by exactly that row.
  lemma OverlayUpsert(held: seq<Row>, a: nat, page: seq<Row>, c: nat, mode: MergeRow, log: seq<Row>)
    requires Transcript(log) && StrictlyNumbered(log)
    requires SliceAt(held, log, a) && SliceAt(page, log, c) && page != []
    ensures Upsert(Overlay(held, a, page[..|page| - 1], c, mode), page[|page| - 1], mode) == Overlay(held, a, page, c, mode)
  {
    OverlayFind(held, a, page, c, mode, log);
    if a <= c + |page| - 1 < a + |held| {
      OverlayReplace(held, a, page, c, mode);
    } else {
      OverlaySlot(held, a, page, c, mode, log);
      OverlayExtend(held, a, page, c, mode);
    }
  }

  lemma OverlayReplace(held: seq<Row>, a: nat, page: seq<Row>, c: nat, mode: MergeRow)
    requires page != [] && a <= c + |page| - 1 < a + |held|
    ensures var at, front := Clamp(c - a, |held|) + |page| - 1, page[..|page| - 1];
      && at < |Overlay(held, a, front, c, mode)|
      && Overlay(held, a, front, c, mode)[at] == held[c + |page| - 1 - a]
      && Overlay(held, a, front, c, mode)[at := Merged(held[c + |page| - 1 - a], page[|page| - 1], mode)]
        == Overlay(held, a, page, c, mode)
  {
  }

  lemma OverlayExtend(held: seq<Row>, a: nat, page: seq<Row>, c: nat, mode: MergeRow)
    requires page != [] && !(a <= c + |page| - 1 < a + |held|)
    ensures var at, front := Clamp(c - a, |held|) + |page| - 1, page[..|page| - 1];
      && at <= |Overlay(held, a, front, c, mode)|
      && InsertAt(Overlay(held, a, front, c, mode), at, page[|page| - 1]) == Overlay(held, a, page, c, mode)
  {
  }

  lemma FirstAt(rows: seq<Row>, key: Option<string>, at: nat)
    requires at < |rows| && rows[at].key == key
    requires forall i :: 0 <= i < |rows| && i != at ==> rows[i].key != key
    ensures KeyIndex(rows, key) == at
  {
  }

  lemma OverlaySlot(held: seq<Row>, a: nat, page: seq<Row>, c: nat, mode: MergeRow, log: seq<Row>)
    requires Transcript(log) && StrictlyNumbered(log)
    requires SliceAt(held, log, a) && SliceAt(page, log, c) && page != []
    requires !(a <= c + |page| - 1 < a + |held|)
    ensures InsertionIndex(Overlay(held, a, page[..|page| - 1], c, mode), page[|page| - 1])
      == Clamp(c - a, |held|) + |page| - 1
  {
    var front, row := page[..|page| - 1], page[|page| - 1];
    var t := c + |front|;
    var w := Overlay(held, a, front, c, mode);
    var at := Clamp(c - a, |held|) + |front|;
    forall i | 0 <= i < |w|
      ensures w[i].orderSeq.Some?
      ensures i < at ==> w[i].orderSeq.value <= row.orderSeq.value
      ensures i >= at ==> w[i].orderSeq.value > row.orderSeq.value
    {
      var u := OverlayPositions(held, a, front, c, mode, log, i);
      assert i < at ==> u < t;
      assert i >= at ==> u > t;
    }
    InsertionIndexIs(w, row, at);
  }

  lemma {:induction false} MergeRowsIsOverlay(held: seq<Row>, a: nat, page: seq<Row>, c: nat, mode: MergeRow, log: seq<Row>)
    requires Transcript(log) && StrictlyNumbered(log)
    requires SliceAt(held, log, a) && SliceAt(page, log, c)
    ensures MergeRows(held, page, mode) == Overlay(held, a, page, c, mode)
  {
    if page == [] {
      assert held == held[..Clamp(c - a, |held|)] + held[Clamp(c - a, |held|)..];
    } else {
      MergeRowsIsOverlay(held, a, page[..|page| - 1], c, mode, log);
      OverlayUpsert(held, a, page, c, mode, log);
    }
  }

  // ----- Refreshed tails ---------------------------------------------------------------

  // What a refresh leaves, for a pin from a and a page from c: the paged-in history if it is
  // being held open, the page with tombstones absorbed, and what the stream appended since.
  function Refreshed(pin: Window, a: nat, page: Page, c: nat): Window {
    var rows, n := page.Rows(), |pin.entries|;
    Joined(pin, page,
      pin.entries[..Clamp(c - a, n)],
      Blend(pin.entries, a, rows, c, TakeIncoming),
      pin.entries[Clamp(c + |rows| - a, n)..])
  }

  ghost predicate Meets(held: seq<Row>, a: nat, page: seq<Row>, c: nat) {
    held != [] && page != [] && a < c + |page| && c < a + |held|
  }

  lemma PageMinimum(page: seq<Row>, c: nat, log: seq<Row>)
    requires Transcript(log) && StrictlyNumbered(log) && SliceAt(page, log, c) && page != []
    ensures Numbered(page) && page[0].orderSeq == log[c].orderSeq && MinOrder(page) == log[c].orderSeq.value
  {
  }

  lemma RetainedIs(pin: Window, a: nat, page: seq<Row>, c: nat, log: seq<Row>, p: nat)
    requires Transcript(log) && StrictlyNumbered(log) && !pin.historyExtended
    requires SliceAt(pin.entries, log, a) && SliceAt(page, log, c) && page != []
    requires p == Clamp(c - a, |pin.entries|)
    ensures Numbered(page) && Retained(pin, MinOrder(page)) == pin.entries[p..]
  {
    PageMinimum(page, c, log);
    var held, bound := pin.entries, MinOrder(page);
    forall k | 0 <= k < |held| ensures held[k].orderSeq.Some? && (held[k].orderSeq.value >= bound <==> k >= p) {
      assert SameRow(held[k], log[a + k]);
    }
    FilterCutsStretch(held, (r: Row) => r.orderSeq.Some? && r.orderSeq.value >= bound, 0, p);
    assert held[..0] + held[p..] == held[p..];
  }

  // Both numbered merges run on a deduplicated window and a sorted page; a slice is both.
  lemma NumberedMergeIs(held: seq<Row>, a: nat, page: seq<Row>, c: nat, mode: MergeRow, log: seq<Row>)
    requires Transcript(log) && StrictlyNumbered(log)
    requires SliceAt(held, log, a) && SliceAt(page, log, c)
    ensures PlaceByNumber(held, page, mode) == Overlay(held, a, page, c, mode)
  {
    SliceKeys(held, log, a);
    SliceKeys(page, log, c);
    FirstByKeyOfDistinct(held);
    SortRowsOfAscending(page);
    MergeRowsIsOverlay(held, a, page, c, mode, log);
  }

  // Dropping what lies before the page first leaves the page and what lies after it.
  lemma TrimmedOverlay(held: seq<Row>, a: nat, page: seq<Row>, c: nat, p: nat, q: nat)
    requires p == Clamp(c - a, |held|) && q == Clamp(c + |page| - a, |held|)
    ensures Overlay(held[p..], a + p, page, c, TakeIncoming) == Splice(held, 0, Blend(held, a, page, c, TakeIncoming), q)
  {
  }

  lemma SuffixSlice(rows: seq<Row>, log: seq<Row>, a: nat, p: nat)
    requires SliceAt(rows, log, a) && p <= |rows|
    ensures SliceAt(rows[p..], log, a + p)
  {
  }

  lemma TrimmedPlacement(held: seq<Row>, a: nat, rows: seq<Row>, c: nat, log: seq<Row>, p: nat)
    requires Transcript(log) && StrictlyNumbered(log)
    requires SliceAt(held, log, a) && SliceAt(rows, log, c) && p <= |held|
    ensures PlaceByNumber(held[p..], rows, TakeIncoming) == Overlay(held[p..], a + p, rows, c, TakeIncoming)
  {
    SuffixSlice(held, log, a, p);
    NumberedMergeIs(held[p..], a + p, rows, c, TakeIncoming, log);
  }

  lemma TrimmedRows(held: seq<Row>, a: nat, page: seq<Row>, c: nat, p: nat, q: nat)
    requires p == Clamp(c - a, |held|) && q == Clamp(c + |page| - a, |held|)
    requires PlaceByNumber(held[p..], page, TakeIncoming) == Overlay(held[p..], a + p, page, c, TakeIncoming)
    ensures PlaceByNumber(held[p..], page, TakeIncoming) == [] + Blend(held, a, page, c, TakeIncoming) + held[q..]
  {
    TrimmedOverlay(held, a, page, c, p, q);
    assert held[..0] == [];
  }

  // The pieces of the numbered refresh, put together: history held open, or trimmed.
  lemma NumberedExtended(pin: Window, page: Page, p: nat, rows: seq<Row>, q: nat)
    requires RowsAreOrderKeyed(page.Rows()) && Numbered(pin.entries) && pin.historyExtended
    requires p <= |pin.entries| && q <= |pin.entries|
    requires PlaceByNumber(pin.entries, page.Rows(), TakeIncoming) == pin.entries[..p] + rows + pin.entries[q..]
    requires HasBelow(pin.entries, MinOrder(page.Rows())) <==> p > 0
    ensures RefreshByNumber(pin, page) == Joined(pin, page, pin.entries[..p], rows, pin.entries[q..])
  {
  }

  lemma NumberedTrimmed(pin: Window, page: Page, p: nat, rows: seq<Row>, q: nat)
    requires RowsAreOrderKeyed(page.Rows()) && Numbered(pin.entries) && !pin.historyExtended
    requires p <= |pin.entries| && q <= |pin.entries|
    requires Retained(pin, MinOrder(page.Rows())) == pin.entries[p..]
    requires PlaceByNumber(pin.entries[p..], page.Rows(), TakeIncoming) == [] + rows + pin.entries[q..]
    ensures RefreshByNumber(pin, page) == Joined(pin, page, pin.entries[..p], rows, pin.entries[q..])
  {
  }

  lemma RefreshByNumberIs(pin: Window, a: nat, page: Page, c: nat, log: seq<Row>)
    requires Transcript(log) && StrictlyNumbered(log)
    requires SliceAt(pin.entries, log, a) && SliceAt(page.Rows(), log, c) && page.Rows() != []
    ensures RowsAreOrderKeyed(page.Rows()) && KeyedInOrder(pin.entries)
    ensures RefreshByNumber(pin, page) == Refreshed(pin, a, page, c)
  {
    SliceKeys(page.Rows(), log, c);
    SliceKeys(pin.entries, log, a);
    RefreshByNumberJoins(pin, a, page, c, log, page.Rows(), Clamp(c - a, |pin.entries|), Clamp(c + |page.Rows()| - a, |pin.entries|));
  }

  lemma RefreshByNumberJoins(pin: Window, a: nat, page: Page, c: nat, log: seq<Row>, rows: seq<Row>, p: nat, q: nat)
    requires Transcript(log) && StrictlyNumbered(log) && rows == page.Rows() && rows != []
    requires SliceAt(pin.entries, log, a) && SliceAt(rows, log, c)
    requires RowsAreOrderKeyed(rows) && KeyedInOrder(pin.entries)
    requires p == Clamp(c - a, |pin.entries|) && q == Clamp(c + |rows| - a, |pin.entries|)
    ensures RefreshByNumber(pin, page)
      == Joined(pin, page, pin.entries[..p], Blend(pin.entries, a, rows, c, TakeIncoming), pin.entries[q..])
  {
    if pin.historyExtended {
      JoinsExtended(pin, a, page, c, log, rows, p, q);
    } else {
      JoinsTrimmed(pin, a, page, c, log, rows, p, q);
    }
  }

  lemma JoinsExtended(pin: Window, a: nat, page: Page, c: nat, log: seq<Row>, rows: seq<Row>, p: nat, q: nat)
    requires Transcript(log) && StrictlyNumbered(log) && rows == page.Rows() && rows != [] && pin.historyExtended
    requires SliceAt(pin.entries, log, a) && SliceAt(rows, log, c)
    requires RowsAreOrderKeyed(rows) && KeyedInOrder(pin.entries)
    requires p == Clamp(c - a, |pin.entries|) && q == Clamp(c + |rows| - a, |pin.entries|)
    ensures RefreshByNumber(pin, page)
      == Joined(pin, page, pin.entries[..p], Blend(pin.entries, a, rows, c, TakeIncoming), pin.entries[q..])
  {
    ExtendedFacts(pin.entries, a, c, log, rows, p, q);
    NumberedExtended(pin, page, p, Blend(pin.entries, a, rows, c, TakeIncoming), q);
  }

  lemma ExtendedFacts(held: seq<Row>, a: nat, c: nat, log: seq<Row>, rows: seq<Row>, p: nat, q: nat)
    requires Transcript(log) && StrictlyNumbered(log) && RowsAreOrderKeyed(rows) && KeyedInOrder(held)
    requires SliceAt(held, log, a) && SliceAt(rows, log, c)
    requires p == Clamp(c - a, |held|) && q == Clamp(c + |rows| - a, |held|)
    ensures PlaceByNumber(held, rows, TakeIncoming) == held[..p] + Blend(held, a, rows, c, TakeIncoming) + held[q..]
    ensures HasBelow(held, MinOrder(rows)) <==> p > 0
  {
    PageMinimum(rows, c, log);
    NumberedMergeIs(held, a, rows, c, TakeIncoming, log);
    HistoryAbove(held, a, c, log);
  }

  lemma JoinsTrimmed(pin: Window, a: nat, page: Page, c: nat, log: seq<Row>, rows: seq<Row>, p: nat, q: nat)
    requires Transcript(log) && StrictlyNumbered(log) && rows == page.Rows() && rows != [] && !pin.historyExtended
    requires SliceAt(pin.entries, log, a) && SliceAt(rows, log, c)
    requires RowsAreOrderKeyed(rows) && KeyedInOrder(pin.entries)
    requires p == Clamp(c - a, |pin.entries|) && q == Clamp(c + |rows| - a, |pin.entries|)
    ensures RefreshByNumber(pin, page)
      == Joined(pin, page, pin.entries[..p], Blend(pin.entries, a, rows, c, TakeIncoming), pin.entries[q..])
  {
    PageMinimum(rows, c, log);
    RetainedIs(pin, a, rows, c, log, p);
    TrimmedPlacement(pin.entries, a, rows, c, log, p);
    TrimmedRows(pin.entries, a, rows, c, p, q);
    NumberedTrimmed(pin, page, p, Blend(pin.entries, a, rows, c, TakeIncoming), q);
  }

  lemma HistoryAbove(held: seq<Row>, a: nat, c: nat, log: seq<Row>)
    requires Transcript(log) && StrictlyNumbered(log) && SliceAt(held, log, a) && c < |log|
    ensures HasBelow(held, log[c].orderSeq.value) <==> Clamp(c - a, |held|) > 0
  {
    forall i | 0 <= i < |held| ensures held[i].orderSeq.Some? && (held[i].orderSeq.value < log[c].orderSeq.value <==> a + i < c) {
      assert SameRow(held[i], log[a + i]);
    }
    if Clamp(c - a, |held|) > 0 {
      assert held[0].orderSeq.value < log[c].orderSeq.value;
    }
  }

  lemma SharedKeys(held: seq<Row>, a: nat, page: seq<Row>, c: nat, log: seq<Row>)
    requires Transcript(log) && SliceAt(held, log, a) && SliceAt(page, log, c)
    ensures forall k :: 0 <= k < |held| ==> (held[k].key in NamedKeysOf(page) <==> c <= a + k < c + |page|)
  {
    forall k | 0 <= k < |held| ensures held[k].key in NamedKeysOf(page) <==> c <= a + k < c + |page| {
      assert SameRow(held[k], log[a + k]);
      if c <= a + k < c + |page| {
        assert SameRow(page[a + k - c], log[a + k]);
      }
      if held[k].key in NamedKeysOf(page) {
        var i :| 0 <= i < |page| && page[i].key.Some? && page[i].key == held[k].key;
        SharedPosition(page, c, i, held[k], a + k, log);
      }
    }
  }

  lemma AbsorbIsBlend(held: seq<Row>, a: nat, page: seq<Row>, c: nat, log: seq<Row>)
    requires Transcript(log) && SliceAt(held, log, a) && SliceAt(page, log, c)
    ensures AbsorbWithdrawn(page, held) == Blend(held, a, page, c, TakeIncoming)
  {
  }

  lemma OverlapEnds(held: seq<Row>, a: nat, page: seq<Row>, c: nat, log: seq<Row>)
    requires Transcript(log) && SliceAt(held, log, a) && SliceAt(page, log, c)
    requires Meets(held, a, page, c)
    ensures FirstIn(held, NamedKeysOf(page)) == Clamp(c - a, |held|)
    ensures LastIn(held, NamedKeysOf(page)) == Clamp(c + |page| - a, |held|) - 1
    ensures forall k :: 0 <= k < |held| ==> (held[k].key in NamedKeysOf(page) <==> c <= a + k < c + |page|)
  {
    SharedKeys(held, a, page, c, log);
    assert held[Clamp(c - a, |held|)].key in NamedKeysOf(page);
    assert held[Clamp(c + |page| - a, |held|) - 1].key in NamedKeysOf(page);
  }

  lemma AroundByOverlap(held: seq<Row>, a: nat, page: seq<Row>, c: nat, log: seq<Row>)
    requires Transcript(log) && SliceAt(held, log, a) && SliceAt(page, log, c)
    requires Meets(held, a, page, c)
    ensures LastIn(held, NamedKeysOf(page)) >= 0
    ensures PrefixOf(held, page) == held[..Clamp(c - a, |held|)]
    ensures TailOf(held, page) == held[Clamp(c + |page| - a, |held|)..]
  {
    var ids, p, q := NamedKeysOf(page), Clamp(c - a, |held|), Clamp(c + |page| - a, |held|);
    OverlapEnds(held, a, page, c, log);
    KeysOutside(held, ids, p, q);
  }

  lemma KeysOutside(held: seq<Row>, ids: set<Option<string>>, p: nat, q: nat)
    requires p <= q <= |held| && forall k :: 0 <= k < |held| ==> (held[k].key in ids <==> p <= k < q)
    ensures Filter(held[..p], (r: Row) => r.key !in ids) == held[..p]
    ensures Filter(held[q..], (r: Row) => r.key !in ids) == held[q..]
  {
    FilterKeepsAll(held[..p], (r: Row) => r.key !in ids);
    FilterKeepsAll(held[q..], (r: Row) => r.key !in ids);
  }

  // Where entry_seq puts a pin row relative to a page it shares no row with.
  lemma EntrySeqSides(held: seq<Row>, a: nat, page: seq<Row>, c: nat, log: seq<Row>, k: nat)
    requires Transcript(log) && StrictlySequenced(log) && SliceAt(held, log, a) && SliceAt(page, log, c)
    requires page != [] && !Meets(held, a, page, c) && k < |held|
    ensures MinEntrySeq(page).Some? && MaxEntrySeq(page).Some? && held[k].entrySeq.Some?
    ensures held[k].entrySeq.value < MinEntrySeq(page).value <==> a + k < c
    ensures held[k].entrySeq.value > MaxEntrySeq(page).value <==> c <= a + k
  {
  }

  lemma AroundByEntrySeq(held: seq<Row>, a: nat, page: seq<Row>, c: nat, log: seq<Row>)
    requires Transcript(log) && StrictlySequenced(log) && SliceAt(held, log, a) && SliceAt(page, log, c)
    requires page != [] && !Meets(held, a, page, c)
    ensures LastIn(held, NamedKeysOf(page)) == -1 && MaxEntrySeq(page).Some?
    ensures PrefixOf(held, page) == held[..Clamp(c - a, |held|)]
    ensures TailOf(held, page) == held[Clamp(c + |page| - a, |held|)..]
  {
    SharedKeys(held, a, page, c, log);
    assert SameRow(page[0], log[c]);
    SidesBySequence(held, a, page, c, log);
  }

  lemma SidesBySequence(held: seq<Row>, a: nat, page: seq<Row>, c: nat, log: seq<Row>)
    requires Transcript(log) && StrictlySequenced(log) && SliceAt(held, log, a) && SliceAt(page, log, c)
    requires page != [] && !Meets(held, a, page, c)
    ensures Filter(held, SequencedBelow(MinEntrySeq(page))) == held[..Clamp(c - a, |held|)]
    ensures Filter(held, SequencedAbove(MaxEntrySeq(page))) == held[Clamp(c + |page| - a, |held|)..]
  {
    var below, above := SequencedBelow(MinEntrySeq(page)), SequencedAbove(MaxEntrySeq(page));
    forall k | 0 <= k < |held| ensures (below(held[k]) <==> a + k < c) && (above(held[k]) <==> c <= a + k) {
      EntrySeqSides(held, a, page, c, log, k);
    }
    FilterOneSided(held, below, a + |held| <= c);
    FilterOneSided(held, above, a + |held| > c);
  }

  lemma FilterOneSided<T>(s: seq<T>, keep: T -> bool, all: bool)
    requires forall k :: 0 <= k < |s| ==> keep(s[k]) == all
    ensures Filter(s, keep) == if all then s else []
  {
  }

  lemma RefreshByOverlapIs(pin: Window, a: nat, page: Page, c: nat, log: seq<Row>)
    requires Transcript(log)
    requires SliceAt(pin.entries, log, a) && SliceAt(page.Rows(), log, c) && page.Rows() != []
    requires Meets(pin.entries, a, page.Rows(), c) || StrictlySequenced(log)
    ensures RefreshByOverlap(pin, page) == Refreshed(pin, a, page, c)
  {
    AbsorbIsBlend(pin.entries, a, page.Rows(), c, log);
    if Meets(pin.entries, a, page.Rows(), c) {
      AroundByOverlap(pin.entries, a, page.Rows(), c, log);
    } else {
      AroundByEntrySeq(pin.entries, a, page.Rows(), c, log);
    }
    OverlapJoins(pin, page,
      pin.entries[..Clamp(c - a, |pin.entries|)],
      Blend(pin.entries, a, page.Rows(), c, TakeIncoming),
      pin.entries[Clamp(c + |page.Rows()| - a, |pin.entries|)..]);
  }

  lemma OverlapJoins(pin: Window, page: Page, prefix: seq<Row>, rows: seq<Row>, tail: seq<Row>)
    requires LastIn(pin.entries, NamedKeysOf(page.Rows())) != -1 || MaxEntrySeq(page.Rows()).Some?
    requires AbsorbWithdrawn(page.Rows(), pin.entries) == rows
    requires PrefixOf(pin.entries, page.Rows()) == prefix && TailOf(pin.entries, page.Rows()) == tail
    ensures RefreshByOverlap(pin, page) == Joined(pin, page, prefix, rows, tail)
  {
  }

  // No shared key and no entry_seq: the page stands alone.
  lemma RefreshByOverlapGivesUp(pin: Window, a: nat, page: Page, c: nat, log: seq<Row>)
    requires Transcript(log) && Unsequenced(log)
    requires SliceAt(pin.entries, log, a) && SliceAt(page.Rows(), log, c) && page.Rows() != []
    requires !Meets(pin.entries, a, page.Rows(), c)
    ensures RefreshByOverlap(pin, page)
      == pin.(entries := page.Rows(), historyExtended := false, olderCursor := page.prevCursor)
  {
    var rows := page.Rows();
    SharedKeys(pin.entries, a, rows, c, log);
    AbsorbIsBlend(pin.entries, a, rows, c, log);
    assert Blend(pin.entries, a, rows, c, TakeIncoming) == rows;
    forall i | 0 <= i < |rows| ensures rows[i].entrySeq.None? {
      assert SameRow(rows[i], log[c + i]);
    }
  }

  lemma KeptBesidePage(pin: Window, a: nat, page: Page, c: nat)
    requires !Meets(pin.entries, a, page.Rows(), c) && page.Rows() != [] && pin.entries != []
    ensures Blend(pin.entries, a, page.Rows(), c, TakeIncoming) == page.Rows()
    ensures Refreshed(pin, a, page, c).entries == page.Rows()
      <==> (a + |pin.entries| <= c && !pin.historyExtended)
  {
  }

  // The two refresh algorithms answer alike, rows, cursor and flag, exactly when the page
  // shares a row with the pin, or entry_seq can place it, or there is nothing to keep.
  lemma RefreshMergesAgree(pin: Window, a: nat, page: Page, c: nat, log: seq<Row>)
    requires Transcript(log) && StrictlyNumbered(log)
    requires SliceAt(pin.entries, log, a) && SliceAt(page.Rows(), log, c)
    requires pin.entries != [] && page.Rows() != []
    ensures RowsAreOrderKeyed(page.Rows()) && KeyedInOrder(pin.entries)
    ensures (RefreshByNumber(pin, page) == RefreshByOverlap(pin, page))
      <==> (Meets(pin.entries, a, page.Rows(), c)
        || StrictlySequenced(log)
        || (a + |pin.entries| <= c && !pin.historyExtended))
  {
    RefreshByNumberIs(pin, a, page, c, log);
    if Meets(pin.entries, a, page.Rows(), c) || StrictlySequenced(log) {
      RefreshByOverlapIs(pin, a, page, c, log);
    } else {
      RefreshByOverlapGivesUp(pin, a, page, c, log);
      KeptBesidePage(pin, a, page, c);
    }
  }

  // ----- Older pages -------------------------------------------------------------------

  // Page rows the pin does not hold go first, whichever side of it they belong on.
  lemma OlderByOverlapIs(held: seq<Row>, a: nat, page: seq<Row>, c: nat, log: seq<Row>)
    requires Transcript(log) && SliceAt(held, log, a) && SliceAt(page, log, c)
    ensures var i, j := Clamp(a - c, |page|), Clamp(a + |held| - c, |page|);
      OlderByOverlap(held, page) == page[..i] + page[j..] + AbsorbWithdrawn(held, page[i..j])
  {
    var ids, i, j := NamedKeysOf(held), Clamp(a - c, |page|), Clamp(a + |held| - c, |page|);
    SharedKeys(page, c, held, a, log);
    FilterCutsStretch(page, (r: Row) => r.key !in ids, i, j);
    FilterKeepsStretch(page, (r: Row) => r.key in ids, i, j);
  }

  lemma {:induction false} FilterKeepsStretch<T>(s: seq<T>, keep: T -> bool, i: nat, j: nat)
    requires i <= j <= |s|
    requires forall k :: 0 <= k < |s| ==> (keep(s[k]) <==> i <= k < j)
    ensures Filter(s, keep) == s[i..j]
  {
    if i > 0 {
      var rest := s[1..];
      assert forall k :: 0 <= k < |rest| ==> rest[k] == s[k + 1];
      FilterKeepsStretch(rest, keep, i - 1, j - 1);
      assert rest[i - 1..j - 1] == s[i..j];
      assert [] + Filter(rest, keep) == Filter(rest, keep);
    } else if j == |s| {
      FilterKeepsAll(s, keep);
      assert s[0..j] == s;
    } else {
      FilterCutsStretch(s, keep, j, |s|);
      assert s[..j] + s[|s|..] == s[0..j];
    }
  }

  function KeySeq(rows: seq<Row>): (keys: seq<Option<string>>)
    ensures |keys| == |rows| && forall i :: 0 <= i < |rows| ==> keys[i] == rows[i].key
  {
    seq(|rows|, i requires 0 <= i < |rows| => rows[i].key)
  }

  // By number, a page that reaches no further than the pin only adds rows in front of it.
  lemma OlderByNumberPrepends(held: seq<Row>, a: nat, page: seq<Row>, c: nat, log: seq<Row>)
    requires Transcript(log) && StrictlyNumbered(log)
    requires SliceAt(held, log, a) && SliceAt(page, log, c)
    requires held == [] || c + |page| <= a + |held|
    ensures OlderByNumber(held, page) == if held == [] then page else page[..Clamp(a - c, |page|)] + held
  {
    NumberedMergeIs(held, a, page, c, KeepHeld, log);
    var i, right := Clamp(a - c, |page|), Overlay(held, a, page, c, KeepHeld);
    if held == [] {
      assert Blend(held, a, page, c, KeepHeld) == page;
    } else {
      OverlayOfKeptRows(held, a, page, c);
    }
  }

  lemma OverlayOfKeptRows(held: seq<Row>, a: nat, page: seq<Row>, c: nat)
    requires held != [] && c + |page| <= a + |held|
    ensures Overlay(held, a, page, c, KeepHeld) == page[..Clamp(a - c, |page|)] + held
  {
  }

  lemma OlderByOverlapPrepends(held: seq<Row>, a: nat, page: seq<Row>, c: nat, log: seq<Row>)
    requires Transcript(log) && SliceAt(held, log, a) && SliceAt(page, log, c)
    requires held == [] || c + |page| <= a + |held|
    ensures OlderByOverlap(held, page)
      == if held == [] then page
         else page[..Clamp(a - c, |page|)] + AbsorbWithdrawn(held, page[Clamp(a - c, |page|)..])
  {
    OlderByOverlapIs(held, a, page, c, log);
    PrependPieces(held, a, page, c);
  }

  lemma PrependPieces(held: seq<Row>, a: nat, page: seq<Row>, c: nat)
    requires held == [] || c + |page| <= a + |held|
    ensures var i, j := Clamp(a - c, |page|), Clamp(a + |held| - c, |page|);
      page[..i] + page[j..] + AbsorbWithdrawn(held, page[i..j])
        == if held == [] then page else page[..i] + AbsorbWithdrawn(held, page[i..])
  {
    var i, j := Clamp(a - c, |page|), Clamp(a + |held| - c, |page|);
    if held == [] {
      assert page[..i] + page[i..] == page;
      assert AbsorbWithdrawn(held, page[i..j]) == [];
      assert page + [] == page;
    } else {
      assert page[j..] == [] && page[i..j] == page[i..];
      assert page[..i] + [] == page[..i];
    }
  }

  lemma PrependedOutOfOrder(held: seq<Row>, a: nat, page: seq<Row>, c: nat, log: seq<Row>)
    requires Transcript(log) && SliceAt(held, log, a) && SliceAt(page, log, c)
    requires held != [] && page != [] && a + |held| < c + |page|
    ensures KeySeq(OlderByOverlap(held, page)) != KeySeq(Overlay(held, a, page, c, KeepHeld))
  {
    var left, right := OlderByOverlap(held, page), Overlay(held, a, page, c, KeepHeld);
    PrependedEndsWithHeld(held, a, page, c, log);
    OverlayEndsBeyondHeld(held, a, page, c, log);
    assert KeySeq(left)[|left| - 1] == left[|left| - 1].key;
    assert KeySeq(right)[|right| - 1] == right[|right| - 1].key;
  }

  lemma PrependedEndsWithHeld(held: seq<Row>, a: nat, page: seq<Row>, c: nat, log: seq<Row>)
    requires Transcript(log) && SliceAt(held, log, a) && SliceAt(page, log, c) && held != []
    ensures var left := OlderByOverlap(held, page); left != [] && left[|left| - 1].key == held[|held| - 1].key
  {
  }

  lemma OverlayEndsBeyondHeld(held: seq<Row>, a: nat, page: seq<Row>, c: nat, log: seq<Row>)
    requires Transcript(log) && SliceAt(held, log, a) && SliceAt(page, log, c)
    requires held != [] && page != [] && a + |held| < c + |page|
    ensures var right := Overlay(held, a, page, c, KeepHeld);
      right != [] && right[|right| - 1].key != held[|held| - 1].key
  {
  }

  // The two older-page algorithms return the same keys exactly when the page reaches no
  // further than the pin: one that does is prepended out of order by the overlap algorithm.
  lemma OlderMergesAgree(held: seq<Row>, a: nat, page: seq<Row>, c: nat, log: seq<Row>)
    requires Transcript(log) && StrictlyNumbered(log)
    requires SliceAt(held, log, a) && SliceAt(page, log, c)
    ensures (KeySeq(OlderByNumber(held, page)) == KeySeq(OlderByOverlap(held, page)))
      <==> (held == [] || page == [] || c + |page| <= a + |held|)
  {
    if held == [] || page == [] || c + |page| <= a + |held| {
      if page == [] {
        OlderEmptyPage(held, a, c, log);
      } else {
        OlderByNumberPrepends(held, a, page, c, log);
        OlderByOverlapPrepends(held, a, page, c, log);
      }
      assert KeySeq(OlderByNumber(held, page)) == KeySeq(OlderByOverlap(held, page));
    } else {
      OlderMergesDiffer(held, a, page, c, log);
    }
  }

  lemma OlderMergesDiffer(held: seq<Row>, a: nat, page: seq<Row>, c: nat, log: seq<Row>)
    requires Transcript(log) && StrictlyNumbered(log)
    requires SliceAt(held, log, a) && SliceAt(page, log, c)
    requires held != [] && page != [] && a + |held| < c + |page|
    ensures KeySeq(OlderByNumber(held, page)) != KeySeq(OlderByOverlap(held, page))
  {
    NumberedMergeIs(held, a, page, c, KeepHeld, log);
    PrependedOutOfOrder(held, a, page, c, log);
  }

  lemma OlderEmptyPage(held: seq<Row>, a: nat, c: nat, log: seq<Row>)
    requires Transcript(log) && StrictlyNumbered(log) && SliceAt(held, log, a) && SliceAt([], log, c)
    ensures OlderByNumber(held, []) == held && OlderByOverlap(held, []) == held
  {
    SliceKeys(held, log, a);
    FirstByKeyOfDistinct(held);
    OlderByOverlapIs(held, a, [], c, log);
  }

  lemma NewTombstone(held: seq<Row>, a: nat, page: seq<Row>, c: nat, log: seq<Row>, k: nat)
    requires Transcript(log) && SliceAt(held, log, a) && SliceAt(page, log, c)
    requires k < |held| && c + |page| <= a + |held|
    ensures AbsorbWithdrawn(held, page[Clamp(a - c, |page|)..])[k] == held[k]
      <==> (c <= a + k < c + |page| && page[a + k - c].withdrawn ==> held[k].withdrawn)
  {
  }

  // They return the same rows only when, besides, the page brings no new tombstone: the
  // comment in the source says the tombstone rides across in both, but by number
  // `keepHeldRow` answers with the held row and the page's withdrawal is dropped.
  lemma OlderMergesAgreeOnRows(held: seq<Row>, a: nat, page: seq<Row>, c: nat, log: seq<Row>)
    requires Transcript(log) && StrictlyNumbered(log)
    requires SliceAt(held, log, a) && SliceAt(page, log, c)
    requires held != [] && page != [] && c + |page| <= a + |held|
    ensures (OlderByNumber(held, page) == OlderByOverlap(held, page))
      <==> (forall k :: 0 <= k < |held| && c <= a + k < c + |page| && page[a + k - c].withdrawn ==> held[k].withdrawn)
  {
    var i := Clamp(a - c, |page|);
    var absorbed := AbsorbWithdrawn(held, page[i..]);
    forall k | 0 <= k < |held|
      ensures absorbed[k] == held[k] <==>
        (c <= a + k < c + |page| && page[a + k - c].withdrawn ==> held[k].withdrawn)
    {
      NewTombstone(held, a, page, c, log, k);
    }
    assert absorbed == held <==> forall k :: 0 <= k < |held| ==> absorbed[k] == held[k];
    OlderByNumberPrepends(held, a, page, c, log);
    OlderByOverlapPrepends(held, a, page, c, log);
    SamePrefix(page[..i], held, absorbed);
  }

  lemma SamePrefix<T>(prefix: seq<T>, s: seq<T>, t: seq<T>)
    ensures prefix + s == prefix + t <==> s == t
  {
    assert (prefix + s)[|prefix|..] == s;
    assert (prefix + t)[|prefix|..] == t;
  }

  // The concrete case: an older page that reports a held row withdrawn.
  lemma TombstoneDroppedByNumber(row: Row)
    requires row.key.Some? && row.orderSeq.Some? && row.entrySeq.Some? && !row.withdrawn
    ensures OlderByNumber([row], [row.(withdrawn := true)]) == [row]
    ensures OlderByNumber([row], [row.(withdrawn := true)]) != OlderByOverlap([row], [row.(withdrawn := true)])
  {
    var held, page := [row], [row.(withdrawn := true)];
    OneRowTranscript(row);
    OlderByNumberPrepends(held, 0, page, 0, held);
    assert page[..0] + held == held;
    OlderMergesAgreeOnRows(held, 0, page, 0, held);
    assert page[0 + 0 - 0].withdrawn && !held[0].withdrawn;
  }

  lemma OneRowTranscript(row: Row)
    requires row.key.Some? && row.orderSeq.Some? && row.entrySeq.Some?
    ensures Transcript([row]) && StrictlyNumbered([row])
    ensures SliceAt([row], [row], 0) && SliceAt([row.(withdrawn := true)], [row], 0)
  {
  }
}
