// One merge never leaves a hole: from a contiguous slice of the transcript, with the cursor
// at or after its first row, a tail page or an older page leaves another such slice.

module PinHoles {
  import opened Options
  import opened Filters
  import opened TranscriptRows
  import opened PinMerge
  import opened PinSlices

  // The cursor the relay mints for a page starting at c: none at the head of the transcript.
  function CursorFor(c: nat): Option<Cursor> {
    if c == 0 then None else Some(c)
  }

  // An older page asked for with this cursor ends inside the slice or right before it.
  predicate CursorInside(cursor: Option<Cursor>, a: nat, length: nat) {
    match cursor
    case None => a == 0
    case Some(x) => a <= x <= a + length
  }

  ghost predicate PageOf(page: Page, log: seq<Row>, c: nat) {
    page.Rows() != [] && SliceAt(page.Rows(), log, c) && page.prevCursor == CursorFor(c)
  }

  lemma JoinSlices(left: seq<Row>, right: seq<Row>, log: seq<Row>, a: nat)
    requires SliceAt(left, log, a) && SliceAt(right, log, a + |left|)
    ensures SliceAt(left + right, log, a)
  {
  }

  lemma PrefixSlice(rows: seq<Row>, log: seq<Row>, a: nat, p: nat)
    requires SliceAt(rows, log, a) && p <= |rows|
    ensures SliceAt(rows[..p], log, a)
  {
  }

  lemma BlendSlice(held: seq<Row>, a: nat, page: seq<Row>, c: nat, log: seq<Row>)
    requires SliceAt(held, log, a) && SliceAt(page, log, c)
    ensures SliceAt(Blend(held, a, page, c, TakeIncoming), log, c)
  {
  }

  // A joined refresh is contiguous when the page touches the pin, on both sides if the
  // reader's history is being held open.
  lemma JoinedSlice(pin: Window, a: nat, page: Page, c: nat, log: seq<Row>, p: nat, q: nat, rows: seq<Row>)
    requires SliceAt(pin.entries, log, a) && SliceAt(rows, log, c) && rows != []
    requires p == Clamp(c - a, |pin.entries|) && q == Clamp(c + |rows| - a, |pin.entries|)
    requires a <= c + |rows| && (pin.historyExtended ==> c <= a + |pin.entries|)
    ensures var joined := Joined(pin, page, pin.entries[..p], rows, pin.entries[q..]);
      SliceAt(joined.entries, log, if pin.historyExtended && a < c then a else c)
    ensures var joined := Joined(pin, page, pin.entries[..p], rows, pin.entries[q..]);
      joined.entries != [] && (pin.historyExtended ==>
        (if a < c then a else c) + |joined.entries| >= a + |pin.entries|)
  {
  }

  ghost predicate RefreshTouches(pin: Window, a: nat, page: Page, c: nat) {
    a <= c + |page.Rows()| && (pin.historyExtended ==> c <= a + |pin.entries|)
  }

  // mergeRefreshedViewOnlyPage keeps the slice, whichever algorithm it takes.
  lemma RefreshKeepsSlice(pin: Window, a: nat, page: Page, c: nat, log: seq<Row>) returns (lo: nat)
    requires Transcript(log) && page.threadId == pin.threadId
    requires SliceAt(pin.entries, log, a) && PageOf(page, log, c)
    requires pin.entries == [] ==> !pin.historyExtended
    requires pin.entries != [] ==> RefreshTouches(pin, a, page, c)
    requires pin.historyExtended ==> CursorInside(pin.olderCursor, a, |pin.entries|)
    ensures var merged := MergeRefreshed(pin, page);
      && merged.threadId == pin.threadId
      && merged.entries != []
      && SliceAt(merged.entries, log, lo)
      && CursorInside(merged.olderCursor, lo, |merged.entries|)
  {
    var rows := page.Rows();
    if pin.entries == [] {
      lo := c;
    } else {
      SliceKeys(rows, log, c);
      SliceKeys(pin.entries, log, a);
      if StrictlyNumbered(log) {
        RefreshByNumberIs(pin, a, page, c, log);
        lo := RefreshedKeepsSlice(pin, a, page, c, log);
      } else if Meets(pin.entries, a, rows, c) || StrictlySequenced(log) {
        RefreshByOverlapIs(pin, a, page, c, log);
        lo := RefreshedKeepsSlice(pin, a, page, c, log);
      } else {
        RefreshByOverlapGivesUp(pin, a, page, c, log);
        lo := c;
      }
    }
  }

  lemma RefreshedKeepsSlice(pin: Window, a: nat, page: Page, c: nat, log: seq<Row>) returns (lo: nat)
    requires SliceAt(pin.entries, log, a) && PageOf(page, log, c)
    requires RefreshTouches(pin, a, page, c)
    requires pin.historyExtended ==> CursorInside(pin.olderCursor, a, |pin.entries|)
    ensures var merged := Refreshed(pin, a, page, c);
      && merged.entries != []
      && SliceAt(merged.entries, log, lo)
      && CursorInside(merged.olderCursor, lo, |merged.entries|)
  {
    var rows := Blend(pin.entries, a, page.Rows(), c, TakeIncoming);
    BlendSlice(pin.entries, a, page.Rows(), c, log);
    JoinedSlice(pin, a, page, c, log, Clamp(c - a, |pin.entries|), Clamp(c + |page.Rows()| - a, |pin.entries|), rows);
    lo := if pin.historyExtended && a < c then a else c;
  }

  lemma OlderByNumberSlice(held: seq<Row>, a: nat, rows: seq<Row>, c: nat, log: seq<Row>)
    requires Transcript(log) && StrictlyNumbered(log) && held != []
    requires SliceAt(held, log, a) && SliceAt(rows, log, c) && a <= c + |rows| <= a + |held|
    ensures SliceAt(OlderByNumber(held, rows), log, if c < a then c else a)
    ensures |OlderByNumber(held, rows)| == |held| + Clamp(a - c, |rows|)
  {
    OlderByNumberPrepends(held, a, rows, c, log);
    PrependedSlice(held, a, rows, c, log, Clamp(a - c, |rows|));
  }

  lemma PrependedSlice(held: seq<Row>, a: nat, rows: seq<Row>, c: nat, log: seq<Row>, p: nat)
    requires SliceAt(held, log, a) && SliceAt(rows, log, c) && a <= c + |rows| && p == Clamp(a - c, |rows|)
    ensures SliceAt(rows[..p] + held, log, if c < a then c else a)
  {
  }

  lemma OlderByOverlapSlice(held: seq<Row>, a: nat, rows: seq<Row>, c: nat, log: seq<Row>)
    requires Transcript(log) && held != []
    requires SliceAt(held, log, a) && SliceAt(rows, log, c) && a <= c + |rows| <= a + |held|
    ensures SliceAt(OlderByOverlap(held, rows), log, if c < a then c else a)
    ensures |OlderByOverlap(held, rows)| == |held| + Clamp(a - c, |rows|)
  {
    OlderByOverlapPrepends(held, a, rows, c, log);
    PrefixSlice(rows, log, c, Clamp(a - c, |rows|));
    AbsorbKeepsSlice(held, rows[Clamp(a - c, |rows|)..], log, a);
    JoinSlices(rows[..Clamp(a - c, |rows|)], AbsorbWithdrawn(held, rows[Clamp(a - c, |rows|)..]), log, if c < a then c else a);
  }

  // mergeOlderViewOnlyPage keeps the slice when the page ends where the cursor says.
  lemma OlderKeepsSlice(pin: Window, a: nat, page: Page, c: nat, log: seq<Row>) returns (lo: nat)
    requires Transcript(log) && page.threadId == pin.threadId
    requires SliceAt(pin.entries, log, a) && PageOf(page, log, c) && pin.entries != []
    requires a <= c + |page.Rows()| <= a + |pin.entries|
    ensures lo == if c < a then c else a
    ensures var merged := MergeOlder(pin, page);
      && merged.threadId == pin.threadId
      && merged.entries != []
      && SliceAt(merged.entries, log, lo)
      && lo + |merged.entries| == a + |pin.entries|
      && CursorInside(merged.olderCursor, lo, |merged.entries|)
      && merged.olderCursor == CursorFor(c)
  {
    lo := if c < a then c else a;
    SliceKeys(page.Rows(), log, c);
    SliceKeys(pin.entries, log, a);
    if StrictlyNumbered(log) {
      OlderByNumberSlice(pin.entries, a, page.Rows(), c, log);
    }
    OlderByOverlapSlice(pin.entries, a, page.Rows(), c, log);
  }

  lemma AbsorbKeepsSlice(held: seq<Row>, dropped: seq<Row>, log: seq<Row>, a: nat)
    requires SliceAt(held, log, a)
    ensures SliceAt(AbsorbWithdrawn(held, dropped), log, a)
  {
  }
}
