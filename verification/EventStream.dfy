// The incremental parser of the session stream (frontend/session-stream.js): pieces of text
// are buffered, each buffer is cut at blank lines, and the last one is flushed at the end.

module EventStream {
  import opened Options
  import opened Filters
  import opened Strings

  datatype Event = Event(kind: string, data: string)

  // ----- Text --------------------------------------------------------------------------

  predicate StartsWith(s: string, prefix: string) {
    prefix <= s
  }

  function Join(lines: seq<string>): string {
    if lines == [] then ""
    else if |lines| == 1 then lines[0]
    else Join(lines[..|lines| - 1]) + "\n" + lines[|lines| - 1]
  }

  // replaceAll("\r\n", "\n") and then replaceAll("\r", "\n").
  function Normalize(s: string): string {
    if s == "" then ""
    else if s[0] == '\r' then
      "\n" + Normalize(if |s| > 1 && s[1] == '\n' then s[2..] else s[1..])
    else [s[0]] + Normalize(s[1..])
  }

  predicate SeparatorAt(s: string, i: int) {
    0 <= i && i + 2 <= |s| && s[i] == '\n' && s[i + 1] == '\n'
  }

  // indexOf("\n\n", from)
  function IndexOfSeparator(s: string, from: nat): (i: Option<nat>)
    requires from <= |s|
    ensures i.Some? ==> from <= i.value && SeparatorAt(s, i.value)
    ensures forall k :: from <= k < (if i.Some? then i.value else |s|) ==> !SeparatorAt(s, k)
    decreases |s| - from
  {
    if from == |s| then None
    else if SeparatorAt(s, from) then Some(from)
    else IndexOfSeparator(s, from + 1)
  }

  function FirstNewline(s: string): (i: Option<nat>)
    ensures i.Some? ==> i.value < |s| && s[i.value] == '\n' && forall k :: 0 <= k < i.value ==> s[k] != '\n'
    ensures i.None? ==> '\n' !in s
  {
    if s == "" then None
    else if s[0] == '\n' then Some(0)
    else match FirstNewline(s[1..])
      case Some(i) => Some(i + 1)
      case None => None
  }

  // split("\n")
  function SplitLines(s: string): seq<string> {
    match FirstNewline(s)
    case None => [s]
    case Some(i) => [s[..i]] + SplitLines(s[i + 1..])
  }

  // ----- One event ---------------------------------------------------------------------

  datatype Fields = Fields(kind: string, data: seq<string>)

  const NO_FIELDS := Fields("message", [])

  function Field(f: Fields, line: string): Fields {
    if line == "" || StartsWith(line, ":") then f
    else if StartsWith(line, "event:") then
      f.(kind := if Trim(line[6..]) == "" then "message" else Trim(line[6..]))
    else if StartsWith(line, "data:") then f.(data := f.data + [TrimStart(line[5..])])
    else f
  }

  function FieldsOf(f: Fields, lines: seq<string>): Fields
    decreases |lines|
  {
    if lines == [] then f else FieldsOf(Field(f, lines[0]), lines[1..])
  }

  function Emit(f: Fields): seq<Event> {
    if f.data == [] then [] else [Event(f.kind, Join(f.data))]
  }

  // dispatchEvent
  function EventsOf(rawEvent: string): seq<Event> {
    if Trim(rawEvent) == "" then [] else Emit(FieldsOf(NO_FIELDS, SplitLines(rawEvent)))
  }

  function EventsOfEach(rawEvents: seq<string>): seq<Event> {
    FlatMap(rawEvents, EventsOf)
  }

  // dispatchBufferedEvents on normalized text: the raw events, and what is left in the buffer.
  function Cut(text: string): (seq<string>, string)
    decreases |text|
  {
    match IndexOfSeparator(text, 0)
    case None => ([], text)
    case Some(i) => ([text[..i]] + Cut(text[i + 2..]).0, Cut(text[i + 2..]).1)
  }

  // ----- A whole stream ----------------------------------------------------------------

  // The raw events so far and the buffer, after each read.
  function Reads(pieces: seq<string>): (seq<string>, string) {
    if pieces == [] then ([], "")
    else
      var before := Reads(pieces[..|pieces| - 1]);
      var scanned := Cut(Normalize(before.1 + pieces[|pieces| - 1]));
      (before.0 + scanned.0, scanned.1)
  }

  // What is dispatched once the end-of-stream flush is done.
  function Stream(pieces: seq<string>): seq<Event> {
    var read := Reads(pieces);
    EventsOfEach(read.0 + Cut(Normalize(read.1 + "\n\n")).0)
  }

  function Concat(pieces: seq<string>): string {
    if pieces == [] then "" else Concat(pieces[..|pieces| - 1]) + pieces[|pieces| - 1]
  }

  // ----- Cutting the text --------------------------------------------------------------

  function Prepend(raws: seq<string>, rest: (seq<string>, string)): (seq<string>, string) {
    (raws + rest.0, rest.1)
  }

  lemma PrependTwice(some: seq<string>, more: seq<string>, rest: (seq<string>, string))
    ensures Prepend(some, Prepend(more, rest)) == Prepend(some + more, rest)
  {
    assert some + (more + rest.0) == some + more + rest.0;
  }

  // A scan may stop anywhere and go on from what it left.
  lemma {:induction false} CutContinues(a: string, b: string)
    ensures Cut(a + b) == Prepend(Cut(a).0, Cut(Cut(a).1 + b))
    decreases |a|
  {
    match IndexOfSeparator(a, 0)
    case None =>
      assert [] + Cut(a + b).0 == Cut(a + b).0;
    case Some(i) =>
      SameSeparator(a, b, i);
      var rest := a[i + 2..];
      CutContinues(rest, b);
      assert (a + b)[i + 2..] == rest + b && (a + b)[..i] == a[..i];
      PrependTwice([a[..i]], Cut(rest).0, Cut(Cut(rest).1 + b));
  }

  lemma SameSeparator(a: string, b: string, i: nat)
    requires IndexOfSeparator(a, 0) == Some(i)
    ensures IndexOfSeparator(a + b, 0) == Some(i)
  {
    assert SeparatorAt(a + b, i);
    forall k | 0 <= k < i ensures !SeparatorAt(a + b, k) {
      assert !SeparatorAt(a, k);
    }
  }

  lemma {:induction false} NormalizeKeeps(s: string)
    requires '\r' !in s
    ensures Normalize(s) == s
  {
    if s != "" { NormalizeKeeps(s[1..]); }
  }

  lemma {:induction false} NormalizedHasNoReturns(s: string)
    ensures '\r' !in Normalize(s)
    decreases |s|
  {
    if s != "" {
      NormalizedHasNoReturns(if s[0] == '\r' && |s| > 1 && s[1] == '\n' then s[2..] else s[1..]);
    }
  }

  predicate CutsReturn(a: string, b: string) {
    a != "" && b != "" && a[|a| - 1] == '\r' && b[0] == '\n'
  }

  // Normalizing two pieces apart gives one newline too many exactly when the cut falls
  // between a carriage return and its line feed.
  lemma {:induction false} NormalizeConcat(a: string, b: string)
    ensures !CutsReturn(a, b) ==> Normalize(a + b) == Normalize(a) + Normalize(b)
    ensures |Normalize(a)| + |Normalize(b)| == |Normalize(a + b)| + if CutsReturn(a, b) then 1 else 0
    decreases |a|
  {
    if a == "" {
      assert a + b == b;
    } else if a[0] == '\r' && |a| > 1 && a[1] == '\n' {
      NormalizeConcat(a[2..], b);
      NormalizePair(a, b);
    } else if |a| == 1 && CutsReturn(a, b) {
      NormalizeCut(a, b);
    } else {
      NormalizeConcat(a[1..], b);
      NormalizeFirst(a, b);
    }
  }

  // One character that no line feed follows.
  lemma NormalizeFirst(a: string, b: string)
    requires a != "" && !(a[0] == '\r' && |a| > 1 && a[1] == '\n') && !(|a| == 1 && CutsReturn(a, b))
    ensures var first := if a[0] == '\r' then "\n" else [a[0]];
      Normalize(a) == first + Normalize(a[1..]) && Normalize(a + b) == first + Normalize(a[1..] + b)
  {
    assert (a + b)[1..] == a[1..] + b;
  }

  lemma NormalizeCut(a: string, b: string)
    requires |a| == 1 && CutsReturn(a, b)
    ensures Normalize(a) == "\n" && Normalize(b) == "\n" + Normalize(b[1..])
    ensures Normalize(a + b) == "\n" + Normalize(b[1..])
  {
    assert (a + b)[2..] == b[1..] && a[1..] == "";
    assert Normalize(a) == "\n" + Normalize("");
  }

  lemma NormalizePair(a: string, b: string)
    requires |a| > 1 && a[0] == '\r' && a[1] == '\n'
    ensures Normalize(a) == "\n" + Normalize(a[2..]) && Normalize(a + b) == "\n" + Normalize(a[2..] + b)
  {
    assert (a + b)[2..] == a[2..] + b;
  }

  // The text the stream parses: each read normalized on its own.
  function AsRead(pieces: seq<string>): string {
    if pieces == [] then "" else AsRead(pieces[..|pieces| - 1]) + Normalize(pieces[|pieces| - 1])
  }

  // Read i begins with the line feed of a carriage return that ended the text before it.
  predicate SplitsReturn(pieces: seq<string>, i: nat)
    requires i < |pieces|
  {
    CutsReturn(Concat(pieces[..i]), pieces[i])
  }

  function SplitReturns(pieces: seq<string>): nat {
    if pieces == [] then 0
    else SplitReturns(pieces[..|pieces| - 1]) + if SplitsReturn(pieces, |pieces| - 1) then 1 else 0
  }

  // Reading piece by piece sees the normalized text exactly when no cut splits a line ending.
  lemma {:induction false} ReadsSeeTheText(pieces: seq<string>)
    ensures |AsRead(pieces)| == |Normalize(Concat(pieces))| + SplitReturns(pieces)
    ensures AsRead(pieces) == Normalize(Concat(pieces)) <==> forall i :: 0 <= i < |pieces| ==> !SplitsReturn(pieces, i)
  {
    if pieces != [] {
      var before := pieces[..|pieces| - 1];
      ReadsSeeTheText(before);
      NormalizeConcat(Concat(before), pieces[|pieces| - 1]);
      NoSplits(before);
      forall i | 0 <= i < |before| ensures SplitsReturn(before, i) == SplitsReturn(pieces, i) {
        assert before[..i] == pieces[..i];
      }
      NoSplits(pieces);
    }
  }

  lemma {:induction false} NoSplits(pieces: seq<string>)
    ensures SplitReturns(pieces) == 0 <==> forall i :: 0 <= i < |pieces| ==> !SplitsReturn(pieces, i)
  {
    if pieces != [] {
      var before := pieces[..|pieces| - 1];
      NoSplits(before);
      forall i | 0 <= i < |before| ensures SplitsReturn(before, i) == SplitsReturn(pieces, i) {
        assert before[..i] == pieces[..i];
      }
    }
  }

  lemma {:induction false} CutLeavesNoReturns(text: string)
    requires '\r' !in text
    ensures '\r' !in Cut(text).1
    decreases |text|
  {
    match IndexOfSeparator(text, 0)
    case None =>
    case Some(i) => CutLeavesNoReturns(text[i + 2..]);
  }

  lemma {:induction false} ReadsAre(pieces: seq<string>)
    ensures Reads(pieces) == Cut(AsRead(pieces)) && '\r' !in Reads(pieces).1 && '\r' !in AsRead(pieces)
  {
    if pieces != [] {
      var before, piece := pieces[..|pieces| - 1], pieces[|pieces| - 1];
      ReadsAre(before);
      NormalizeOnTop(Reads(before).1, piece);
      CutContinues(AsRead(before), Normalize(piece));
      NormalizedHasNoReturns(piece);
      CutLeavesNoReturns(AsRead(pieces));
    }
  }

  lemma NormalizeOnTop(rest: string, piece: string)
    requires '\r' !in rest
    ensures Normalize(rest + piece) == rest + Normalize(piece)
  {
    NormalizeConcat(rest, piece);
    NormalizeKeeps(rest);
  }

  // The events of a stream are those of the text as read, flushed.
  lemma StreamIs(pieces: seq<string>)
    ensures Stream(pieces) == EventsOfEach(Cut(AsRead(pieces) + "\n\n").0)
  {
    ReadsAre(pieces);
    NormalizeKeeps(Reads(pieces).1 + "\n\n");
    CutContinues(AsRead(pieces), "\n\n");
  }

  // However a text is cut into reads, its events are those of reading it at once, as long as
  // no cut splits a line ending; text without carriage returns may be cut anywhere.
  lemma CutsDoNotMatter(pieces: seq<string>)
    requires forall i :: 0 <= i < |pieces| ==> !SplitsReturn(pieces, i)
    ensures Stream(pieces) == Stream([Concat(pieces)])
  {
    ReadsSeeTheText(pieces);
    StreamIs(pieces);
    StreamIs([Concat(pieces)]);
    assert AsRead([Concat(pieces)]) == "" + Normalize(Concat(pieces));
    assert "" + Normalize(Concat(pieces)) == Normalize(Concat(pieces));
  }

  lemma {:induction false} PlainTextHasNoSplits(pieces: seq<string>, i: nat)
    requires '\r' !in Concat(pieces) && i < |pieces|
    ensures !SplitsReturn(pieces, i)
  {
    if i < |pieces| - 1 {
      PlainTextHasNoSplits(pieces[..|pieces| - 1], i);
      assert pieces[..|pieces| - 1][..i] == pieces[..i];
    }
  }

  // ----- Line by line ------------------------------------------------------------------

  // An event stream read one line at a time, as the standard describes it: fields gather
  // until a blank line emits them. Independent of buffers and separators.
  function ByLines(text: string, f: Fields): seq<Event>
    decreases |text|
  {
    match FirstNewline(text)
    case None => []
    case Some(i) =>
      if i == 0 then Emit(f) + ByLines(text[1..], NO_FIELDS)
      else ByLines(text[i + 1..], Field(f, text[..i]))
  }

  lemma FirstNewlineIs(s: string, i: nat)
    requires i < |s| && s[i] == '\n' && forall k :: 0 <= k < i ==> s[k] != '\n'
    ensures FirstNewline(s) == Some(i)
  {
  }

  lemma OneLine(line: string, rest: string, f: Fields)
    requires '\n' !in line && line != ""
    ensures ByLines(line + "\n" + rest, f) == ByLines(rest, Field(f, line))
  {
    var text := line + "\n" + rest;
    FirstNewlineIs(text, |line|);
    assert text[..|line|] == line && text[|line| + 1..] == rest;
  }

  lemma BlankLine(rest: string, f: Fields)
    ensures ByLines("\n" + rest, f) == Emit(f) + ByLines(rest, NO_FIELDS)
  {
  }

  lemma SplitFirstLine(s: string, j: nat)
    requires j < |s| && s[j] == '\n' && forall k :: 0 <= k < j ==> s[k] != '\n'
    ensures SplitLines(s) == [s[..j]] + SplitLines(s[j + 1..])
  {
  }

  lemma SplitNoLine(s: string)
    requires '\n' !in s
    ensures SplitLines(s) == [s]
  {
  }

  // The text before the first separator, read line by line, gathers what splitting it does.
  lemma {:induction false} OneRawEvent(text: string, i: nat, f: Fields)
    requires SeparatorAt(text, i) && forall k :: 0 <= k < i ==> !SeparatorAt(text, k)
    requires f == NO_FIELDS || i == 0 || text[0] != '\n'
    ensures ByLines(text, f) == Emit(FieldsOf(f, SplitLines(text[..i]))) + ByLines(text[i + 2..], NO_FIELDS)
    decreases |text|
  {
    var j := FirstNewline(text).value;
    if j == i {
      LastLine(text, i, f);
    } else {
      RestHasSeparator(text, i, j);
      var g := if j == 0 then NO_FIELDS else Field(f, text[..j]);
      OneRawEvent(text[j + 1..], i - j - 1, g);
      LineGathered(text, i, j, f, g);
    }
  }

  lemma RestHasSeparator(text: string, i: nat, j: nat)
    requires j < i && SeparatorAt(text, i) && text[j] == '\n' && forall k :: 0 <= k < i ==> !SeparatorAt(text, k)
    ensures var rest := text[j + 1..];
      && SeparatorAt(rest, i - j - 1) && rest[i - j - 1 + 2..] == text[i + 2..] && rest[..i - j - 1] == text[j + 1..i]
      && (i - j - 1 == 0 || rest[0] != '\n')
      && forall k :: 0 <= k < i - j - 1 ==> !SeparatorAt(rest, k)
  {
    assert !SeparatorAt(text, j);
    var rest := text[j + 1..];
    forall k | 0 <= k < i - j - 1 ensures !SeparatorAt(rest, k) {
      assert !SeparatorAt(text, j + 1 + k);
    }
  }

  lemma LineGathered(text: string, i: nat, j: nat, f: Fields, g: Fields)
    requires j < i <= |text| && FirstNewline(text) == Some(j)
    requires g == if j == 0 then NO_FIELDS else Field(f, text[..j])
    requires f == NO_FIELDS || j > 0
    ensures ByLines(text, f) == ByLines(text[j + 1..], g)
    ensures FieldsOf(f, SplitLines(text[..i])) == FieldsOf(g, SplitLines(text[j + 1..i]))
  {
    LineRead(text, j, f, g);
    SplitFirstLine(text[..i], j);
    assert text[..i][..j] == text[..j] && text[..i][j + 1..] == text[j + 1..i];
    FieldsOfOneMore(f, text[..j], SplitLines(text[j + 1..i]));
  }

  lemma LineRead(text: string, j: nat, f: Fields, g: Fields)
    requires FirstNewline(text) == Some(j)
    requires g == if j == 0 then NO_FIELDS else Field(f, text[..j])
    requires f == NO_FIELDS || j > 0
    ensures ByLines(text, f) == ByLines(text[j + 1..], g)
  {
  }

  lemma FieldsOfOneMore(f: Fields, line: string, lines: seq<string>)
    ensures FieldsOf(f, [line] + lines) == FieldsOf(Field(f, line), lines)
  {
  }

  lemma LastLine(text: string, i: nat, f: Fields)
    requires SeparatorAt(text, i) && forall k :: 0 <= k < i ==> text[k] != '\n'
    ensures ByLines(text, f) == Emit(FieldsOf(f, SplitLines(text[..i]))) + ByLines(text[i + 2..], NO_FIELDS)
  {
    var line := text[..i];
    SplitNoLine(line);
    assert FieldsOf(f, [line]) == Field(f, line);
    assert text == line + "\n" + ("\n" + text[i + 2..]);
    BlankLine(text[i + 2..], Field(f, line));
    if i == 0 {
      assert text == "\n" + ("\n" + text[2..]);
      BlankLine("\n" + text[2..], f);
      BlankLine(text[2..], NO_FIELDS);
      assert [] + ByLines(text[2..], NO_FIELDS) == ByLines(text[2..], NO_FIELDS);
    } else {
      OneLine(line, "\n" + text[i + 2..], f);
    }
  }

  // Text with no blank line but perhaps a first one emits nothing.
  lemma {:induction false} NoSeparatorNoEvent(text: string, f: Fields)
    requires forall k :: 0 <= k < |text| ==> !SeparatorAt(text, k)
    requires f == NO_FIELDS || text == "" || text[0] != '\n'
    ensures ByLines(text, f) == []
    decreases |text|
  {
    match FirstNewline(text)
    case None =>
    case Some(j) =>
      var rest := text[j + 1..];
      assert !SeparatorAt(text, j);
      forall k | 0 <= k < |rest| ensures !SeparatorAt(rest, k) {
        assert !SeparatorAt(text, j + 1 + k);
      }
      NoSeparatorNoEvent(rest, if j == 0 then NO_FIELDS else Field(f, text[..j]));
  }

  predicate AllSpace(s: string) {
    forall i :: 0 <= i < |s| ==> IsSpace(s[i])
  }

  lemma {:induction false} TrimmedAway(s: string)
    requires Trim(s) == ""
    ensures AllSpace(s)
  {
    EndTrimmedAway(TrimStart(s));
    StartTrimmed(s);
  }

  lemma {:induction false} EndTrimmedAway(s: string)
    requires TrimEnd(s) == ""
    ensures AllSpace(s)
  {
    if s != "" { EndTrimmedAway(s[..|s| - 1]); }
  }

  lemma {:induction false} StartTrimmed(s: string)
    requires AllSpace(TrimStart(s))
    ensures AllSpace(s)
  {
    if s != "" && IsSpace(s[0]) {
      StartTrimmed(s[1..]);
      forall i | 0 <= i < |s| ensures IsSpace(s[i]) {
        if i > 0 { assert s[i] == s[1..][i - 1]; }
      }
    }
  }

  lemma {:induction false} SpaceHasNoData(s: string, f: Fields)
    requires AllSpace(s) && f.data == []
    ensures FieldsOf(f, SplitLines(s)).data == []
    decreases |s|
  {
    match FirstNewline(s)
    case None =>
      assert FieldsOf(f, [s]) == Field(f, s);
      SpaceIsNoField(s, f);
    case Some(i) =>
      SpaceIsNoField(s[..i], f);
      SpaceHasNoData(s[i + 1..], f);
      assert SplitLines(s)[1..] == SplitLines(s[i + 1..]);
  }

  lemma SpaceIsNoField(line: string, f: Fields)
    requires AllSpace(line)
    ensures Field(f, line) == f
  {
  }

  lemma EventsOfIs(rawEvent: string)
    ensures EventsOf(rawEvent) == Emit(FieldsOf(NO_FIELDS, SplitLines(rawEvent)))
  {
    if Trim(rawEvent) == "" {
      TrimmedAway(rawEvent);
      SpaceHasNoData(rawEvent, NO_FIELDS);
    }
  }

  // Cutting buffers at blank lines finds exactly the events a line-by-line reader finds.
  lemma {:induction false} CutIsByLines(text: string)
    ensures EventsOfEach(Cut(text).0) == ByLines(text, NO_FIELDS)
    decreases |text|
  {
    match IndexOfSeparator(text, 0)
    case None => NoSeparatorNoEvent(text, NO_FIELDS);
    case Some(i) =>
      CutIsByLines(text[i + 2..]);
      FlatMapAppend([text[..i]], Cut(text[i + 2..]).0, EventsOf);
      FlatMapOne(text[..i], EventsOf);
      FirstRawEvent(text, i);
  }

  lemma FirstRawEvent(text: string, i: nat)
    requires SeparatorAt(text, i) && forall k :: 0 <= k < i ==> !SeparatorAt(text, k)
    ensures ByLines(text, NO_FIELDS) == EventsOf(text[..i]) + ByLines(text[i + 2..], NO_FIELDS)
  {
    OneRawEvent(text, i, NO_FIELDS);
    EventsOfIs(text[..i]);
  }

  // The whole stream, however it was read, is the line-by-line reading of its text: with no
  // line ending split by a cut, of the normalized text itself.
  lemma StreamIsByLines(pieces: seq<string>)
    ensures Stream(pieces) == ByLines(AsRead(pieces) + "\n\n", NO_FIELDS)
    ensures (forall i :: 0 <= i < |pieces| ==> !SplitsReturn(pieces, i)) ==>
      Stream(pieces) == ByLines(Normalize(Concat(pieces)) + "\n\n", NO_FIELDS)
  {
    StreamIs(pieces);
    ReadsSeeTheText(pieces);
    CutIsByLines(AsRead(pieces) + "\n\n");
  }

  predicate Plain(s: string) {
    '\r' !in s && '\n' !in s
  }

  // A cut inside a line ending is not harmless: between two data lines, which read at once
  // are one event, it makes two.
  lemma SplitReturnSplitsTheEvent(a: string, b: string)
    requires Plain(a) && Plain(b)
    ensures Stream(["data:" + a + "\r", "\n" + ("data:" + b)])
      == [Event("message", TrimStart(a)), Event("message", TrimStart(b))]
    ensures Stream(["data:" + a + "\r\n" + ("data:" + b)])
      == [Event("message", TrimStart(a) + "\n" + TrimStart(b))]
  {
    var first, second := "data:" + a, "data:" + b;
    SplitLinesRead(first, second);
    WholeLinesRead(first, second);
    SplitReading(first, second);
    WholeReading(first, second);
    TwoDataLines(a, b);
  }

  lemma TwoDataLines(a: string, b: string)
    ensures Emit(Field(NO_FIELDS, "data:" + a)) + Emit(Field(NO_FIELDS, "data:" + b))
      == [Event("message", TrimStart(a)), Event("message", TrimStart(b))]
    ensures Emit(Field(Field(NO_FIELDS, "data:" + a), "data:" + b))
      == [Event("message", TrimStart(a) + "\n" + TrimStart(b))]
  {
    DataLine(a, NO_FIELDS);
    DataLine(b, NO_FIELDS);
    DataLine(b, Fields("message", [TrimStart(a)]));
    DataEmits(TrimStart(a), TrimStart(b));
  }

  lemma DataEmits(a: string, b: string)
    ensures Emit(Fields("message", [] + [a])) + Emit(Fields("message", [] + [b]))
      == [Event("message", a), Event("message", b)]
    ensures Emit(Fields("message", [a] + [b])) == [Event("message", a + "\n" + b)]
    ensures [] + [a] == [a]
  {
    assert [] + [a] == [a] && [] + [b] == [b];
    assert ([a] + [b])[..1] == [a];
  }

  lemma DataLine(a: string, f: Fields)
    ensures Field(f, "data:" + a) == f.(data := f.data + [TrimStart(a)])
  {
    var line := "data:" + a;
    assert line[5..] == a && line[0] == 'd' && "data:" <= line;
    assert !(":" <= line) && !("event:" <= line) by { assert ":"[0] == ':' && "event:"[0] == 'e'; }
  }

  lemma SplitLinesRead(first: string, second: string)
    requires Plain(first) && Plain(second)
    ensures AsRead([first + "\r", "\n" + second]) == first + "\n" + "\n" + second
  {
    NormalizeKeeps(first);
    NormalizeKeeps("\n" + second);
    NormalizeConcat(first, "\r");
    ReturnReads();
    var split := [first + "\r", "\n" + second];
    assert split[..1] == [first + "\r"];
    ReadsOne(first + "\r");
  }

  lemma WholeLinesRead(first: string, second: string)
    requires Plain(first) && Plain(second)
    ensures AsRead([first + "\r\n" + second]) == first + "\n" + second
  {
    var ending := "\r\n" + second;
    NormalizeKeeps(first);
    LineEndingReads(second);
    NormalizeConcat(first, ending);
    assert first + ending == first + "\r\n" + second;
    assert first + ("\n" + second) == first + "\n" + second;
    ReadsOne(first + "\r\n" + second);
  }

  lemma LineEndingReads(second: string)
    requires Plain(second)
    ensures Normalize("\r\n" + second) == "\n" + second
  {
    NormalizeKeeps(second);
    assert ("\r\n" + second)[2..] == second;
  }

  lemma ReturnReads()
    ensures Normalize("\r") == "\n"
  {
  }

  lemma ReadsOne(piece: string)
    ensures AsRead([piece]) == Normalize(piece)
  {
  }

  lemma SplitReading(first: string, second: string)
    requires first != "" && second != "" && Plain(first) && Plain(second)
    requires AsRead([first + "\r", "\n" + second]) == first + "\n" + "\n" + second
    ensures Stream([first + "\r", "\n" + second]) == Emit(Field(NO_FIELDS, first)) + Emit(Field(NO_FIELDS, second))
  {
    StreamIsByLines([first + "\r", "\n" + second]);
    TwoEvents(first, second);
  }

  lemma TwoEvents(first: string, second: string)
    requires first != "" && second != "" && Plain(first) && Plain(second)
    ensures ByLines(first + "\n" + "\n" + second + "\n\n", NO_FIELDS)
      == Emit(Field(NO_FIELDS, first)) + Emit(Field(NO_FIELDS, second))
  {
    var tail := second + "\n" + "\n";
    assert first + "\n" + "\n" + second + "\n\n" == first + "\n" + ("\n" + tail);
    OneLine(first, "\n" + tail, NO_FIELDS);
    BlankLine(tail, Field(NO_FIELDS, first));
    FlushedLine(second, NO_FIELDS);
  }

  lemma FlushedLine(line: string, f: Fields)
    requires '\n' !in line && line != ""
    ensures ByLines(line + "\n" + "\n", f) == Emit(Field(f, line))
  {
    OneLine(line, "\n", f);
    BlankLine("", Field(f, line));
    assert "\n" + "" == "\n";
    assert Emit(Field(f, line)) + [] == Emit(Field(f, line));
  }

  lemma WholeReading(first: string, second: string)
    requires first != "" && second != "" && Plain(first) && Plain(second)
    requires AsRead([first + "\r\n" + second]) == first + "\n" + second
    ensures Stream([first + "\r\n" + second]) == Emit(Field(Field(NO_FIELDS, first), second))
  {
    StreamIsByLines([first + "\r\n" + second]);
    var tail := second + "\n" + "\n";
    assert first + "\n" + second + "\n\n" == first + "\n" + tail;
    OneLine(first, tail, NO_FIELDS);
    FlushedLine(second, Field(NO_FIELDS, first));
  }

  // ----- The stream object -------------------------------------------------------------

  class SessionStream {
    var buffer: string
    // What onSession and onEvent have been called with, in order.
    var dispatched: seq<Event>
    ghost var received: seq<string>

    ghost predicate Valid()
      reads this
    {
      dispatched == EventsOfEach(Reads(received).0) && buffer == Reads(received).1
    }

    constructor ()
      ensures Valid() && received == []
    {
      buffer, dispatched, received := "", [], [];
    }

    method Read(value: string)
      requires Valid()
      modifies this
      ensures Valid() && received == old(received) + [value]
    {
      FlatMapAppend(Reads(received).0, Cut(Normalize(buffer + value)).0, EventsOf);
      received := received + [value];
      assert received[..|received| - 1] == old(received);
      buffer := DispatchBufferedEvents(buffer + value);
    }

    method End()
      requires Valid()
      modifies this
      ensures received == old(received) && dispatched == Stream(received)
      ensures (forall i :: 0 <= i < |received| ==> !SplitsReturn(received, i)) ==>
        dispatched == ByLines(Normalize(Concat(received)) + "\n\n", NO_FIELDS)
    {
      StreamIsByLines(received);
      FlatMapAppend(Reads(received).0, Cut(Normalize(buffer + "\n\n")).0, EventsOf);
      buffer := DispatchBufferedEvents(buffer + "\n\n");
    }

    method DispatchBufferedEvents(text: string) returns (rest: string)
      modifies this`dispatched
      ensures dispatched == old(dispatched) + EventsOfEach(Cut(Normalize(text)).0) && rest == Cut(Normalize(text)).1
    {
      var normalized := Normalize(text);
      var cursor := 0;
      ghost var raws: seq<string> := [];
      ghost var whole := Cut(normalized);
      assert normalized[0..] == normalized && [] + whole.0 == whole.0;
      while true
        invariant CutSoFar(whole, raws, normalized, cursor)
        invariant dispatched == old(dispatched) + EventsOfEach(raws)
        decreases |normalized| - cursor
      {
        var separator := IndexOfSeparator(normalized, cursor);
        CutNext(whole, raws, normalized, cursor);
        if separator.None? {
          return normalized[cursor..];
        }
        DispatchNext(normalized[cursor..separator.value], raws, old(dispatched));
        raws := raws + [normalized[cursor..separator.value]];
        cursor := separator.value + 2;
      }
    }

    method DispatchNext(rawEvent: string, ghost raws: seq<string>, ghost before: seq<Event>)
      requires dispatched == before + EventsOfEach(raws)
      modifies this`dispatched
      ensures dispatched == before + EventsOfEach(raws + [rawEvent])
    {
      OneMoreEvent(raws, rawEvent);
      DispatchEvent(rawEvent);
    }

    // The text up to the cursor has been cut into these raw events.
    static ghost predicate CutSoFar(whole: (seq<string>, string), raws: seq<string>, text: string, cursor: nat) {
      cursor <= |text| && whole == Prepend(raws, Cut(text[cursor..]))
    }

    static lemma PrependOne(
      whole: (seq<string>, string), raws: seq<string>, rawEvent: string,
      here: (seq<string>, string), rest: (seq<string>, string))
      requires whole == Prepend(raws, here) && here == ([rawEvent] + rest.0, rest.1)
      ensures whole == Prepend(raws + [rawEvent], rest)
    {
      assert raws + ([rawEvent] + rest.0) == raws + [rawEvent] + rest.0;
    }

    static lemma PrependNone(whole: (seq<string>, string), raws: seq<string>, rest: string)
      requires whole == Prepend(raws, ([], rest))
      ensures whole == (raws, rest)
    {
      assert raws + [] == raws;
    }

    static lemma CutNext(whole: (seq<string>, string), raws: seq<string>, text: string, cursor: nat)
      requires CutSoFar(whole, raws, text, cursor)
      ensures match IndexOfSeparator(text, cursor)
        case None => whole == (raws, text[cursor..])
        case Some(i) => CutSoFar(whole, raws + [text[cursor..i]], text, i + 2)
    {
      CutFromCursor(text, text[cursor..], cursor);
      match IndexOfSeparator(text, cursor)
      case None => PrependNone(whole, raws, text[cursor..]);
      case Some(i) => PrependOne(whole, raws, text[cursor..i], Cut(text[cursor..]), Cut(text[i + 2..]));
    }

    static lemma OneMoreEvent(raws: seq<string>, rawEvent: string)
      ensures EventsOfEach(raws + [rawEvent]) == EventsOfEach(raws) + EventsOf(rawEvent)
    {
    }

    static lemma CutFromCursor(s: string, rest: string, cursor: nat)
      requires cursor <= |s| && rest == s[cursor..]
      ensures Cut(rest) == match IndexOfSeparator(s, cursor)
        case None => ([], rest)
        case Some(i) => ([s[cursor..i]] + Cut(s[i + 2..]).0, Cut(s[i + 2..]).1)
    {
      IndexFromCursor(s, rest, cursor);
      if IndexOfSeparator(s, cursor).Some? {
        var i := IndexOfSeparator(s, cursor).value;
        CutAt(rest, i - cursor, s[cursor..i], s[i + 2..]);
      }
    }

    static lemma CutAt(text: string, i: nat, rawEvent: string, rest: string)
      requires IndexOfSeparator(text, 0) == Some(i) && rawEvent == text[..i] && rest == text[i + 2..]
      ensures Cut(text) == ([rawEvent] + Cut(rest).0, Cut(rest).1)
    {
    }

    static lemma IndexFromCursor(s: string, rest: string, cursor: nat)
      requires cursor <= |s| && rest == s[cursor..]
      ensures match IndexOfSeparator(s, cursor)
        case None => IndexOfSeparator(rest, 0).None?
        case Some(i) => i >= cursor && IndexOfSeparator(rest, 0) == Some(i - cursor)
    {
      match IndexOfSeparator(s, cursor)
      case None =>
        forall k | 0 <= k < |rest| ensures !SeparatorAt(rest, k) {
          assert !SeparatorAt(s, cursor + k);
        }
      case Some(i) =>
        assert SeparatorAt(rest, i - cursor);
        forall k | 0 <= k < i - cursor ensures !SeparatorAt(rest, k) {
          assert !SeparatorAt(s, cursor + k);
        }
    }

    method DispatchEvent(rawEvent: string)
      modifies this`dispatched
      ensures dispatched == old(dispatched) + EventsOf(rawEvent)
    {
      if Trim(rawEvent) == "" { return; }
      var eventType := "message";
      var dataLines: seq<string> := [];
      var lines := SplitLines(rawEvent);
      assert lines[0..] == lines;
      for i := 0 to |lines|
        invariant FieldsOf(Fields(eventType, dataLines), lines[i..]) == FieldsOf(NO_FIELDS, lines)
      {
        var line := lines[i];
        assert lines[i..][0] == line && lines[i..][1..] == lines[i + 1..];
        if line == "" || StartsWith(line, ":") { continue; }
        if StartsWith(line, "event:") {
          eventType := Trim(line[6..]);
          if eventType == "" { eventType := "message"; }
          continue;
        }
        if StartsWith(line, "data:") {
          dataLines := dataLines + [TrimStart(line[5..])];
        }
      }
      if dataLines == [] { return; }
      dispatched := dispatched + [Event(eventType, Join(dataLines))];
    }
  }
}
