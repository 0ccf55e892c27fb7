// What cuts between carriage returns and their line feeds do to the events: exactly when they do
// nothing.

module EventStreamSplits {
  import opened Options
  import opened Filters
  import opened EventStream

  // ----- Reading on from the middle ----------------------------------------------------

  // The fields gathered since the last blank line, after the text's complete lines.
  function Gathered(text: string, f: Fields): Fields
    decreases |text|
  {
    match FirstNewline(text)
    case None => f
    case Some(i) => Gathered(text[i + 1..], if i == 0 then NO_FIELDS else Field(f, text[..i]))
  }

  // ...and those gathered up to the next blank line, and what follows it.
  function UpToBlank(text: string, f: Fields): Fields
    decreases |text|
  {
    match FirstNewline(text)
    case None => f
    case Some(i) => if i == 0 then f else UpToBlank(text[i + 1..], Field(f, text[..i]))
  }

  function AfterBlank(text: string): string
    decreases |text|
  {
    match FirstNewline(text)
    case None => ""
    case Some(i) => if i == 0 then text[1..] else AfterBlank(text[i + 1..])
  }

  lemma FirstNewlineOf(text: string, more: string)
    requires FirstNewline(text).Some?
    ensures FirstNewline(text + more) == FirstNewline(text)
  {
    var i := FirstNewline(text).value;
    forall k | 0 <= k < i ensures (text + more)[k] != '\n' {
      assert text[k] != '\n';
    }
    FirstNewlineIs(text + more, i);
  }

  // The first line is a blank one that emits, or a field.
  lemma FirstLineRead(text: string, f: Fields, i: nat)
    requires FirstNewline(text) == Some(i)
    ensures var g := if i == 0 then NO_FIELDS else Field(f, text[..i]);
      && ByLines(text, f) == (if i == 0 then Emit(f) else []) + ByLines(text[i + 1..], g)
      && Gathered(text, f) == Gathered(text[i + 1..], g)
  {
  }

  lemma Associates<T>(a: seq<T>, b: seq<T>, c: seq<T>)
    ensures a + b + c == a + (b + c)
  {
  }

  lemma {:induction false} ByLinesAppend(text: string, more: string, f: Fields)
    requires text == "" || text[|text| - 1] == '\n'
    ensures ByLines(text + more, f) == ByLines(text, f) + ByLines(more, Gathered(text, f))
    decreases |text|
  {
    if text == "" {
      assert text + more == more;
    } else {
      var i := FirstNewline(text).value;
      var rest, g := text[i + 1..], if i == 0 then NO_FIELDS else Field(f, text[..i]);
      FirstNewlineOf(text, more);
      assert (text + more)[i + 1..] == rest + more && (text + more)[..i] == text[..i];
      FirstLineRead(text, f, i);
      FirstLineRead(text + more, f, i);
      ByLinesAppend(rest, more, g);
      Associates(if i == 0 then Emit(f) else [], ByLines(rest, g), ByLines(more, Gathered(rest, g)));
    }
  }

  // Text that ends in a blank line emits what is gathered up to its first one, then the rest.
  lemma {:induction false} BlankLineComes(text: string, f: Fields)
    ensures ByLines(text + "\n\n", f)
      == Emit(UpToBlank(text + "\n\n", f)) + ByLines(AfterBlank(text + "\n\n"), NO_FIELDS)
    decreases |text|
  {
    match FirstNewline(text)
    case None => LastBlock(text, f);
    case Some(i) =>
      FirstNewlineOf(text, "\n\n");
      assert (text + "\n\n")[i + 1..] == text[i + 1..] + "\n\n" && (text + "\n\n")[..i] == text[..i];
      if i > 0 { BlankLineComes(text[i + 1..], Field(f, text[..i])); }
  }

  lemma LastBlock(text: string, f: Fields)
    requires '\n' !in text
    ensures ByLines(text + "\n\n", f)
      == Emit(UpToBlank(text + "\n\n", f)) + ByLines(AfterBlank(text + "\n\n"), NO_FIELDS)
  {
    var whole := text + "\n\n";
    FirstNewlineIs(whole, |text|);
    assert whole[|text| + 1..] == "\n" && whole[..|text|] == text;
    if text != "" {
      BlankOnly(Field(f, text));
      assert Emit(Field(f, text)) + [] == Emit(Field(f, text));
    }
  }

  lemma BlankOnly(f: Fields)
    ensures ByLines("\n", f) == Emit(f) && UpToBlank("\n", f) == f && AfterBlank("\n") == ""
  {
    assert "\n"[1..] == "" && ByLines("", NO_FIELDS) == [];
    assert Emit(f) + [] == Emit(f);
  }

  // Text of complete lines, with a blank one among them or without.
  predicate HasBlank(text: string)
    decreases |text|
  {
    match FirstNewline(text)
    case None => false
    case Some(i) => i == 0 || HasBlank(text[i + 1..])
  }

  lemma {:induction false} BlocksOf(text: string, f: Fields)
    ensures HasBlank(text) ==>
      && ByLines(text, f) == Emit(UpToBlank(text, f)) + ByLines(AfterBlank(text), NO_FIELDS)
      && Gathered(text, f) == Gathered(AfterBlank(text), NO_FIELDS)
    ensures !HasBlank(text) ==> ByLines(text, f) == [] && Gathered(text, f) == UpToBlank(text, f)
    decreases |text|
  {
    match FirstNewline(text)
    case None =>
    case Some(i) => if i > 0 { BlocksOf(text[i + 1..], Field(f, text[..i])); }
  }

  // ----- Many events or one ------------------------------------------------------------

  // Starting from f, the block adds its data to f's.
  lemma {:induction false} BlockAddsData(text: string, f: Fields, g: Fields)
    requires g.data == []
    ensures UpToBlank(text, f).data == f.data + UpToBlank(text, g).data
    decreases |text|
  {
    match FirstNewline(text)
    case None =>
    case Some(i) =>
      if i > 0 {
        var line, rest := text[..i], text[i + 1..];
        BlockAddsData(rest, Field(f, line), NO_FIELDS);
        BlockAddsData(rest, Field(g, line), NO_FIELDS);
        FieldAddsData(line, f, g);
        assert f.data + (Field(g, line).data + UpToBlank(rest, NO_FIELDS).data)
          == f.data + Field(g, line).data + UpToBlank(rest, NO_FIELDS).data;
      }
  }

  lemma FieldAddsData(line: string, f: Fields, g: Fields)
    requires g.data == []
    ensures Field(f, line).data == f.data + Field(g, line).data
  {
  }

  function AllData(parts: seq<Fields>): seq<string> {
    if parts == [] then [] else AllData(parts[..|parts| - 1]) + parts[|parts| - 1].data
  }

  // Emitting parts of a block one by one is emitting the block: at most one of them has data,
  // and the block keeps that part's type.
  predicate EmitsAlike(parts: seq<Fields>, block: Fields) {
    && (forall i, j :: 0 <= i < j < |parts| ==> parts[i].data == [] || parts[j].data == [])
    && (forall i :: 0 <= i < |parts| && parts[i].data != [] ==> parts[i].kind == block.kind)
  }

  lemma {:induction false} NoDataNoEvents(parts: seq<Fields>)
    ensures FlatMap(parts, Emit) == [] <==> AllData(parts) == []
    ensures AllData(parts) == [] <==> forall i :: 0 <= i < |parts| ==> parts[i].data == []
  {
    if parts != [] { NoDataNoEvents(parts[..|parts| - 1]); }
  }

  lemma {:induction false} SilentPart(parts: seq<Fields>, block: Fields)
    requires parts != [] && parts[|parts| - 1].data == []
    ensures var front := parts[..|parts| - 1];
      && AllData(parts) == AllData(front) && FlatMap(parts, Emit) == FlatMap(front, Emit)
      && (EmitsAlike(parts, block) <==> EmitsAlike(front, block))
  {
    var front, last := parts[..|parts| - 1], parts[|parts| - 1];
    assert FlatMap(parts, Emit) == FlatMap(front, Emit) + Emit(last);
    assert parts == front + [last];
  }

  lemma {:induction false} OnlyPart(parts: seq<Fields>, block: Fields)
    requires parts != [] && parts[|parts| - 1].data != [] && AllData(parts[..|parts| - 1]) == []
    requires block.data == AllData(parts)
    ensures FlatMap(parts, Emit) == [Event(parts[|parts| - 1].kind, Join(block.data))]
    ensures EmitsAlike(parts, block) <==> parts[|parts| - 1].kind == block.kind
  {
    var front, last := parts[..|parts| - 1], parts[|parts| - 1];
    NoDataNoEvents(front);
    assert [] + last.data == last.data;
    assert FlatMap(parts, Emit) == [] + Emit(last);
  }

  lemma {:induction false} TwoParts(parts: seq<Fields>, block: Fields)
    requires parts != [] && parts[|parts| - 1].data != [] && AllData(parts[..|parts| - 1]) != []
    ensures |FlatMap(parts, Emit)| >= 2 && !EmitsAlike(parts, block)
  {
    var front, last := parts[..|parts| - 1], parts[|parts| - 1];
    NoDataNoEvents(front);
    assert FlatMap(parts, Emit) == FlatMap(front, Emit) + Emit(last);
    var i :| 0 <= i < |front| && front[i].data != [];
    assert parts[i].data != [];
  }

  lemma {:induction false} EmitsAlikeExactlyWhen(parts: seq<Fields>, block: Fields)
    requires block.data == AllData(parts)
    ensures FlatMap(parts, Emit) == Emit(block) <==> EmitsAlike(parts, block)
    ensures |FlatMap(parts, Emit)| >= |Emit(block)|
  {
    if parts == [] {
    } else if parts[|parts| - 1].data == [] {
      SilentPart(parts, block);
      EmitsAlikeExactlyWhen(parts[..|parts| - 1], block);
    } else if AllData(parts[..|parts| - 1]) == [] {
      OnlyPart(parts, block);
      assert block.data != [] && Emit(block) == [Event(block.kind, Join(block.data))];
    } else {
      TwoParts(parts, block);
    }
  }

  // ----- Texts with extra blank lines --------------------------------------------------

  // The parts as one text, and with a line feed more between each two.
  function Flat(parts: seq<string>): string {
    if parts == [] then "" else parts[0] + Flat(parts[1..])
  }

  function Spaced(parts: seq<string>): string {
    if parts == [] then ""
    else if |parts| == 1 then parts[0]
    else parts[0] + ("\n" + Spaced(parts[1..]))
  }

  predicate Complete(text: string) {
    text != "" && text[|text| - 1] == '\n'
  }

  // Every part but the last is of complete lines.
  predicate InLines(parts: seq<string>) {
    parts != [] && forall i :: 0 <= i < |parts| - 1 ==> Complete(parts[i])
  }

  // Read block by block. `before` are the fields of the parts the current block has already
  // taken, each on its own, and f those fields taken together; a block ends at a blank line of
  // the text itself, or with it.
  predicate Harmless(before: seq<Fields>, f: Fields, parts: seq<string>)
    requires parts != []
    decreases |parts|
  {
    var text := if |parts| == 1 then parts[0] + "\n\n" else parts[0];
    var alone, block := UpToBlank(text, NO_FIELDS), UpToBlank(text, f);
    if |parts| == 1 then EmitsAlike(before + [alone], block)
    else if HasBlank(text) then
      var next := Gathered(AfterBlank(text), NO_FIELDS);
      EmitsAlike(before + [alone], block) && Harmless([next], next, parts[1..])
    else Harmless(before + [alone], block, parts[1..])
  }

  // A complete part, a line feed more, and the rest.
  lemma SpacedRead(x: string, rest: string, f: Fields)
    requires Complete(x)
    ensures ByLines(x + ("\n" + rest), f) == ByLines(x, f) + (Emit(Gathered(x, f)) + ByLines(rest, NO_FIELDS))
    ensures ByLines(x + rest, f) == ByLines(x, f) + ByLines(rest, Gathered(x, f))
  {
    ByLinesAppend(x, "\n" + rest, f);
    ByLinesAppend(x, rest, f);
    BlankLine(rest, Gathered(x, f));
  }

  lemma FlushedParts(parts: seq<string>)
    requires |parts| > 1
    ensures Spaced(parts) + "\n\n" == parts[0] + ("\n" + (Spaced(parts[1..]) + "\n\n"))
    ensures Flat(parts) + "\n\n" == parts[0] + (Flat(parts[1..]) + "\n\n")
  {
    Associates(parts[0], "\n" + Spaced(parts[1..]), "\n\n");
    Associates("\n", Spaced(parts[1..]), "\n\n");
    Associates(parts[0], Flat(parts[1..]), "\n\n");
  }

  // What the parts emit apart, after those of the block before them, and together.
  function Apart(before: seq<Fields>, parts: seq<string>): seq<Event> {
    FlatMap(before, Emit) + ByLines(Spaced(parts) + "\n\n", NO_FIELDS)
  }

  function Together(f: Fields, parts: seq<string>): seq<Event> {
    ByLines(Flat(parts) + "\n\n", f)
  }

  lemma OneMorePart(before: seq<Fields>, alone: Fields, rest: seq<Event>)
    ensures FlatMap(before + [alone], Emit) == FlatMap(before, Emit) + Emit(alone)
    ensures AllData(before + [alone]) == AllData(before) + alone.data
    ensures FlatMap(before, Emit) + (Emit(alone) + rest) == FlatMap(before + [alone], Emit) + rest
  {
    assert (before + [alone])[..|before|] == before;
  }

  // Two lists of events are equal piece by piece when neither piece can be shorter.
  lemma EqualPieces<T>(a: seq<T>, b: seq<T>, mid: seq<T>, c: seq<T>, d: seq<T>)
    requires |a| >= |b| && |c| >= |d|
    ensures a + (mid + c) == b + (mid + d) <==> a == b && c == d
    ensures |a + (mid + c)| >= |b + (mid + d)|
  {
    if a + (mid + c) == b + (mid + d) {
      assert |a| == |b| && |c| == |d|;
      assert a == (a + (mid + c))[..|a|] && b == (b + (mid + d))[..|b|];
      assert c == (a + (mid + c))[|a| + |mid|..] && d == (b + (mid + d))[|b| + |mid|..];
    }
  }

  lemma {:induction false} HarmlessExactlyWhen(before: seq<Fields>, f: Fields, parts: seq<string>)
    requires InLines(parts) && f.data == AllData(before)
    ensures Apart(before, parts) == Together(f, parts) <==> Harmless(before, f, parts)
    ensures |Apart(before, parts)| >= |Together(f, parts)|
    decreases |parts|, 1
  {
    if |parts| == 1 {
      LastPart(before, f, parts);
    } else if HasBlank(parts[0]) {
      BlankPart(before, f, parts);
    } else {
      OpenPart(before, f, parts);
    }
  }

  lemma LastPart(before: seq<Fields>, f: Fields, parts: seq<string>)
    requires |parts| == 1 && f.data == AllData(before)
    ensures Apart(before, parts) == Together(f, parts) <==> Harmless(before, f, parts)
    ensures |Apart(before, parts)| >= |Together(f, parts)|
  {
    var text := parts[0] + "\n\n";
    var alone, block, rest := UpToBlank(text, NO_FIELDS), UpToBlank(text, f), ByLines(AfterBlank(text), NO_FIELDS);
    assert Flat(parts) == parts[0];
    BlankLineComes(parts[0], NO_FIELDS);
    BlankLineComes(parts[0], f);
    BlockAddsData(text, f, NO_FIELDS);
    OneMorePart(before, alone, rest);
    EmitsAlikeExactlyWhen(before + [alone], block);
    EqualPieces(FlatMap(before + [alone], Emit), Emit(block), rest, [], []);
    assert rest + [] == rest;
  }

  lemma BlankPart(before: seq<Fields>, f: Fields, parts: seq<string>)
    requires |parts| > 1 && InLines(parts) && HasBlank(parts[0]) && f.data == AllData(before)
    ensures Apart(before, parts) == Together(f, parts) <==> Harmless(before, f, parts)
    ensures |Apart(before, parts)| >= |Together(f, parts)|
    decreases |parts|, 0
  {
    var text, rest := parts[0], parts[1..];
    var alone, block, next := UpToBlank(text, NO_FIELDS), UpToBlank(text, f), Gathered(AfterBlank(text), NO_FIELDS);
    var mid := ByLines(AfterBlank(text), NO_FIELDS);
    BlocksOf(text, NO_FIELDS);
    BlocksOf(text, f);
    FlushedParts(parts);
    SpacedRead(text, Spaced(rest) + "\n\n", NO_FIELDS);
    SpacedRead(text, Flat(rest) + "\n\n", f);
    BlockAddsData(text, f, NO_FIELDS);
    OneMorePart(before, alone, []);
    EmitsAlikeExactlyWhen(before + [alone], block);
    OneBlock(next);
    HarmlessExactlyWhen([next], next, rest);
    var after := Apart([next], rest);
    Associates(Emit(alone), mid, after);
    OneMorePart(before, alone, mid + after);
    Associates(Emit(block), mid, Together(next, rest));
    EqualPieces(FlatMap(before + [alone], Emit), Emit(block), mid, after, Together(next, rest));
  }

  lemma OneBlock(f: Fields)
    ensures FlatMap([f], Emit) == Emit(f) && AllData([f]) == f.data
  {
    FlatMapOne(f, Emit);
    assert [f][..0] == [] && [] + f.data == f.data;
  }

  lemma OpenPart(before: seq<Fields>, f: Fields, parts: seq<string>)
    requires |parts| > 1 && InLines(parts) && !HasBlank(parts[0]) && f.data == AllData(before)
    ensures Apart(before, parts) == Together(f, parts) <==> Harmless(before, f, parts)
    ensures |Apart(before, parts)| >= |Together(f, parts)|
    decreases |parts|, 0
  {
    var text, rest := parts[0], parts[1..];
    var alone, block := UpToBlank(text, NO_FIELDS), UpToBlank(text, f);
    BlocksOf(text, NO_FIELDS);
    BlocksOf(text, f);
    FlushedParts(parts);
    SpacedRead(text, Spaced(rest) + "\n\n", NO_FIELDS);
    SpacedRead(text, Flat(rest) + "\n\n", f);
    BlockAddsData(text, f, NO_FIELDS);
    var apart, together := ByLines(Spaced(rest) + "\n\n", NO_FIELDS), Together(block, rest);
    OneMorePart(before, alone, apart);
    assert [] + (Emit(alone) + apart) == Emit(alone) + apart && [] + together == together;
    assert Apart(before, parts) == Apart(before + [alone], rest);
    assert Together(f, parts) == together;
    HarmlessExactlyWhen(before + [alone], block, rest);
  }

  // ----- Split line endings ------------------------------------------------------------

  lemma ReturnAtTheEnd(front: string)
    ensures Normalize(front + "\r") == Normalize(front) + "\n"
  {
    NormalizeConcat(front, "\r");
    ReturnReads();
  }

  lemma PairInside(front: string, b: string)
    requires b != "" && b[0] == '\n'
    ensures Normalize(b) == "\n" + Normalize(b[1..])
    ensures Normalize(front + ("\r" + b)) == Normalize(front) + ("\n" + Normalize(b[1..]))
  {
    NormalizeCut("\r", b);
    NormalizeConcat(front, "\r" + b);
  }

  // A split line ending reads as two where the whole text has one.
  lemma SplitReadsTwice(a: string, b: string)
    requires CutsReturn(a, b)
    ensures Normalize(a) != "" && Normalize(a)[|Normalize(a)| - 1] == '\n'
    ensures Normalize(b) == "\n" + Normalize(b[1..])
    ensures Normalize(a + b) == Normalize(a) + Normalize(b[1..])
  {
    var front := a[..|a| - 1];
    assert a == front + "\r" && a + b == front + ("\r" + b);
    ReturnAtTheEnd(front);
    PairInside(front, b);
    Associates(Normalize(front), "\n", Normalize(b[1..]));
  }

  // The normalized text, cut where line endings were split.
  function Parts(pieces: seq<string>): (parts: seq<string>)
    ensures parts != []
  {
    if pieces == [] then [""]
    else
      var before, last := Parts(pieces[..|pieces| - 1]), Normalize(pieces[|pieces| - 1]);
      if SplitsReturn(pieces, |pieces| - 1) then before + [if last == "" then "" else last[1..]]
      else before[..|before| - 1] + [before[|before| - 1] + last]
  }

  lemma {:induction false} NewPart(parts: seq<string>, x: string)
    requires parts != []
    ensures Spaced(parts + [x]) == Spaced(parts) + ("\n" + x) && Flat(parts + [x]) == Flat(parts) + x
  {
    if |parts| == 1 {
      assert (parts + [x])[1..] == [x] && Flat([x]) == x;
      assert parts[1..] == [] && parts[0] + "" == parts[0];
    } else {
      NewPart(parts[1..], x);
      assert (parts + [x])[1..] == parts[1..] + [x];
      Associates(parts[0], "\n" + Spaced(parts[1..]), "\n" + x);
      Associates("\n", Spaced(parts[1..]), "\n" + x);
      Associates(parts[0], Flat(parts[1..]), x);
    }
  }

  lemma {:induction false} LongerPart(front: seq<string>, last: string, x: string)
    ensures Spaced(front + [last + x]) == Spaced(front + [last]) + x && Flat(front + [last + x]) == Flat(front + [last]) + x
  {
    if front == [] {
      assert Flat([last + x]) == last + x && Flat([last]) == last;
      assert [] + [last + x] == [last + x] && [] + [last] == [last];
    } else {
      NewPart(front, last + x);
      NewPart(front, last);
      Associates(Spaced(front), "\n" + last, x);
      Associates("\n", last, x);
      Associates(Flat(front), last, x);
    }
  }

  predicate EndsInReturn(text: string) {
    text != "" && text[|text| - 1] == '\r'
  }

  lemma NormalizedReturn(text: string)
    requires EndsInReturn(text)
    ensures Complete(Normalize(text))
  {
    assert text == text[..|text| - 1] + "\r";
    ReturnAtTheEnd(text[..|text| - 1]);
  }

  // The parts as one are the normalized text; spaced, the text as it was read.
  lemma {:induction false} PartsAre(pieces: seq<string>)
    ensures Flat(Parts(pieces)) == Normalize(Concat(pieces)) && Spaced(Parts(pieces)) == AsRead(pieces)
    ensures InLines(Parts(pieces))
    ensures EndsInReturn(Concat(pieces)) ==> Complete(Parts(pieces)[|Parts(pieces)| - 1])
  {
    if pieces == [] {
      assert Flat([""]) == "" + "" && Normalize("") == "";
    } else {
      var before, piece := pieces[..|pieces| - 1], pieces[|pieces| - 1];
      PartsAre(before);
      if SplitsReturn(pieces, |pieces| - 1) {
        SplitPart(pieces);
      } else {
        WholePart(pieces);
      }
    }
  }

  lemma SplitPart(pieces: seq<string>)
    requires pieces != [] && SplitsReturn(pieces, |pieces| - 1)
    requires var before := pieces[..|pieces| - 1];
      && Flat(Parts(before)) == Normalize(Concat(before)) && Spaced(Parts(before)) == AsRead(before)
      && InLines(Parts(before)) && Complete(Parts(before)[|Parts(before)| - 1])
    ensures Flat(Parts(pieces)) == Normalize(Concat(pieces)) && Spaced(Parts(pieces)) == AsRead(pieces)
    ensures InLines(Parts(pieces))
    ensures EndsInReturn(Concat(pieces)) ==> Complete(Parts(pieces)[|Parts(pieces)| - 1])
  {
    var before, piece := pieces[..|pieces| - 1], pieces[|pieces| - 1];
    SplitReadsTwice(Concat(before), piece);
    assert Normalize(piece)[1..] == Normalize(piece[1..]);
    NewPart(Parts(before), Normalize(piece[1..]));
    assert Parts(pieces) == Parts(before) + [Normalize(piece[1..])];
    if EndsInReturn(Concat(pieces)) {
      assert EndsInReturn(piece) && piece[1..][|piece[1..]| - 1] == '\r';
      NormalizedReturn(piece[1..]);
    }
  }

  lemma WholePart(pieces: seq<string>)
    requires pieces != [] && !SplitsReturn(pieces, |pieces| - 1)
    requires var before := pieces[..|pieces| - 1];
      && Flat(Parts(before)) == Normalize(Concat(before)) && Spaced(Parts(before)) == AsRead(before)
      && InLines(Parts(before))
      && (EndsInReturn(Concat(before)) ==> Complete(Parts(before)[|Parts(before)| - 1]))
    ensures Flat(Parts(pieces)) == Normalize(Concat(pieces)) && Spaced(Parts(pieces)) == AsRead(pieces)
    ensures InLines(Parts(pieces))
    ensures EndsInReturn(Concat(pieces)) ==> Complete(Parts(pieces)[|Parts(pieces)| - 1])
  {
    var before, piece := pieces[..|pieces| - 1], pieces[|pieces| - 1];
    var front, last := Parts(before)[..|Parts(before)| - 1], Parts(before)[|Parts(before)| - 1];
    assert Parts(before) == front + [last];
    NormalizeConcat(Concat(before), piece);
    LongerPart(front, last, Normalize(piece));
    if EndsInReturn(Concat(pieces)) {
      if piece == "" {
        assert Concat(pieces) == Concat(before) && last + "" == last;
      } else {
        NormalizedReturn(piece);
      }
    }
  }

  // However many line endings the cuts split, the events are those of the whole text exactly
  // when, in every block of it, at most one of the parts they make has data, and the block keeps
  // that part's type.
  lemma SplitsAreHarmlessExactlyWhen(pieces: seq<string>)
    ensures Stream(pieces) == Stream([Concat(pieces)]) <==> Harmless([], NO_FIELDS, Parts(pieces))
    ensures |Stream(pieces)| >= |Stream([Concat(pieces)])|
  {
    PartsAre(pieces);
    StreamIsByLines(pieces);
    WholeStream(Concat(pieces));
    HarmlessExactlyWhen([], NO_FIELDS, Parts(pieces));
    assert Apart([], Parts(pieces)) == [] + Stream(pieces);
    assert [] + Stream(pieces) == Stream(pieces);
  }

  lemma WholeStream(text: string)
    ensures Stream([text]) == ByLines(Normalize(text) + "\n\n", NO_FIELDS)
  {
    StreamIsByLines([text]);
    assert [text][..0] == [] && AsRead([text]) == "" + Normalize(text);
    assert "" + Normalize(text) == Normalize(text);
  }
}
