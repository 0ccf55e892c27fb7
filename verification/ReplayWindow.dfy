// The replay window of the authenticated relay channel: canonical decimal sequence numbers,
// and a pruned map of the last 512 that answers as an unbounded history would
// (frontend/remote/broker-client.js, contentSequence and rememberContentNonce).

module ContentNonce {
  import opened Options

  const MAX_SAFE_INTEGER: int := 0x1F_FFFF_FFFF_FFFF

  predicate IsDigit(c: char) { '0' <= c <= '9' }

  function DigitOf(c: char): nat
    requires IsDigit(c)
  {
    c as int - '0' as int
  }

  function CharOf(d: nat): char
    requires d < 10
  {
    ('0' as int + d) as char
  }

  predicate AllDigits(s: string) {
    forall i :: 0 <= i < |s| ==> IsDigit(s[i])
  }

  function Number(s: string): nat
    requires AllDigits(s)
  {
    if s == "" then 0 else 10 * Number(s[..|s| - 1]) + DigitOf(s[|s| - 1])
  }

  // String(n) of a positive integer; nothing for zero, so that digits can be peeled off.
  function Digits(n: nat): string {
    if n == 0 then "" else Digits(n / 10) + [CharOf(n % 10)]
  }

  // /^[1-9][0-9]{0,15}$/
  predicate LooksCanonical(nonce: string) {
    1 <= |nonce| <= 16 && AllDigits(nonce) && nonce[0] != '0'
  }

  // Number is exact up to 2^53 and rounds nothing larger below it, so the safe-integer test
  // on the rounded value is the test on the value itself.
  function ContentSequence(nonce: string): Option<nat> {
    if !LooksCanonical(nonce) then None
    else if Number(nonce) > MAX_SAFE_INTEGER || Digits(Number(nonce)) != nonce then None
    else Some(Number(nonce))
  }

  lemma {:induction false} NumberInvertsDigits(n: nat)
    ensures AllDigits(Digits(n)) && Number(Digits(n)) == n
    ensures n > 0 ==> Digits(n) != "" && Digits(n)[0] != '0'
  {
    if n > 0 {
      NumberInvertsDigits(n / 10);
      assert Digits(n)[..|Digits(n)| - 1] == Digits(n / 10);
    }
  }

  lemma {:induction false} DigitsInvertsNumber(s: string)
    requires AllDigits(s) && (s != "" ==> s[0] != '0')
    ensures Digits(Number(s)) == s && (s != "" ==> Number(s) > 0)
  {
    if s != "" {
      DigitsInvertsNumber(s[..|s| - 1]);
      assert Number(s) / 10 == Number(s[..|s| - 1]) && Number(s) % 10 == DigitOf(s[|s| - 1]);
      assert s == s[..|s| - 1] + [s[|s| - 1]];
    }
  }

  function Pow10(k: nat): nat {
    if k == 0 then 1 else 10 * Pow10(k - 1)
  }

  lemma {:induction false} FewDigits(n: nat, k: nat)
    requires n < Pow10(k)
    ensures |Digits(n)| <= k
  {
    if n > 0 {
      FewDigits(n / 10, k - 1);
    }
  }

  // contentSequence accepts exactly the canonical decimals of 1 .. 2^53 - 1, and inverts
  // printing on them.
  lemma AcceptsExactlyCanonicalDecimals(nonce: string)
    ensures ContentSequence(nonce).Some? <==> exists n: nat :: 1 <= n <= MAX_SAFE_INTEGER && nonce == Digits(n)
  {
    if ContentSequence(nonce).Some? {
      DigitsInvertsNumber(nonce);
      assert nonce == Digits(Number(nonce));
    }
    if exists n: nat :: 1 <= n <= MAX_SAFE_INTEGER && nonce == Digits(n) {
      var n: nat :| 1 <= n <= MAX_SAFE_INTEGER && nonce == Digits(n);
      SequenceInvertsDigits(n);
    }
  }

  lemma SequenceInvertsDigits(n: nat)
    requires 1 <= n <= MAX_SAFE_INTEGER
    ensures ContentSequence(Digits(n)) == Some(n)
  {
    NumberInvertsDigits(n);
    assert Pow10(16) == 10_000_000_000_000_000 by {
      assert Pow10(4) == 10_000;
      assert Pow10(8) == 100_000_000;
      assert Pow10(12) == 1_000_000_000_000;
    }
    FewDigits(n, 16);
  }
}

module ReplayWindow {
  import opened Options
  import opened ContentNonce

  const CONTENT_REPLAY_WINDOW: nat := 512

  datatype Window = Window(high: nat, seen: map<nat, string>)

  const FRESH := Window(0, map[])

  function Prune(seen: map<nat, string>, floor: int): map<nat, string> {
    map k | k in seen && k > floor :: seen[k]
  }

  predicate Accepts(w: Window, nonce: string, signature: string) {
    match ContentSequence(nonce)
    case None => false
    case Some(n) =>
      n > w.high - CONTENT_REPLAY_WINDOW && (n !in w.seen || w.seen[n] == "" || w.seen[n] == signature)
  }

  // rememberContentNonce. An empty signature in the map would read as absent; callers have
  // checked theirs is not.
  function Remember(w: Window, nonce: string, signature: string): Window {
    if !Accepts(w, nonce, signature) then w
    else
      var n := ContentSequence(nonce).value;
      if n in w.seen && w.seen[n] != "" then w
      else
        var high := if n > w.high then n else w.high;
        Window(high, Prune(w.seen[n := signature], high - CONTENT_REPLAY_WINDOW))
  }

  // ----- The unbounded history it stands for -------------------------------------------

  datatype History = History(high: nat, accepted: map<nat, string>)

  const EMPTY := History(0, map[])

  predicate HistoryAccepts(h: History, nonce: string, signature: string) {
    match ContentSequence(nonce)
    case None => false
    case Some(n) => n > h.high - CONTENT_REPLAY_WINDOW && (n !in h.accepted || h.accepted[n] == signature)
  }

  function HistoryRemember(h: History, nonce: string, signature: string): History {
    if !HistoryAccepts(h, nonce, signature) then h
    else
      var n := ContentSequence(nonce).value;
      History(if n > h.high then n else h.high, h.accepted[n := signature])
  }

  ghost predicate Stands(w: Window, h: History) {
    && w.high == h.high
    && w.seen == Prune(h.accepted, h.high - CONTENT_REPLAY_WINDOW)
    && (forall k :: k in h.accepted ==> 1 <= k <= h.high && h.accepted[k] != "")
  }

  // One frame: the same answer, and the window still stands for the history.
  lemma RememberRefines(w: Window, h: History, nonce: string, signature: string)
    requires Stands(w, h) && signature != ""
    ensures Accepts(w, nonce, signature) <==> HistoryAccepts(h, nonce, signature)
    ensures Stands(Remember(w, nonce, signature), HistoryRemember(h, nonce, signature))
  {
  }

  type Frame = f: (string, string) | f.1 != "" witness ("", "x")

  function RunWindow(frames: seq<Frame>): Window {
    if frames == [] then FRESH
    else Remember(RunWindow(frames[..|frames| - 1]), frames[|frames| - 1].0, frames[|frames| - 1].1)
  }

  function RunHistory(frames: seq<Frame>): History {
    if frames == [] then EMPTY
    else HistoryRemember(RunHistory(frames[..|frames| - 1]), frames[|frames| - 1].0, frames[|frames| - 1].1)
  }

  // For every sequence of frames the pruned map answers each one as the full history would.
  lemma {:induction false} WindowRefinesHistory(frames: seq<Frame>, next: Frame)
    ensures Stands(RunWindow(frames), RunHistory(frames))
    ensures Accepts(RunWindow(frames), next.0, next.1) <==> HistoryAccepts(RunHistory(frames), next.0, next.1)
  {
    if frames != [] {
      WindowRefinesHistory(frames[..|frames| - 1], frames[|frames| - 1]);
      RememberRefines(RunWindow(frames[..|frames| - 1]), RunHistory(frames[..|frames| - 1]),
        frames[|frames| - 1].0, frames[|frames| - 1].1);
    }
    RememberRefines(RunWindow(frames), RunHistory(frames), next.0, next.1);
  }

  // The history is what was accepted: a number is in it, with a signature, exactly when some
  // frame carrying both was accepted.
  lemma {:induction false} HistoryIsWhatWasAccepted(frames: seq<Frame>, n: nat, signature: string)
    ensures n in RunHistory(frames).accepted && RunHistory(frames).accepted[n] == signature <==>
      exists i :: 0 <= i < |frames| && Took(frames, i, n, signature)
  {
    if frames != [] {
      var before, last := frames[..|frames| - 1], |frames| - 1;
      HistoryIsWhatWasAccepted(before, n, signature);
      WindowRefinesHistory(before, frames[last]);
      forall i | 0 <= i < last ensures Took(before, i, n, signature) == Took(frames, i, n, signature) {
        assert before[..i] == frames[..i];
      }
      OneMoreTaken(RunHistory(before), frames[last], n, signature);
      assert Took(frames, last, n, signature) <==>
        HistoryAccepts(RunHistory(before), frames[last].0, frames[last].1)
        && ContentSequence(frames[last].0) == Some(n) && frames[last].1 == signature;
    }
  }

  lemma OneMoreTaken(h: History, frame: Frame, n: nat, signature: string)
    ensures var t := HistoryRemember(h, frame.0, frame.1);
      n in t.accepted && t.accepted[n] == signature <==>
        || (n in h.accepted && h.accepted[n] == signature)
        || (HistoryAccepts(h, frame.0, frame.1) && ContentSequence(frame.0) == Some(n) && frame.1 == signature)
  {
  }

  // Frame i was accepted, and carried this number and signature.
  predicate Took(frames: seq<Frame>, i: nat, n: nat, signature: string)
    requires i < |frames|
  {
    AcceptedAt(frames, i) && ContentSequence(frames[i].0) == Some(n) && frames[i].1 == signature
  }

  predicate AcceptedAt(frames: seq<Frame>, i: nat)
    requires i < |frames|
  {
    Accepts(RunWindow(frames[..i]), frames[i].0, frames[i].1)
  }

  // No sequence number is ever accepted with two signatures.
  lemma OneSignaturePerSequence(frames: seq<Frame>, i: nat, j: nat)
    requires i < j < |frames| && AcceptedAt(frames, i) && AcceptedAt(frames, j)
    requires ContentSequence(frames[i].0) == ContentSequence(frames[j].0)
    ensures frames[i].1 == frames[j].1
  {
    var n := ContentSequence(frames[i].0).value;
    assert frames[..j][..i] == frames[..i] && Took(frames[..j], i, n, frames[i].1);
    HistoryIsWhatWasAccepted(frames[..j], n, frames[i].1);
    WindowRefinesHistory(frames[..j], frames[j]);
  }

  // ...and the map never holds more than 512 numbers.
  lemma WindowStaysSmall(frames: seq<Frame>)
    ensures |RunWindow(frames).seen| <= CONTENT_REPLAY_WINDOW
  {
    var w := RunWindow(frames);
    WindowRefinesHistory(frames, ("", "x"));
    InInterval(w.seen.Keys, w.high, CONTENT_REPLAY_WINDOW);
  }

  lemma {:induction false} InInterval(keys: set<nat>, high: nat, width: nat)
    requires forall k :: k in keys ==> high - width < k <= high
    ensures |keys| <= width
  {
    if width == 0 {
      assert keys == {};
    } else {
      InInterval(keys - {high - width + 1}, high, width - 1);
    }
  }
}
