// Vocabulary shared by every module: optional values, sequence filters, trimming.

module Options {
  datatype Option<+T> = None | Some(value: T)
}

module Filters {
  function Filter<T>(s: seq<T>, keep: T -> bool): seq<T> {
    if s == [] then []
    else (if keep(s[0]) then [s[0]] else []) + Filter(s[1..], keep)
  }

  // A filter that rejects exactly the positions from i up to j cuts that stretch out.
  lemma {:induction false} FilterCutsStretch<T>(s: seq<T>, keep: T -> bool, i: nat, j: nat)
    requires i <= j <= |s|
    requires forall k :: 0 <= k < |s| ==> (keep(s[k]) <==> k < i || j <= k)
    ensures Filter(s, keep) == s[..i] + s[j..]
  {
    if s == [] {
    } else if i > 0 {
      FilterCutsStretch(s[1..], keep, i - 1, j - 1);
      assert s[..i] == [s[0]] + s[1..][..i - 1];
      assert s[j..] == s[1..][j - 1..];
    } else if j > 0 {
      FilterCutsStretch(s[1..], keep, 0, j - 1);
      assert s[j..] == s[1..][j - 1..];
    } else {
      assert keep(s[0]);
      FilterCutsStretch(s[1..], keep, 0, 0);
    }
  }

  lemma FilterKeepsAll<T>(s: seq<T>, keep: T -> bool)
    requires forall k :: 0 <= k < |s| ==> keep(s[k])
    ensures Filter(s, keep) == s
  {
  }

  function FlatMap<A, B>(s: seq<A>, f: A -> seq<B>): seq<B> {
    if s == [] then [] else FlatMap(s[..|s| - 1], f) + f(s[|s| - 1])
  }

  lemma {:induction false} FlatMapAppend<A, B>(s: seq<A>, t: seq<A>, f: A -> seq<B>)
    ensures FlatMap(s + t, f) == FlatMap(s, f) + FlatMap(t, f)
  {
    if t == [] {
      assert s + t == s;
    } else {
      FlatMapAppend(s, t[..|t| - 1], f);
      assert (s + t)[..|s + t| - 1] == s + t[..|t| - 1];
    }
  }

  lemma FlatMapOne<A, B>(x: A, f: A -> seq<B>)
    ensures FlatMap([x], f) == f(x)
  {
  }

  function InsertAt<T>(s: seq<T>, at: nat, x: T): (r: seq<T>)
    requires at <= |s|
    ensures |r| == |s| + 1 && r[at] == x
    ensures forall j :: 0 <= j < at ==> r[j] == s[j]
    ensures forall j :: at < j < |r| ==> r[j] == s[j - 1]
  {
    s[..at] + [x] + s[at..]
  }

  lemma InsertAtIsMultisetAdd<T>(s: seq<T>, at: nat, x: T)
    requires at <= |s|
    ensures multiset(InsertAt(s, at, x)) == multiset(s) + multiset{x}
  {
    assert s == s[..at] + s[at..];
  }

  // x clamped into 0..n.
  function Clamp(x: int, n: nat): (r: nat)
    ensures r <= n
  {
    if x < 0 then 0 else if x > n then n else x
  }
}

module Strings {
  // What String.prototype.trim removes.
  predicate IsSpace(c: char) {
    var n := c as int;
    9 <= n <= 13 || n == 0x20 || n == 0xA0 || n == 0x1680 || 0x2000 <= n <= 0x200A
    || n == 0x2028 || n == 0x2029 || n == 0x202F || n == 0x205F || n == 0x3000 || n == 0xFEFF
  }

  function TrimStart(s: string): string {
    if s != "" && IsSpace(s[0]) then TrimStart(s[1..]) else s
  }

  function TrimEnd(s: string): string {
    if s != "" && IsSpace(s[|s| - 1]) then TrimEnd(s[..|s| - 1]) else s
  }

  function Trim(s: string): string {
    TrimEnd(TrimStart(s))
  }
}
