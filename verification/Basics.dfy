/** Small shared vocabulary: options, counting over a sequence, and what SQL's ORDER BY promises. */
module Basics {

  datatype Option<+T> = None | Some(value: T)

  function Max(a: int, b: int): int {
    if a < b then b else a
  }

  function Min(a: int, b: int): int {
    if a < b then a else b
  }

  /** The sum of f over a sequence. */
  function Tally<T>(s: seq<T>, f: T -> nat): nat {
    if s == [] then 0 else f(s[0]) + Tally(s[1..], f)
  }

  lemma {:induction false} TallyAppend<T>(s: seq<T>, x: T, f: T -> nat)
    ensures Tally(s + [x], f) == Tally(s, f) + f(x)
  {
    if s == [] {
      assert s + [x] == [x] && [x][1..] == [];
    } else {
      assert (s + [x])[1..] == s[1..] + [x];
      TallyAppend(s[1..], x, f);
    }
  }

  lemma {:induction false} TallyUpdate<T>(s: seq<T>, i: nat, x: T, f: T -> nat)
    requires i < |s|
    ensures Tally(s[i := x], f) + f(s[i]) == Tally(s, f) + f(x)
  {
    if i == 0 {
      assert s[0 := x][1..] == s[1..];
    } else {
      assert s[i := x][1..] == s[1..][i - 1 := x];
      TallyUpdate(s[1..], i - 1, x, f);
    }
  }

  lemma {:induction false} TallyAtLeast<T>(s: seq<T>, i: nat, f: T -> nat)
    requires i < |s|
    ensures f(s[i]) <= Tally(s, f)
  {
    if i > 0 {
      TallyAtLeast(s[1..], i - 1, f);
    }
  }

  lemma {:induction false} TallyZero<T>(s: seq<T>, f: T -> nat)
    requires forall i :: 0 <= i < |s| ==> f(s[i]) == 0
    ensures Tally(s, f) == 0
  {
    if s != [] {
      assert forall i :: 0 <= i < |s[1..]| ==> s[1..][i] == s[i + 1];
      TallyZero(s[1..], f);
    }
  }

  /** A sequence sorted by an integer key; ties may come in any order. */
  ghost predicate SortedBy<T>(s: seq<T>, key: T -> int) {
    forall i, j :: 0 <= i < j < |s| ==> key(s[i]) <= key(s[j])
  }

  ghost predicate StrictlySortedBy<T>(s: seq<T>, key: T -> int) {
    forall i, j :: 0 <= i < j < |s| ==> key(s[i]) < key(s[j])
  }

  /** What ORDER BY returns: the same rows, sorted by the key, ties in any order. */
  ghost predicate OrderedRows<T>(rows: seq<T>, answer: seq<T>, key: T -> int) {
    multiset(answer) == multiset(rows) && SortedBy(answer, key)
  }

  /** When the keys are distinct there is only one answer. */
  lemma {:induction false} OrderedRowsUnique<T>(rows: seq<T>, answer: seq<T>, key: T -> int)
    requires StrictlySortedBy(rows, key)
    requires OrderedRows(rows, answer, key)
    ensures answer == rows
  {
    assert |multiset(answer)| == |answer| && |multiset(rows)| == |rows|;
    if rows != [] {
      SameHead(rows, answer, key);
      assert rows == [rows[0]] + rows[1..] && answer == [answer[0]] + answer[1..];
      assert multiset(rows[1..]) == multiset(rows) - multiset{rows[0]};
      assert multiset(answer[1..]) == multiset(answer) - multiset{rows[0]};
      OrderedRowsUnique(rows[1..], answer[1..], key);
    }
  }

  lemma SameHead<T>(rows: seq<T>, answer: seq<T>, key: T -> int)
    requires rows != [] && answer != []
    requires StrictlySortedBy(rows, key)
    requires OrderedRows(rows, answer, key)
    ensures answer[0] == rows[0]
  {
    assert rows[0] in multiset(answer);
    assert answer[0] in multiset(rows);
    var i :| 0 <= i < |answer| && answer[i] == rows[0];
    var k :| 0 <= k < |rows| && rows[k] == answer[0];
    assert key(answer[0]) <= key(answer[i]);
  }

  /** Permutations stay permutations when the same element is dropped from both. */
  lemma DropSame<T>(a: seq<T>, b: seq<T>, k: nat)
    requires a != [] && k < |b| && b[k] == a[0]
    requires multiset(a) == multiset(b)
    ensures multiset(a[1..]) == multiset(b[..k] + b[k + 1..])
  {
    assert a == [a[0]] + a[1..];
    assert b == b[..k] + ([b[k]] + b[k + 1..]);
    assert multiset(a) == multiset{a[0]} + multiset(a[1..]);
    assert multiset(b) == multiset(b[..k]) + (multiset{b[k]} + multiset(b[k + 1..]));
    assert multiset(b[..k] + b[k + 1..]) == multiset(b[..k]) + multiset(b[k + 1..]);
    assert multiset(a) == multiset{a[0]} + multiset(b[..k] + b[k + 1..]);
    assert multiset(a) - multiset{a[0]} == multiset(b[..k] + b[k + 1..]);
  }
}
