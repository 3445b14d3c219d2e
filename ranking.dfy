/**
 * The Python building blocks of the track ranking in app/spotify.py:
 * a dictionary used as a counter (`tracks[id] = tracks.get(id, 0) + 1`),
 * the insertion order of its keys, `sorted(tracks, key=tracks.get, reverse=True)`
 * (a stable sort on descending count) and the slice `[:size]`.
 */
module Ranking {

  /** No element occurs twice. */
  ghost predicate Distinct(s: seq<string>)
  {
    forall i, j :: 0 <= i < j < |s| ==> s[i] != s[j]
  }

  /** `tracks.get(k, 0)`. */
  function Cnt(tally: map<string, nat>, k: string): nat
  {
    if k in tally then tally[k] else 0
  }

  /** The counter after recording every id of `occ` in turn. */
  function Tally(occ: seq<string>): map<string, nat>
  {
    if occ == [] then map[]
    else
      var m := Tally(occ[..|occ| - 1]);
      var k := occ[|occ| - 1];
      m[k := Cnt(m, k) + 1]
  }

  /** A key is in the counter iff it was recorded, and its count is its number of occurrences. */
  lemma {:induction false} TallyCounts(occ: seq<string>, k: string)
    ensures k in Tally(occ) <==> k in occ
    ensures Cnt(Tally(occ), k) == multiset(occ)[k]
  {
    if occ != [] {
      var init := occ[..|occ| - 1];
      TallyCounts(init, k);
      assert occ == init + [occ[|occ| - 1]];
    }
  }

  /** Recording one more id: the counter and its key order as the dictionary update leaves them. */
  lemma RecordOne(occ: seq<string>, k: string)
    ensures Tally(occ + [k]) == Tally(occ)[k := Cnt(Tally(occ), k) + 1]
    ensures k in Tally(occ) ==> Dedup(occ + [k]) == Dedup(occ)
    ensures k !in Tally(occ) ==> Dedup(occ + [k]) == Dedup(occ) + [k]
  {
    assert (occ + [k])[..|occ|] == occ;
    TallyCounts(occ, k);
  }

  /** The key order of the counter: every recorded id once, at its first recording. */
  function Dedup(s: seq<string>): (d: seq<string>)
    ensures forall x :: x in d <==> x in s
    ensures Distinct(d)
  {
    if s == [] then []
    else
      var d := Dedup(s[..|s| - 1]);
      if s[|s| - 1] in d then d else d + [s[|s| - 1]]
  }

  /** The position of the first occurrence of `x` in `s`. */
  function FirstIndex(s: seq<string>, x: string): (i: nat)
    requires x in s
    ensures i < |s| && s[i] == x && x !in s[..i]
  {
    var init := s[..|s| - 1];
    if x in init then
      var i := FirstIndex(init, x);
      assert s[..i] == init[..i];
      i
    else |s| - 1
  }

  /** The counter's keys come in first-seen order. */
  lemma {:induction false} DedupFirstSeen(s: seq<string>)
    ensures forall i, j :: 0 <= i < j < |Dedup(s)| ==> FirstIndex(s, Dedup(s)[i]) < FirstIndex(s, Dedup(s)[j])
  {
    if s != [] {
      var init := s[..|s| - 1];
      DedupFirstSeen(init);
      var d := Dedup(init);
      forall y | y in init
        ensures FirstIndex(s, y) == FirstIndex(init, y)
      {
      }
    }
  }

  /** Non-increasing count from left to right. */
  ghost predicate SortedDesc(s: seq<string>, tally: map<string, nat>)
  {
    forall i, j :: 0 <= i < j < |s| ==> Cnt(tally, s[i]) >= Cnt(tally, s[j])
  }

  /** The elements of `s` whose count is `c`, in the order of `s`. */
  function WithCount(s: seq<string>, tally: map<string, nat>, c: nat): seq<string>
  {
    if s == [] then []
    else (if Cnt(tally, s[0]) == c then [s[0]] else []) + WithCount(s[1..], tally, c)
  }

  /** Places `x` in front of the first element whose count is not larger than its own. */
  function Insert(x: string, s: seq<string>, tally: map<string, nat>): seq<string>
  {
    if s == [] || Cnt(tally, x) >= Cnt(tally, s[0]) then [x] + s
    else [s[0]] + Insert(x, s[1..], tally)
  }

  /** Inserting adds `x` and keeps every element of `s`. */
  lemma {:induction false} InsertPerm(x: string, s: seq<string>, tally: map<string, nat>)
    ensures multiset(Insert(x, s, tally)) == multiset(s) + multiset{x}
  {
    if s != [] && Cnt(tally, x) < Cnt(tally, s[0]) {
      InsertPerm(x, s[1..], tally);
      assert s == [s[0]] + s[1..];
    }
  }

  /** `sorted(keys, key=tally.get, reverse=True)`: a stable sort on descending count. */
  function SortDesc(keys: seq<string>, tally: map<string, nat>): (r: seq<string>)
    ensures multiset(r) == multiset(keys)
  {
    if keys == [] then []
    else
      assert keys == [keys[0]] + keys[1..];
      InsertPerm(keys[0], SortDesc(keys[1..], tally), tally);
      Insert(keys[0], SortDesc(keys[1..], tally), tally)
  }

  /** Inserting an element no larger than a bound keeps every count within it. */
  lemma {:induction false} InsertBounded(x: string, s: seq<string>, tally: map<string, nat>, b: nat)
    requires Cnt(tally, x) <= b
    requires forall i :: 0 <= i < |s| ==> Cnt(tally, s[i]) <= b
    ensures forall i :: 0 <= i < |Insert(x, s, tally)| ==> Cnt(tally, Insert(x, s, tally)[i]) <= b
  {
    if s != [] && Cnt(tally, x) < Cnt(tally, s[0]) {
      InsertBounded(x, s[1..], tally, b);
    }
  }

  lemma {:induction false} InsertSorted(x: string, s: seq<string>, tally: map<string, nat>)
    requires SortedDesc(s, tally)
    ensures SortedDesc(Insert(x, s, tally), tally)
  {
    if s != [] && Cnt(tally, x) < Cnt(tally, s[0]) {
      var rest := Insert(x, s[1..], tally);
      InsertSorted(x, s[1..], tally);
      InsertBounded(x, s[1..], tally, Cnt(tally, s[0]));
      var r := [s[0]] + rest;
      forall i, j | 0 <= i < j < |r|
        ensures Cnt(tally, r[i]) >= Cnt(tally, r[j])
      {
        if i != 0 {
          assert r[i] == rest[i - 1] && r[j] == rest[j - 1];
        } else {
          assert r[j] == rest[j - 1];
        }
      }
    }
  }

  /** Inserting keeps `x` ahead of every element of equal count. */
  lemma {:induction false} InsertWithCount(x: string, s: seq<string>, tally: map<string, nat>, c: nat)
    ensures WithCount(Insert(x, s, tally), tally, c)
         == (if Cnt(tally, x) == c then [x] else []) + WithCount(s, tally, c)
  {
    var xs := if Cnt(tally, x) == c then [x] else [];
    if s == [] || Cnt(tally, x) >= Cnt(tally, s[0]) {
      assert ([x] + s)[0] == x && ([x] + s)[1..] == s;
    } else {
      var rest := Insert(x, s[1..], tally);
      var w := WithCount(s[1..], tally, c);
      var head := if Cnt(tally, s[0]) == c then [s[0]] else [];
      InsertWithCount(x, s[1..], tally, c);
      assert ([s[0]] + rest)[0] == s[0] && ([s[0]] + rest)[1..] == rest;
      assert WithCount(Insert(x, s, tally), tally, c) == head + (xs + w);
      assert WithCount(s, tally, c) == head + w;
      assert head == [] || xs == [];
      assert head + (xs + w) == xs + (head + w);
    }
  }

  lemma {:induction false} InsertDistinct(x: string, s: seq<string>, tally: map<string, nat>)
    requires Distinct(s) && x !in s
    ensures Distinct(Insert(x, s, tally))
  {
    if s != [] && Cnt(tally, x) < Cnt(tally, s[0]) {
      var rest := Insert(x, s[1..], tally);
      assert x !in s[1..];
      InsertDistinct(x, s[1..], tally);
      InsertPerm(x, s[1..], tally);
      assert s[0] !in multiset(s[1..]) + multiset{x};
      assert s[0] !in rest;
      var r := [s[0]] + rest;
      forall i, j | 0 <= i < j < |r|
        ensures r[i] != r[j]
      {
        if i == 0 {
          assert r[j] in rest;
        } else {
          assert r[i] == rest[i - 1] && r[j] == rest[j - 1];
        }
      }
    }
  }

  /**
   * The sort gives non-increasing counts, permutes its input, keeps distinct keys
   * distinct, and lists the keys of each count in their input order (stability).
   */
  lemma {:induction false} SortDescCorrect(keys: seq<string>, tally: map<string, nat>)
    ensures SortedDesc(SortDesc(keys, tally), tally)
    ensures multiset(SortDesc(keys, tally)) == multiset(keys)
    ensures Distinct(keys) ==> Distinct(SortDesc(keys, tally))
    ensures forall c: nat :: WithCount(SortDesc(keys, tally), tally, c) == WithCount(keys, tally, c)
  {
    if keys != [] {
      var rest := SortDesc(keys[1..], tally);
      SortDescCorrect(keys[1..], tally);
      InsertSorted(keys[0], rest, tally);
      if Distinct(keys) {
        assert keys[0] !in keys[1..];
        assert keys[0] !in multiset(rest);
        InsertDistinct(keys[0], rest, tally);
      }
      forall c: nat
        ensures WithCount(SortDesc(keys, tally), tally, c) == WithCount(keys, tally, c)
      {
        InsertWithCount(keys[0], rest, tally, c);
      }
    }
  }

  /** The ranking of an occurrence sequence: first-seen keys sorted by descending count. */
  function Ranked(occ: seq<string>): seq<string>
  {
    SortDesc(Dedup(occ), Tally(occ))
  }

  /**
   * The ranking holds every recorded id exactly once, by non-increasing number of
   * occurrences, ties in first-seen order.
   */
  lemma RankedCorrect(occ: seq<string>)
    ensures forall x :: x in Ranked(occ) <==> x in occ
    ensures Distinct(Ranked(occ))
    ensures SortedDesc(Ranked(occ), Tally(occ))
    ensures forall x :: x in occ ==> Cnt(Tally(occ), x) == multiset(occ)[x]
    ensures forall c: nat :: WithCount(Ranked(occ), Tally(occ), c) == WithCount(Dedup(occ), Tally(occ), c)
    ensures forall i, j :: 0 <= i < j < |Dedup(occ)| ==> FirstIndex(occ, Dedup(occ)[i]) < FirstIndex(occ, Dedup(occ)[j])
  {
    SortDescCorrect(Dedup(occ), Tally(occ));
    DedupFirstSeen(occ);
    forall x | x in occ
      ensures Cnt(Tally(occ), x) == multiset(occ)[x]
    {
      TallyCounts(occ, x);
    }
    forall x
      ensures x in Ranked(occ) <==> x in occ
    {
      assert x in Ranked(occ) <==> x in multiset(Ranked(occ));
    }
  }

  function Min(a: int, b: int): int
  {
    if a < b then a else b
  }

  /** Python's `s[:n]`: a negative `n` counts from the end. */
  function PySlice(s: seq<string>, n: int): (r: seq<string>)
    ensures r <= s
    ensures n >= 0 ==> |r| == Min(n, |s|)
    ensures n < 0 ==> |r| == if |s| + n < 0 then 0 else |s| + n
  {
    if n >= 0 then s[..Min(n, |s|)]
    else if |s| + n < 0 then []
    else s[..|s| + n]
  }
}
