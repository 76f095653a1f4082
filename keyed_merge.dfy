/**
 * The de-duplicating merge behind both `fetchBioSyncData` updaters: copy the old list,
 * then walk the batch and add each item whose key is not yet in the list (the list as it
 * stands, so also items added earlier in the same walk). One updater appends with `push`,
 * the other prepends with `unshift`. Also the `slice` windows they end with.
 */
module KeyedMerge {

  /** `list.find(x => key(x) === k)` finds something. */
  predicate HasKey<T, K(==)>(key: T -> K, list: seq<T>, k: K) {
    exists i :: 0 <= i < |list| && key(list[i]) == k
  }

  /** No two items of the list share a key. */
  predicate DistinctKeys<T, K(==)>(key: T -> K, list: seq<T>) {
    forall i, j :: 0 <= i < j < |list| ==> key(list[i]) != key(list[j])
  }

  /** `a` can be had from `b` by deleting items: same items, same order. */
  predicate SubsequenceOf<T(==)>(a: seq<T>, b: seq<T>)
    decreases |b|
  {
    if b == [] then a == []
    else (a != [] && a[0] == b[0] && SubsequenceOf(a[1..], b[1..])) || SubsequenceOf(a, b[1..])
  }

  /** The batch items a merge adds, in batch order: each whose key is new at the time it is met. */
  function Unseen<T, K(==)>(key: T -> K, seen: seq<T>, batch: seq<T>): (added: seq<T>)
    ensures |added| <= |batch|
    decreases |batch|
  {
    if batch == [] then []
    else if HasKey(key, seen, key(batch[0])) then Unseen(key, seen, batch[1..])
    else [batch[0]] + Unseen(key, seen + [batch[0]], batch[1..])
  }

  function Reverse<T>(s: seq<T>): (r: seq<T>)
    ensures |r| == |s|
    ensures forall i :: 0 <= i < |s| ==> r[i] == s[|s| - 1 - i]
  {
    if s == [] then [] else [s[|s| - 1]] + Reverse(s[..|s| - 1])
  }

  /** `s.slice(-n)` for n > 0 (`slice(-0)` would keep everything): the last n items, or all of them when there are fewer. */
  function LastN<T>(s: seq<T>, n: nat): (r: seq<T>)
    requires n > 0
    ensures |r| == if |s| <= n then |s| else n
    ensures r == s[|s| - |r|..]
  {
    if |s| <= n then s else s[|s| - n..]
  }

  /** `s.slice(0, n)`: the first n items, or all of them when there are fewer. */
  function FirstN<T>(s: seq<T>, n: nat): (r: seq<T>)
    ensures |r| == if |s| <= n then |s| else n
    ensures r == s[..|r|]
  {
    if |s| <= n then s else s[..n]
  }

  /** `const combined = [...prev]; batch.forEach(x => { if (!combined.find(...)) combined.push(x); })`. */
  method AppendUnseen<T, K(==)>(key: T -> K, prev: seq<T>, batch: seq<T>) returns (combined: seq<T>)
    ensures combined == prev + Unseen(key, prev, batch)
  {
    combined := prev;
    var i := 0;
    while i < |batch|
      invariant 0 <= i <= |batch|
      invariant combined == prev + Unseen(key, prev, batch[..i])
    {
      var item := batch[i];
      UnseenSnoc(key, prev, batch[..i], item);
      assert batch[..i + 1] == batch[..i] + [item];
      if !HasKey(key, combined, key(item)) {
        combined := combined + [item];
      }
      i := i + 1;
    }
    assert batch[..i] == batch;
  }

  /** `const combined = [...prev]; batch.forEach(x => { if (!combined.find(...)) combined.unshift(x); })`. */
  method PrependUnseen<T, K(==)>(key: T -> K, prev: seq<T>, batch: seq<T>) returns (combined: seq<T>)
    ensures combined == Reverse(Unseen(key, prev, batch)) + prev
  {
    combined := prev;
    var i := 0;
    while i < |batch|
      invariant 0 <= i <= |batch|
      invariant combined == Reverse(Unseen(key, prev, batch[..i])) + prev
    {
      var item := batch[i];
      PrependStep(key, prev, batch[..i], item);
      assert batch[..i + 1] == batch[..i] + [item];
      if !HasKey(key, combined, key(item)) {
        combined := [item] + combined;
      }
      i := i + 1;
    }
    assert batch[..i] == batch;
  }

  /** Extending the batch by one item adds that item exactly when its key is not yet present. */
  lemma {:induction false} UnseenSnoc<T, K>(key: T -> K, seen: seq<T>, batch: seq<T>, x: T)
    ensures Unseen(key, seen, batch + [x]) ==
      Unseen(key, seen, batch) + (if HasKey(key, seen + Unseen(key, seen, batch), key(x)) then [] else [x])
    decreases |batch|
  {
    if batch == [] {
      assert batch + [x] == [x] && seen + [] == seen;
    } else {
      var b := batch[0];
      assert (batch + [x])[0] == b && (batch + [x])[1..] == batch[1..] + [x];
      if HasKey(key, seen, key(b)) {
        UnseenSnoc(key, seen, batch[1..], x);
      } else {
        UnseenSnoc(key, seen + [b], batch[1..], x);
        assert seen + ([b] + Unseen(key, seen + [b], batch[1..])) == seen + [b] + Unseen(key, seen + [b], batch[1..]);
      }
    }
  }

  /** One `unshift` step: the item goes in front exactly when its key is not yet present. */
  lemma PrependStep<T, K>(key: T -> K, prev: seq<T>, done: seq<T>, x: T)
    ensures var combined := Reverse(Unseen(key, prev, done)) + prev;
      Reverse(Unseen(key, prev, done + [x])) + prev ==
        if HasKey(key, combined, key(x)) then combined else [x] + combined
  {
    var added := Unseen(key, prev, done);
    UnseenSnoc(key, prev, done, x);
    HasKeyReordered(key, added, prev, key(x));
    if !HasKey(key, prev + added, key(x)) {
      ReverseSnoc(added, x);
    } else {
      assert added + [] == added;
    }
  }

  lemma ReverseSnoc<T>(s: seq<T>, x: T)
    ensures Reverse(s + [x]) == [x] + Reverse(s)
  {
    assert (s + [x])[..|s|] == s;
  }

  lemma HasKeyConcat<T, K>(key: T -> K, a: seq<T>, b: seq<T>, k: K)
    ensures HasKey(key, a + b, k) <==> HasKey(key, a, k) || HasKey(key, b, k)
  {
    if HasKey(key, a, k) {
      var i :| 0 <= i < |a| && key(a[i]) == k;
      assert (a + b)[i] == a[i];
    }
    if HasKey(key, b, k) {
      var i :| 0 <= i < |b| && key(b[i]) == k;
      assert (a + b)[|a| + i] == b[i];
    }
    if HasKey(key, a + b, k) {
      var i :| 0 <= i < |a + b| && key((a + b)[i]) == k;
      if i >= |a| { assert b[i - |a|] == (a + b)[i]; }
    }
  }

  /** Prepending the added items reversed leaves the same keys present as appending them. */
  lemma HasKeyReordered<T, K>(key: T -> K, added: seq<T>, prev: seq<T>, k: K)
    ensures HasKey(key, Reverse(added) + prev, k) <==> HasKey(key, prev + added, k)
  {
    HasKeyConcat(key, Reverse(added), prev, k);
    HasKeyConcat(key, prev, added, k);
    var r := Reverse(added);
    if HasKey(key, r, k) {
      var i :| 0 <= i < |r| && key(r[i]) == k;
      assert added[|added| - 1 - i] == r[i];
    }
    if HasKey(key, added, k) {
      var i :| 0 <= i < |added| && key(added[i]) == k;
      assert r[|added| - 1 - i] == added[i];
    }
  }

  /** The added items come from the batch, in batch order. */
  lemma {:induction false} UnseenIsSubsequence<T, K>(key: T -> K, seen: seq<T>, batch: seq<T>)
    ensures SubsequenceOf(Unseen(key, seen, batch), batch)
    decreases |batch|
  {
    if batch != [] {
      var rest := batch[1..];
      if HasKey(key, seen, key(batch[0])) {
        UnseenIsSubsequence(key, seen, rest);
      } else {
        UnseenIsSubsequence(key, seen + [batch[0]], rest);
      }
    }
  }

  /** Every added item's key is absent from the list it is added to, and no two added items share a key. */
  lemma {:induction false} UnseenKeysAreFresh<T, K>(key: T -> K, seen: seq<T>, batch: seq<T>)
    ensures var u := Unseen(key, seen, batch);
      && (forall i :: 0 <= i < |u| ==> !HasKey(key, seen, key(u[i])))
      && DistinctKeys(key, u)
    decreases |batch|
  {
    if batch != [] {
      var rest := batch[1..];
      if HasKey(key, seen, key(batch[0])) {
        UnseenKeysAreFresh(key, seen, rest);
      } else {
        var x := batch[0];
        var tail := Unseen(key, seen + [x], rest);
        UnseenKeysAreFresh(key, seen + [x], rest);
        assert HasKey(key, seen + [x], key(x)) by { assert (seen + [x])[|seen|] == x; }
        forall i | 0 <= i < |tail| ensures !HasKey(key, seen, key(tail[i])) && key(tail[i]) != key(x) {
          HasKeyConcat(key, seen, [x], key(tail[i]));
        }
      }
    }
  }

  /** After the merge every batch item's key is present. */
  lemma {:induction false} UnseenCoversBatch<T, K>(key: T -> K, seen: seq<T>, batch: seq<T>)
    ensures forall i :: 0 <= i < |batch| ==> HasKey(key, seen + Unseen(key, seen, batch), key(batch[i]))
    decreases |batch|
  {
    if batch != [] {
      var x, rest := batch[0], batch[1..];
      var u := Unseen(key, seen, batch);
      if HasKey(key, seen, key(x)) {
        UnseenCoversBatch(key, seen, rest);
        HasKeyConcat(key, seen, u, key(x));
      } else {
        UnseenCoversBatch(key, seen + [x], rest);
        assert seen + u == seen + [x] + Unseen(key, seen + [x], rest);
        assert (seen + u)[|seen|] == x;
      }
      forall i | 1 <= i < |batch| ensures HasKey(key, seen + u, key(batch[i])) {
        assert batch[i] == rest[i - 1];
      }
    }
  }

  /**
   * An item whose key is neither in the old list nor on an earlier batch item is added. With
   * `UnseenKeysAreFresh` this makes each added item the first batch item carrying its key.
   */
  lemma {:induction false} UnseenTakesFirstOccurrence<T, K>(key: T -> K, seen: seq<T>, batch: seq<T>)
    ensures forall j :: 0 <= j < |batch| && !HasKey(key, seen + batch[..j], key(batch[j])) ==>
      batch[j] in Unseen(key, seen, batch)
    decreases |batch|
  {
    if batch != [] {
      var x, rest := batch[0], batch[1..];
      var u := Unseen(key, seen, batch);
      forall j | 0 <= j < |batch| && !HasKey(key, seen + batch[..j], key(batch[j])) ensures batch[j] in u {
        if j == 0 {
          assert seen + batch[..0] == seen;
        } else {
          var k := key(batch[j]);
          assert batch[j] == rest[j - 1];
          assert seen + batch[..j] == (seen + [x]) + rest[..j - 1];
          HasKeyConcat(key, seen + [x], rest[..j - 1], k);
          if HasKey(key, seen, key(x)) {
            HasKeyConcat(key, seen, [x], k);
            HasKeyConcat(key, seen, rest[..j - 1], k);
            UnseenTakesFirstOccurrence(key, seen, rest);
          } else {
            UnseenTakesFirstOccurrence(key, seen + [x], rest);
          }
        }
      }
    }
  }

  /** A list whose keys are distinct stays so after the merge, in either direction. */
  lemma MergeKeepsKeysDistinct<T, K>(key: T -> K, prev: seq<T>, batch: seq<T>)
    requires DistinctKeys(key, prev)
    ensures DistinctKeys(key, prev + Unseen(key, prev, batch))
    ensures DistinctKeys(key, Reverse(Unseen(key, prev, batch)) + prev)
  {
    var u := Unseen(key, prev, batch);
    UnseenKeysAreFresh(key, prev, batch);
    var a := prev + u;
    forall i, j | 0 <= i < j < |a| ensures key(a[i]) != key(a[j]) {
      if i < |prev| && j >= |prev| {
        assert a[j] == u[j - |prev|] && a[i] == prev[i];
        assert HasKey(key, prev, key(a[i]));
        assert !HasKey(key, prev, key(a[j]));
      } else if i >= |prev| {
        assert a[i] == u[i - |prev|] && a[j] == u[j - |prev|];
      }
    }
    var r := Reverse(u);
    var b := r + prev;
    forall i, j | 0 <= i < j < |b| ensures key(b[i]) != key(b[j]) {
      if i < |r| && j >= |r| {
        assert b[i] == u[|u| - 1 - i] && b[j] == prev[j - |r|];
        assert HasKey(key, prev, key(b[j]));
        assert !HasKey(key, prev, key(b[i]));
      } else if j < |r| {
        assert b[i] == u[|u| - 1 - i] && b[j] == u[|u| - 1 - j];
      }
    }
  }

  /** A window of a list whose keys are distinct has distinct keys too. */
  lemma WindowKeepsKeysDistinct<T, K>(key: T -> K, s: seq<T>, n: nat)
    requires DistinctKeys(key, s) && n > 0
    ensures DistinctKeys(key, LastN(s, n)) && DistinctKeys(key, FirstN(s, n))
  {
    var l := LastN(s, n);
    forall i, j | 0 <= i < j < |l| ensures key(l[i]) != key(l[j]) {
      assert l[i] == s[|s| - |l| + i] && l[j] == s[|s| - |l| + j];
    }
    var f := FirstN(s, n);
    forall i, j | 0 <= i < j < |f| ensures key(f[i]) != key(f[j]) {
      assert f[i] == s[i] && f[j] == s[j];
    }
  }
}
