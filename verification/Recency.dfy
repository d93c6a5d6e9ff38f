// Least-recently-used order: what an insertion-ordered dictionary with a size limit keeps.

module Recency {
  import opened Prelude

  /** `s` without `k`. */
  function Remove<K(==, !new)>(s: seq<K>, k: K): seq<K> {
    if s == [] then []
    else
      var rest := Remove(s[..|s| - 1], k);
      if s[|s| - 1] == k then rest else rest + [s[|s| - 1]]
  }

  /** The distinct members of a history, ordered by their last occurrence. */
  function Recent<K(==, !new)>(history: seq<K>): seq<K> {
    if history == [] then []
    else Remove(Recent(history[..|history| - 1]), history[|history| - 1]) + [history[|history| - 1]]
  }

  /** The last `capacity` members, or all of them. */
  function Newest<K>(s: seq<K>, capacity: Option<nat>): seq<K> {
    if capacity.Some? && |s| > capacity.value then s[|s| - capacity.value..] else s
  }

  /** One access: a known key moves to the end; a new one may push out the oldest. */
  function Touch<K(==, !new)>(order: seq<K>, k: K, capacity: Option<nat>): seq<K> {
    if k in order then Remove(order, k) + [k]
    else if capacity.Some? && |order| >= capacity.value && order != [] then order[1..] + [k]
    else order + [k]
  }

  lemma LastApart<K(!new)>(s: seq<K>)
    requires s != []
    ensures s == s[..|s| - 1] + [s[|s| - 1]]
    ensures NoDuplicates(s) ==> NoDuplicates(s[..|s| - 1]) && s[|s| - 1] !in s[..|s| - 1]
  {
  }

  lemma DistinctMore<K(!new)>(s: seq<K>, x: K)
    requires NoDuplicates(s) && x !in s
    ensures NoDuplicates(s + [x])
  {
  }

  lemma {:induction false} RemoveHas<K(!new)>(s: seq<K>, k: K)
    ensures forall x {:trigger x in Remove(s, k)} {:trigger x in s} :: x in Remove(s, k) <==> x in s && x != k
    ensures NoDuplicates(s) ==> NoDuplicates(Remove(s, k))
  {
    if s != [] {
      hide NoDuplicates;
      var n := |s| - 1;
      RemoveHas(s[..n], k);
      LastApart(s);
      if NoDuplicates(s) {
        DistinctMore(Remove(s[..n], k), s[n]);
      }
    }
  }

  lemma {:induction false} RemoveAbsent<K(!new)>(s: seq<K>, k: K)
    requires k !in s
    ensures Remove(s, k) == s
  {
    if s != [] {
      LastApart(s);
      RemoveAbsent(s[..|s| - 1], k);
    }
  }

  lemma {:induction false} RemoveConcat<K(!new)>(a: seq<K>, b: seq<K>, k: K)
    ensures Remove(a + b, k) == Remove(a, k) + Remove(b, k)
    decreases |b|
  {
    if b == [] {
      assert a + b == a;
    } else {
      var n := |b| - 1;
      RemoveConcat(a, b[..n], k);
      assert (a + b)[..|a| + n] == a + b[..n];
      assert (a + b)[|a| + n] == b[n];
    }
  }

  lemma {:induction false} RemoveOnce<K(!new)>(s: seq<K>, k: K)
    requires NoDuplicates(s) && k in s
    ensures |Remove(s, k)| == |s| - 1
  {
    var n := |s| - 1;
    LastApart(s);
    hide NoDuplicates;
    if s[n] == k {
      RemoveAbsent(s[..n], k);
    } else {
      RemoveOnce(s[..n], k);
    }
  }

  lemma {:induction false} RecentHas<K(!new)>(history: seq<K>)
    ensures forall x :: x in Recent(history) <==> x in history
    ensures NoDuplicates(Recent(history))
  {
    if history != [] {
      var n := |history| - 1;
      RecentHas(history[..n]);
      RemoveHas(Recent(history[..n]), history[n]);
      LastApart(history);
      hide NoDuplicates, Remove;
      DistinctMore(Remove(Recent(history[..n]), history[n]), history[n]);
    }
  }

  /** The last place of `k` in a history that has it. */
  ghost predicate LastAt<K(!new)>(history: seq<K>, k: K, i: nat) {
    i < |history| && history[i] == k && forall j :: i < j < |history| ==> history[j] != k
  }

  /** Of two members, the one used last comes last. */
  lemma {:induction false} RecentByLastUse<K(!new)>(history: seq<K>, x: K, y: K, i: nat, j: nat)
    requires LastAt(history, x, i) && LastAt(history, y, j) && i < j
    ensures exists a, b :: 0 <= a < b < |Recent(history)| && Recent(history)[a] == x && Recent(history)[b] == y
    decreases |history|
  {
    var n := |history| - 1;
    var last := history[n];
    var rest := Recent(history[..n]);
    RecentHas(history[..n]);
    RemoveHas(rest, last);
    assert x in history[..n] by {
      assert history[..n][i] == x;
    }
    assert x != last;
    hide NoDuplicates, Recent;
    assert Recent(history) == Remove(rest, last) + [last] by { RecentOf(history); }
    if j == n {
      assert x in Remove(rest, last);
      var a :| 0 <= a < |Remove(rest, last)| && Remove(rest, last)[a] == x;
      assert Recent(history)[a] == x && Recent(history)[|Remove(rest, last)|] == y;
    } else {
      assert y != last;
      RecentByLastUse(history[..n], x, y, i, j);
      var a, b :| 0 <= a < b < |rest| && rest[a] == x && rest[b] == y;
      var c, d := RemoveKeepsOrder(rest, last, a, b);
      assert Recent(history)[c] == x && Recent(history)[d] == y;
    }
  }

  lemma RecentOf<K(!new)>(history: seq<K>)
    requires history != []
    ensures Recent(history) == Remove(Recent(history[..|history| - 1]), history[|history| - 1]) + [history[|history| - 1]]
  {
  }

  lemma {:induction false} RemoveKeepsOrder<K(!new)>(s: seq<K>, k: K, a: nat, b: nat) returns (c: nat, d: nat)
    requires a < b < |s| && s[a] != k && s[b] != k
    ensures c < d < |Remove(s, k)| && Remove(s, k)[c] == s[a] && Remove(s, k)[d] == s[b]
    decreases |s|
  {
    var n := |s| - 1;
    if b < n {
      c, d := RemoveKeepsOrder(s[..n], k, a, b);
    } else {
      c := RemoveKeepsMember(s[..n], k, a);
      d := |Remove(s[..n], k)|;
    }
  }

  lemma {:induction false} RemoveKeepsMember<K(!new)>(s: seq<K>, k: K, a: nat) returns (c: nat)
    requires a < |s| && s[a] != k
    ensures c < |Remove(s, k)| && Remove(s, k)[c] == s[a]
    decreases |s|
  {
    var n := |s| - 1;
    if a < n {
      c := RemoveKeepsMember(s[..n], k, a);
    } else {
      c := |Remove(s[..n], k)|;
    }
  }

  lemma RecentNext<K(!new)>(history: seq<K>, k: K)
    ensures Recent(history + [k]) == Remove(Recent(history), k) + [k]
  {
    assert (history + [k])[..|history|] == history;
  }

  /** Keeping the newest of a list and then touching it is the same as touching the whole list first. */
  lemma TouchNewest<K(!new)>(all: seq<K>, k: K, capacity: Option<nat>)
    requires NoDuplicates(all) && capacity != Some(0)
    ensures Touch(Newest(all, capacity), k, capacity) == Newest(Remove(all, k) + [k], capacity)
  {
    hide NoDuplicates, Remove;
    if capacity.Some? && |all| > capacity.value {
      var gone, kept := all[..|all| - capacity.value], all[|all| - capacity.value..];
      assert all == gone + kept;
      RemoveConcat(gone, kept, k);
      Apart(gone, kept);
      if k in kept {
        RemoveAbsent(gone, k);
        RemoveOnce(kept, k);
        Appended(gone, Remove(kept, k), k);
        NewestOf(gone, Remove(kept, k) + [k], capacity.value);
      } else {
        RemoveAbsent(kept, k);
        Shifted(Remove(gone, k), kept, k);
        NewestOf(Remove(gone, k) + [kept[0]], kept[1..] + [k], capacity.value);
      }
    } else if k in all {
      RemoveOnce(all, k);
    } else {
      RemoveAbsent(all, k);
    }
  }

  lemma Appended<K(!new)>(a: seq<K>, b: seq<K>, k: K)
    ensures a + b + [k] == a + (b + [k])
  {
  }

  lemma Shifted<K(!new)>(a: seq<K>, b: seq<K>, k: K)
    requires b != []
    ensures a + b + [k] == (a + [b[0]]) + (b[1..] + [k])
  {
  }

  lemma Apart<K(!new)>(a: seq<K>, b: seq<K>)
    requires NoDuplicates(a + b)
    ensures NoDuplicates(b) && forall k :: k in b ==> k !in a
  {
    forall i, j | 0 <= i < |a| && 0 <= j < |b| ensures a[i] != b[j] {
      assert (a + b)[i] == a[i] && (a + b)[|a| + j] == b[j];
    }
    forall i, l | 0 <= i < l < |b| ensures b[i] != b[l] {
      assert (a + b)[|a| + i] == b[i] && (a + b)[|a| + l] == b[l];
    }
  }

  lemma NewestOf<K(!new)>(a: seq<K>, b: seq<K>, n: nat)
    requires |b| == n
    ensures Newest(a + b, Some(n)) == b
  {
  }

  /** After any history of accesses the order holds exactly the most recent distinct keys. */
  lemma TouchIsRecent<K(!new)>(history: seq<K>, k: K, capacity: Option<nat>)
    requires capacity != Some(0)
    ensures Touch(Newest(Recent(history), capacity), k, capacity) == Newest(Recent(history + [k]), capacity)
  {
    RecentHas(history);
    RecentNext(history, k);
    TouchNewest(Recent(history), k, capacity);
  }

  lemma TouchHas<K(!new)>(order: seq<K>, k: K, capacity: Option<nat>)
    requires NoDuplicates(order)
    ensures NoDuplicates(Touch(order, k, capacity)) && k in Touch(order, k, capacity)
    ensures forall x :: x in Touch(order, k, capacity) ==> x == k || x in order
    ensures forall x :: x in order && x !in Touch(order, k, capacity) ==> x == order[0] && k !in order
    ensures capacity.Some? && capacity.value > 0 && |order| <= capacity.value ==> |Touch(order, k, capacity)| <= capacity.value
  {
    hide Remove, NoDuplicates;
    RemoveHas(order, k);
    Extended(order, k);
    if k in order {
      RemoveOnce(order, k);
      DistinctMore(Remove(order, k), k);
      Extended(Remove(order, k), k);
    } else if capacity.Some? && |order| >= capacity.value && order != [] {
      assert order == [order[0]] + order[1..];
      Apart([order[0]], order[1..]);
      DistinctMore(order[1..], k);
      Extended(order[1..], k);
    } else {
      DistinctMore(order, k);
    }
  }

  lemma Extended<K(!new)>(s: seq<K>, k: K)
    ensures forall x :: x in s + [k] <==> x in s || x == k
  {
  }
}
