// Ownership of cached resources, and their disposal across shutdown retries
// (dependency/lifecycle.py, dependency/container.py).

module ResourceShutdown {
  import opened Prelude

  /** A resource, by identity. */
  type Resource = nat

  datatype Close = Close(resource: Resource, ok: bool)

  datatype Outcome = Closed | AsyncOnly(resource: Resource) | Failed(errors: seq<Resource>)

  // ---------------------------------------------------------------- sequences

  function Reverse(s: seq<Resource>): (r: seq<Resource>)
    ensures |r| == |s|
  {
    if s == [] then [] else [s[|s| - 1]] + Reverse(s[..|s| - 1])
  }

  /** The members of `s` that are in `xs`, in the order of `s`. */
  function Keep(s: seq<Resource>, xs: set<Resource>): seq<Resource> {
    if s == [] then []
    else
      var rest := Keep(s[..|s| - 1], xs);
      if s[|s| - 1] in xs then rest + [s[|s| - 1]] else rest
  }

  lemma KeepOneMore(s: seq<Resource>, x: Resource, xs: set<Resource>)
    ensures Keep(s + [x], xs) == if x in xs then Keep(s, xs) + [x] else Keep(s, xs)
  {
    assert (s + [x])[..|s|] == s;
  }

  lemma {:induction false} KeepHas(s: seq<Resource>, xs: set<Resource>)
    ensures forall x :: x in Keep(s, xs) <==> x in s && x in xs
    ensures NoDuplicates(s) ==> NoDuplicates(Keep(s, xs))
  {
    if s != [] {
      var n := |s| - 1;
      KeepHas(s[..n], xs);
      assert forall x :: x in s <==> x in s[..n] || x == s[n];
      assert NoDuplicates(s) ==> s[n] !in s[..n];
    }
  }

  lemma {:induction false} ReverseHas(s: seq<Resource>)
    ensures forall x :: x in Reverse(s) <==> x in s
    ensures forall k :: 0 <= k < |s| ==> Reverse(s)[k] == s[|s| - 1 - k]
  {
    if s != [] {
      var n := |s| - 1;
      ReverseHas(s[..n]);
      assert forall x :: x in s <==> x in s[..n] || x == s[n];
    }
  }

  lemma ReverseKeepsDistinct(s: seq<Resource>)
    requires NoDuplicates(s)
    ensures NoDuplicates(Reverse(s))
  {
    ReverseHas(s);
  }

  /** Only the members that occur matter. */
  lemma {:induction false} KeepSame(s: seq<Resource>, xs: set<Resource>, ys: set<Resource>)
    requires forall x :: x in s ==> (x in xs <==> x in ys)
    ensures Keep(s, xs) == Keep(s, ys)
  {
    if s != [] {
      KeepSame(s[..|s| - 1], xs, ys);
    }
  }

  lemma {:induction false} KeepEverything(s: seq<Resource>, xs: set<Resource>)
    requires forall x :: x in s ==> x in xs
    ensures Keep(s, xs) == s
  {
    if s != [] {
      KeepEverything(s[..|s| - 1], xs);
      assert s == s[..|s| - 1] + [s[|s| - 1]];
    }
  }

  lemma {:induction false} KeepNothing(s: seq<Resource>, xs: set<Resource>)
    requires forall x :: x in s ==> x !in xs
    ensures Keep(s, xs) == []
  {
    if s != [] {
      KeepNothing(s[..|s| - 1], xs);
    }
  }

  lemma {:induction false} KeepConcat(a: seq<Resource>, b: seq<Resource>, xs: set<Resource>)
    ensures Keep(a + b, xs) == Keep(a, xs) + Keep(b, xs)
    decreases |b|
  {
    if b == [] {
      assert a + b == a;
    } else {
      var n := |b| - 1;
      KeepConcat(a, b[..n], xs);
      assert a + b == (a + b[..n]) + [b[n]];
      KeepOneMore(a + b[..n], b[n], xs);
    }
  }

  lemma {:induction false} KeepTwice(s: seq<Resource>, xs: set<Resource>, ys: set<Resource>)
    ensures Keep(Keep(s, xs), ys) == Keep(s, xs * ys)
  {
    if s != [] {
      KeepTwice(s[..|s| - 1], xs, ys);
      if s[|s| - 1] in xs {
        KeepOneMore(Keep(s[..|s| - 1], xs), s[|s| - 1], ys);
      }
    }
  }

  lemma {:induction false} KeepReversed(s: seq<Resource>, xs: set<Resource>)
    ensures Keep(Reverse(s), xs) == Reverse(Keep(s, xs))
  {
    if s != [] {
      var n := |s| - 1;
      KeepReversed(s[..n], xs);
      KeepConcat([s[n]], Reverse(s[..n]), xs);
      assert [s[n]][..0] == [];
      if s[n] in xs {
        var kept := Keep(s[..n], xs);
        assert (kept + [s[n]])[..|kept|] == kept;
      }
    }
  }

  /** What is kept stays in its order. */
  lemma {:induction false} KeepInOrder(s: seq<Resource>, xs: set<Resource>, i: nat, j: nat) returns (a: nat, b: nat)
    requires i < j < |s| && s[i] in xs && s[j] in xs
    ensures a < b < |Keep(s, xs)| && Keep(s, xs)[a] == s[i] && Keep(s, xs)[b] == s[j]
    decreases |s|
  {
    var n := |s| - 1;
    if j < n {
      a, b := KeepInOrder(s[..n], xs, i, j);
    } else {
      a := KeepMember(s[..n], xs, i);
      b := |Keep(s[..n], xs)|;
    }
  }

  lemma {:induction false} KeepMember(s: seq<Resource>, xs: set<Resource>, i: nat) returns (a: nat)
    requires i < |s| && s[i] in xs
    ensures a < |Keep(s, xs)| && Keep(s, xs)[a] == s[i]
    decreases |s|
  {
    var n := |s| - 1;
    if i < n {
      a := KeepMember(s[..n], xs, i);
    } else {
      a := |Keep(s[..n], xs)|;
    }
  }

  // ---------------------------------------------------------------- shutdown over retries

  /** One attempt closes what is owned, newest first; closing the members of `failing` raises. */
  function Closes(order: seq<Resource>, failing: set<Resource>): seq<Close> {
    if order == [] then []
    else [Close(order[|order| - 1], order[|order| - 1] !in failing)] + Closes(order[..|order| - 1], failing)
  }

  /** All closes over a sequence of attempts, and what stays owned. */
  function Retried(order: seq<Resource>, attempts: seq<set<Resource>>): (seq<Close>, seq<Resource>)
    decreases |attempts|
  {
    if attempts == [] then ([], order)
    else
      var before := Retried(order, attempts[..|attempts| - 1]);
      var failing := attempts[|attempts| - 1];
      (before.0 + Closes(before.1, failing), Keep(before.1, failing))
  }

  lemma {:induction false} ClosesReverse(order: seq<Resource>, failing: set<Resource>)
    ensures |Closes(order, failing)| == |order|
    ensures forall k :: 0 <= k < |order| ==>
              Closes(order, failing)[k] == Close(order[|order| - 1 - k], order[|order| - 1 - k] !in failing)
  {
    if order != [] {
      ClosesReverse(order[..|order| - 1], failing);
    }
  }

  /** No resource is closed successfully twice, and none that is still owned was. */
  ghost predicate ClosedOnce(closes: seq<Close>, order: seq<Resource>) {
    && (forall i, j :: 0 <= i < j < |closes| && closes[i].ok && closes[j].ok ==> closes[i].resource != closes[j].resource)
    && (forall i :: 0 <= i < |closes| && closes[i].ok ==> closes[i].resource !in order)
  }

  lemma AttemptKeepsClosedOnce(closes: seq<Close>, order: seq<Resource>, failing: set<Resource>)
    requires ClosedOnce(closes, order) && NoDuplicates(order)
    ensures ClosedOnce(closes + Closes(order, failing), Keep(order, failing))
  {
    ClosesReverse(order, failing);
    KeepHas(order, failing);
    var all := closes + Closes(order, failing);
    forall i | |closes| <= i < |all| ensures all[i].resource in order && all[i].ok == (all[i].resource !in failing) {
      assert all[i] == Closes(order, failing)[i - |closes|];
    }
    forall i, j | 0 <= i < j < |all| && all[i].ok && all[j].ok ensures all[i].resource != all[j].resource {
      if i >= |closes| {
        assert order[|order| - 1 - (i - |closes|)] != order[|order| - 1 - (j - |closes|)];
      }
    }
  }

  /** The owned resources whose every close failed. */
  ghost function FailedAlways(order: seq<Resource>, attempts: seq<set<Resource>>): set<Resource> {
    set r | r in order && forall k :: 0 <= k < |attempts| ==> r in attempts[k]
  }

  /**
   * However often shutdown is tried: each resource is closed successfully at most once, those that
   * failed every time stay owned in their original order, and nothing else stays owned.
   */
  lemma {:induction false} RetriesCloseOnce(order: seq<Resource>, attempts: seq<set<Resource>>)
    requires NoDuplicates(order)
    ensures var (closes, left) := Retried(order, attempts);
            && ClosedOnce(closes, left)
            && left == Keep(order, FailedAlways(order, attempts))
            && NoDuplicates(left)
    decreases |attempts|
  {
    KeepHas(order, FailedAlways(order, attempts));
    if attempts == [] {
      KeepEverything(order, FailedAlways(order, attempts));
    } else {
      var n := |attempts| - 1;
      RetriesCloseOnce(order, attempts[..n]);
      var (closes, left) := Retried(order, attempts[..n]);
      AttemptKeepsClosedOnce(closes, left, attempts[n]);
      KeepTwice(order, FailedAlways(order, attempts[..n]), attempts[n]);
      assert FailedAlways(order, attempts[..n]) * attempts[n] == FailedAlways(order, attempts);
    }
  }

  // ---------------------------------------------------------------- the tracker

  /** The disposal order of some candidates: owned ones newest first, then the others, last first. */
  ghost function DisposalOrder(order: seq<Resource>, candidates: seq<Resource>): seq<Resource> {
    var owned := Keep(Reverse(order), Members(candidates));
    owned + Unseen(Reverse(candidates), Members(owned))
  }

  function Members(s: seq<Resource>): set<Resource> {
    set r | r in s
  }

  /** The first occurrence of everything in `s` that is not in `seen`. */
  function Unseen(s: seq<Resource>, seen: set<Resource>): seq<Resource>
    decreases |s|
  {
    if s == [] then []
    else if s[0] in seen then Unseen(s[1..], seen)
    else [s[0]] + Unseen(s[1..], seen + {s[0]})
  }

  lemma {:induction false} UnseenHas(s: seq<Resource>, seen: set<Resource>)
    ensures forall r :: r in Unseen(s, seen) <==> r in s && r !in seen
    decreases |s|
  {
    if s != [] {
      assert s == [s[0]] + s[1..];
      UnseenHas(s[1..], seen);
      UnseenHas(s[1..], seen + {s[0]});
    }
  }

  lemma NothingToClaim(xs: set<Resource>, seen: set<Resource>)
    ensures Unseen(Keep([], xs), seen) == []
  {
  }

  lemma {:induction false} UnseenOneMore(s: seq<Resource>, x: Resource, seen: set<Resource>)
    ensures Unseen(s + [x], seen) == if x in seen || x in s then Unseen(s, seen) else Unseen(s, seen) + [x]
    decreases |s|
  {
    if s == [] {
      assert s + [x] == [x];
      assert [x][1..] == [];
    } else {
      assert (s + [x])[0] == s[0] && (s + [x])[1..] == s[1..] + [x];
      assert s == [s[0]] + s[1..];
      UnseenOneMore(s[1..], x, seen);
      UnseenOneMore(s[1..], x, seen + {s[0]});
    }
  }

  lemma {:induction false} UnseenDistinct(s: seq<Resource>, seen: set<Resource>)
    requires NoDuplicates(s) && forall r :: r in s ==> r !in seen
    ensures Unseen(s, seen) == s
    decreases |s|
  {
    if s != [] {
      assert s == [s[0]] + s[1..];
      assert s[0] !in s[1..];
      UnseenDistinct(s[1..], seen + {s[0]});
    }
  }

  /** First occurrences: everything new, once, in the order in which it first occurs. */
  lemma {:induction false} UnseenInOrder(s: seq<Resource>, seen: set<Resource>)
    ensures NoDuplicates(Unseen(s, seen))
    ensures forall x, y, i, j :: FirstAt(s, x, i) && FirstAt(s, y, j) && i < j && x !in seen && y !in seen ==>
              ComesBefore(Unseen(s, seen), x, y)
    decreases |s|
  {
    UnseenHas(s, seen);
    if s != [] {
      assert s == [s[0]] + s[1..];
      var more := if s[0] in seen then seen else seen + {s[0]};
      UnseenInOrder(s[1..], more);
      UnseenHas(s[1..], more);
      forall x, y, i, j | FirstAt(s, x, i) && FirstAt(s, y, j) && i < j && x !in seen && y !in seen
        ensures ComesBefore(Unseen(s, seen), x, y)
      {
        FirstLater(s, seen, x, y, i, j);
      }
    }
  }

  lemma FirstLater(s: seq<Resource>, seen: set<Resource>, x: Resource, y: Resource, i: nat, j: nat)
    requires s != [] && FirstAt(s, x, i) && FirstAt(s, y, j) && i < j && x !in seen && y !in seen
    requires var more := if s[0] in seen then seen else seen + {s[0]};
             && (forall r :: r in Unseen(s[1..], more) <==> r in s[1..] && r !in more)
             && (forall v, w, k, l :: FirstAt(s[1..], v, k) && FirstAt(s[1..], w, l) && k < l && v !in more && w !in more ==>
                   ComesBefore(Unseen(s[1..], more), v, w))
    ensures ComesBefore(Unseen(s, seen), x, y)
  {
    var more := if s[0] in seen then seen else seen + {s[0]};
    var rest := Unseen(s[1..], more);
    assert y != s[0] && s[1..][j - 1] == y;
    assert FirstAt(s[1..], y, j - 1) by {
      assert forall m :: 0 <= m < j - 1 ==> s[1..][m] == s[m + 1];
    }
    if i == 0 {
      assert y in s[1..] && y !in more;
      assert y in rest;
      var b :| 0 <= b < |rest| && rest[b] == y;
      assert Unseen(s, seen)[0] == x && Unseen(s, seen)[b + 1] == y;
    } else {
      assert FirstAt(s[1..], x, i - 1) by {
        assert forall m :: 0 <= m < i - 1 ==> s[1..][m] == s[m + 1];
      }
      assert x != s[0];
      var a, b :| 0 <= a < b < |rest| && rest[a] == x && rest[b] == y;
      if s[0] !in seen {
        assert Unseen(s, seen)[a + 1] == x && Unseen(s, seen)[b + 1] == y;
      }
    }
  }

  ghost predicate FirstAt(s: seq<Resource>, x: Resource, i: nat) {
    i < |s| && s[i] == x && forall j :: 0 <= j < i ==> s[j] != x
  }

  ghost predicate ComesBefore(s: seq<Resource>, x: Resource, y: Resource) {
    exists a, b :: 0 <= a < b < |s| && s[a] == x && s[b] == y
  }

  lemma DistinctTogether(a: seq<Resource>, b: seq<Resource>)
    requires NoDuplicates(a) && NoDuplicates(b) && forall x :: x in b ==> x !in a
    ensures NoDuplicates(a + b)
  {
    forall i, j | 0 <= i < j < |a + b| ensures (a + b)[i] != (a + b)[j] {
      if i < |a| <= j {
        assert a[i] in a && b[j - |a|] in b;
      }
    }
  }

  /**
   * The disposal order lists every candidate once. An owned candidate comes before every one that is not owned, and
   * before the owned ones that are older.
   */
  lemma DisposalOrderMeans(order: seq<Resource>, candidates: seq<Resource>)
    requires NoDuplicates(order)
    ensures var d := DisposalOrder(order, candidates);
            && NoDuplicates(d)
            && (forall r :: r in d <==> r in candidates)
            && (forall x, y :: x in candidates && y in candidates && x in order && y !in order ==> ComesBefore(d, x, y))
            && (forall i, j :: 0 <= i < j < |order| && order[i] in candidates && order[j] in candidates ==>
                  ComesBefore(d, order[j], order[i]))
  {
    var wanted := Members(candidates);
    var newest := Reverse(order);
    var owned := Keep(newest, wanted);
    var others := Unseen(Reverse(candidates), Members(owned));
    var d := DisposalOrder(order, candidates);
    OrderHas(order, candidates);
    ReverseHas(order);
    ReverseHas(candidates);
    ReverseKeepsDistinct(order);
    KeepHas(newest, wanted);
    UnseenHas(Reverse(candidates), Members(owned));
    UnseenInOrder(Reverse(candidates), Members(owned));
    hide Keep, Unseen, Reverse;
    assert d == owned + others;
    DistinctTogether(owned, others);
    hide NoDuplicates;
    forall x, y | x in candidates && y in candidates && x in order && y !in order ensures ComesBefore(d, x, y) {
      var a :| 0 <= a < |owned| && owned[a] == x;
      var b :| 0 <= b < |others| && others[b] == y;
      assert d[a] == x && d[|owned| + b] == y;
    }
    forall i, j | 0 <= i < j < |order| && order[i] in candidates && order[j] in candidates ensures ComesBefore(d, order[j], order[i]) {
      var a, b := KeepInOrder(newest, wanted, |order| - 1 - j, |order| - 1 - i);
      assert d[a] == order[j] && d[b] == order[i];
    }
  }

  class ResourceTracker {
    var creationOrder: seq<Resource>
    var identities: set<Resource>
    var disposing: set<Resource>

    ghost predicate Valid()
      reads this
    {
      && NoDuplicates(creationOrder)
      && identities == Members(creationOrder)
      && disposing <= identities
    }

    constructor ()
      ensures Valid() && creationOrder == [] && disposing == {}
    {
      creationOrder, identities, disposing := [], {}, {};
    }

    method Remember(r: Resource)
      requires Valid()
      modifies this
      ensures Valid() && disposing == old(disposing)
      ensures creationOrder == if r in old(creationOrder) then old(creationOrder) else old(creationOrder) + [r]
    {
      if r !in identities {
        creationOrder := creationOrder + [r];
        identities := identities + {r};
      }
    }

    method Ordered(candidates: seq<Resource>) returns (ordered: seq<Resource>)
      requires Valid()
      ensures ordered == DisposalOrder(creationOrder, candidates)
    {
      ReverseHas(creationOrder);
      ReverseKeepsDistinct(creationOrder);
      var newestFirst := Reverse(creationOrder);
      var wanted := Members(candidates);
      ordered := [];
      var seen: set<Resource> := {};
      for i := 0 to |newestFirst|
        invariant ordered == Keep(newestFirst[..i], wanted)
        invariant seen == Members(ordered)
      {
        var item := newestFirst[i];
        assert newestFirst[..i + 1] == newestFirst[..i] + [item];
        KeepOneMore(newestFirst[..i], item, wanted);
        KeepHas(newestFirst[..i], wanted);
        assert item !in newestFirst[..i];
        if item in wanted && item !in seen {
          ordered := ordered + [item];
          seen := seen + {item};
        }
      }
      assert newestFirst[..|newestFirst|] == newestFirst;
      ordered := AppendUnseen(ordered, Reverse(candidates), seen);
    }

    static method AppendUnseen(first: seq<Resource>, rest: seq<Resource>, given: set<Resource>) returns (ordered: seq<Resource>)
      ensures ordered == first + Unseen(rest, given)
    {
      ordered := first;
      var seen := given;
      for i := 0 to |rest|
        invariant ordered + Unseen(rest[i..], seen) == first + Unseen(rest, given)
      {
        assert rest[i..][0] == rest[i] && rest[i..][1..] == rest[i + 1..];
        if rest[i] !in seen {
          assert ordered + ([rest[i]] + Unseen(rest[i + 1..], seen + {rest[i]}))
              == (ordered + [rest[i]]) + Unseen(rest[i + 1..], seen + {rest[i]});
          ordered := ordered + [rest[i]];
          seen := seen + {rest[i]};
        }
      }
    }

    method Forget(r: Resource)
      requires Valid()
      modifies this
      ensures Valid() && disposing == old(disposing) - {r}
      ensures creationOrder == Keep(old(creationOrder), old(identities) - {r})
      ensures identities == old(identities) - {r}
    {
      KeepHas(creationOrder, identities - {r});
      creationOrder := Keep(creationOrder, identities - {r});
      identities := identities - {r};
      disposing := disposing - {r};
    }

    /** Claims each owned resource for at most one disposal at a time. */
    method Claim(instances: seq<Resource>) returns (claimed: seq<Resource>)
      requires Valid()
      modifies `disposing
      ensures Valid() && disposing == old(disposing) + Members(claimed)
      ensures claimed == Unseen(Keep(instances, identities), old(disposing))
    {
      hide NoDuplicates, Keep, Unseen;
      claimed := [];
      NothingToClaim(identities, disposing);
      for i := 0 to |instances|
        invariant disposing == old(disposing) + Members(claimed)
        invariant disposing <= identities
        invariant claimed == Unseen(Keep(instances[..i], identities), old(disposing))
      {
        var instance := instances[i];
        assert instances[..i + 1] == instances[..i] + [instance];
        KeepOneMore(instances[..i], instance, identities);
        UnseenOneMore(Keep(instances[..i], identities), instance, old(disposing));
        UnseenHas(Keep(instances[..i], identities), old(disposing));
        if instance in identities && instance !in disposing {
          disposing := disposing + {instance};
          claimed := claimed + [instance];
        }
      }
      assert instances[..|instances|] == instances;
    }

    method Release(r: Resource)
      requires Valid()
      modifies `disposing
      ensures Valid() && disposing == old(disposing) - {r}
    {
      disposing := disposing - {r};
    }
  }

  /** Claiming the disposal order of candidates that include everything owned claims all of it, newest first. */
  lemma ClaimsEverything(order: seq<Resource>, candidates: seq<Resource>)
    requires NoDuplicates(order) && forall r :: r in order ==> r in candidates
    ensures Unseen(Keep(DisposalOrder(order, candidates), Members(order)), {}) == Reverse(order)
  {
    hide Unseen, Keep, Reverse, NoDuplicates;
    var newest := Reverse(order);
    ReverseHas(order);
    ReverseKeepsDistinct(order);
    KeepEverything(newest, Members(candidates));
    var rest := Unseen(Reverse(candidates), Members(newest));
    UnseenHas(Reverse(candidates), Members(newest));
    KeepConcat(newest, rest, Members(order));
    KeepEverything(newest, Members(order));
    KeepNothing(rest, Members(order));
    assert newest + [] == newest;
    UnseenDistinct(newest, {});
  }

  lemma OrderHas(order: seq<Resource>, candidates: seq<Resource>)
    ensures forall r :: r in DisposalOrder(order, candidates) <==> r in candidates
  {
    hide Unseen, Keep, Reverse;
    KeepHas(Reverse(order), Members(candidates));
    UnseenHas(Reverse(candidates), Members(Keep(Reverse(order), Members(candidates))));
    ReverseHas(candidates);
  }

  /** Each resource of `s` is closed once, in order; closing the members of `failing` raises. */
  function CloseEach(s: seq<Resource>, failing: set<Resource>): seq<Close> {
    if s == [] then []
    else CloseEach(s[..|s| - 1], failing) + [Close(s[|s| - 1], s[|s| - 1] !in failing)]
  }

  /** One close for each resource, in order, that raises exactly for the failing ones. */
  lemma {:induction false} CloseEachMeans(s: seq<Resource>, failing: set<Resource>)
    ensures |CloseEach(s, failing)| == |s|
    ensures forall k :: 0 <= k < |s| ==> CloseEach(s, failing)[k].resource == s[k] && (CloseEach(s, failing)[k].ok <==> s[k] !in failing)
  {
    if s != [] {
      CloseEachMeans(s[..|s| - 1], failing);
    }
  }

  lemma {:induction false} CloseOneMore(s: seq<Resource>, x: Resource, failing: set<Resource>)
    ensures CloseEach(s + [x], failing) == CloseEach(s, failing) + [Close(x, x !in failing)]
  {
    assert (s + [x])[..|s|] == s;
  }

  lemma {:induction false} CloseEachConcat(a: seq<Resource>, b: seq<Resource>, failing: set<Resource>)
    ensures CloseEach(a + b, failing) == CloseEach(a, failing) + CloseEach(b, failing)
    decreases |b|
  {
    hide CloseEach;
    if b == [] {
      NothingYet(failing);
      assert a + b == a;
    } else {
      var n := |b| - 1;
      assert b == b[..n] + [b[n]];
      assert a + b == (a + b[..n]) + [b[n]];
      CloseEachConcat(a, b[..n], failing);
      CloseOneMore(a + b[..n], b[n], failing);
      CloseOneMore(b[..n], b[n], failing);
    }
  }

  lemma {:induction false} ClosesFromTheEnd(order: seq<Resource>, failing: set<Resource>)
    ensures CloseEach(Reverse(order), failing) == Closes(order, failing)
  {
    if order != [] {
      var n := |order| - 1;
      ClosesFromTheEnd(order[..n], failing);
      CloseEachConcat([order[n]], Reverse(order[..n]), failing);
      assert [order[n]][..0] == [];
    }
  }

  /** What stays owned after the closes of `instances` that did not raise. */
  function StillOwned(order: seq<Resource>, instances: set<Resource>, failing: set<Resource>): seq<Resource> {
    Keep(order, Members(order) - (instances - failing))
  }

  lemma NothingClosed(order: seq<Resource>, failing: set<Resource>)
    ensures StillOwned(order, {}, failing) == order
  {
    var all := Members(order) - ({} - failing);
    KeepEverything(order, all);
  }

  lemma FailureStays(order: seq<Resource>, instances: set<Resource>, x: Resource, failing: set<Resource>)
    requires x in failing
    ensures StillOwned(order, instances + {x}, failing) == StillOwned(order, instances, failing)
  {
    assert (instances + {x}) - failing == instances - failing;
  }

  lemma SuccessLeaves(order: seq<Resource>, instances: set<Resource>, x: Resource, failing: set<Resource>)
    requires x !in failing
    ensures var now := StillOwned(order, instances, failing);
            Keep(now, Members(now) - {x}) == StillOwned(order, instances + {x}, failing)
  {
    var now := StillOwned(order, instances, failing);
    var before := Members(order) - (instances - failing);
    KeepHas(order, before);
    var others := Members(now) - {x};
    KeepTwice(order, before, others);
    var both, after := before * others, Members(order) - (instances + {x} - failing);
    KeepSame(order, both, after);
  }

  lemma AllClaimed(order: seq<Resource>, failing: set<Resource>)
    ensures Members(Reverse(order)) == Members(order)
    ensures StillOwned(order, Members(Reverse(order)), failing) == Keep(order, failing)
  {
    ReverseHas(order);
    var left := Members(order) - (Members(Reverse(order)) - failing);
    KeepSame(order, left, failing);
  }

  // ---------------------------------------------------------------- the container

  class DependencyContainer {
    const tracker: ResourceTracker
    /** Values in the scope cache, then instances and singletons of the providers. */
    var cached: seq<Resource>
    var closed: bool
    var cleanupFailed: bool
    ghost var closes: seq<Close>

    ghost predicate Valid()
      reads this, tracker
    {
      && tracker.Valid()
      && tracker.disposing == {}
      && (closed ==> tracker.creationOrder == [] && !cleanupFailed)
    }

    constructor ()
      ensures Valid() && fresh(tracker) && !closed && !cleanupFailed && tracker.creationOrder == [] && closes == []
    {
      tracker := new ResourceTracker();
      cached, closed, cleanupFailed, closes := [], false, false, [];
    }

    /** Caches a value and owns it; refused once the container is closed or a cleanup has failed. */
    method Store(r: Resource) returns (ok: bool)
      requires Valid()
      modifies this, tracker
      ensures Valid() && ok == (!old(closed) && !old(cleanupFailed))
      ensures closed == old(closed) && cleanupFailed == old(cleanupFailed) && closes == old(closes)
      ensures tracker.creationOrder ==
              if ok && r !in old(tracker.creationOrder) then old(tracker.creationOrder) + [r] else old(tracker.creationOrder)
      ensures cached == if ok then old(cached) + [r] else old(cached)
    {
      if closed || cleanupFailed {
        return false;
      }
      cached := cached + [r];
      tracker.Remember(r);
      return true;
    }

    /** The first candidate that only an async shutdown can close. */
    method FindAsyncOnly(candidates: seq<Resource>, isAsync: set<Resource>) returns (found: Option<Resource>)
      ensures found.Some? ==> found.value in candidates && found.value in isAsync
      ensures found.None? ==> forall r :: r in candidates ==> r !in isAsync
    {
      for i := 0 to |candidates|
        invariant forall k :: 0 <= k < i ==> candidates[k] !in isAsync
      {
        if candidates[i] in isAsync {
          return Some(candidates[i]);
        }
      }
      return None;
    }

    /** One shutdown attempt. Closing the members of `failing` raises, this time. */
    method Shutdown(isAsync: set<Resource>, failing: set<Resource>) returns (outcome: Outcome)
      requires Valid()
      modifies this, tracker
      ensures Valid()
      ensures old(closed) ==> outcome == Closed && closed && closes == old(closes)
      ensures !old(closed) ==>
                (outcome.AsyncOnly? <==> exists r :: (r in old(tracker.creationOrder) || r in old(cached)) && r in isAsync)
      ensures outcome.AsyncOnly? ==>
                && tracker.creationOrder == old(tracker.creationOrder) && cached == old(cached) && closes == old(closes)
                && !closed && cleanupFailed == old(cleanupFailed)
      ensures !old(closed) && !outcome.AsyncOnly? ==>
                && closes == old(closes) + Closes(old(tracker.creationOrder), failing)
                && tracker.creationOrder == Keep(old(tracker.creationOrder), failing)
                && cached == []
                && outcome == (if tracker.creationOrder == [] then Closed else Failed(Reverse(tracker.creationOrder)))
                && closed == (tracker.creationOrder == [])
                && cleanupFailed == !closed
    {
      hide NoDuplicates, Keep, Unseen, Closes, CloseEach, StillOwned, DisposalOrder, Reverse;
      if closed {
        return Closed;
      }
      var order := tracker.creationOrder;
      var candidates := tracker.Ordered(cached + order);
      OrderHas(order, cached + order);
      var asyncOnly := FindAsyncOnly(candidates, isAsync);
      if asyncOnly.Some? {
        return AsyncOnly(asyncOnly.value);
      }
      forall r | r in order || r in cached ensures r !in isAsync {
        assert r in candidates;
      }
      cached := [];
      var again := tracker.Ordered(candidates);
      ClaimsEverything(order, candidates);
      var claimed := tracker.Claim(again);
      ReverseHas(order);
      ReverseKeepsDistinct(order);
      UnseenDistinct(claimed, {});
      ClosesFromTheEnd(order, failing);
      KeepReversed(order, failing);
      AllClaimed(order, failing);
      var errors := DisposeMany(claimed, failing);
      closed := errors == [];
      cleanupFailed := errors != [];
      return if errors == [] then Closed else Failed(errors);
    }

    /**
     * Closes each given resource once, in order, whatever the others do; the closed ones are no longer
     * owned, the others are released.
     */
    method DisposeMany(instances: seq<Resource>, failing: set<Resource>) returns (errors: seq<Resource>)
      requires tracker.Valid()
      modifies tracker, `closes
      ensures tracker.Valid() && tracker.disposing == old(tracker.disposing) - Members(instances)
      ensures closes == old(closes) + CloseEach(Unseen(instances, {}), failing)
      ensures errors == Keep(Unseen(instances, {}), failing)
      ensures tracker.creationOrder == StillOwned(old(tracker.creationOrder), Members(instances), failing)
    {
      hide Keep, NoDuplicates, Unseen, CloseEach, StillOwned;
      ghost var order := tracker.creationOrder;
      errors := [];
      var seen: set<Resource> := {};
      NothingClosed(order, failing);
      NothingYet(failing);
      for i := 0 to |instances|
        invariant tracker.Valid() && seen == Members(instances[..i])
        invariant tracker.disposing == old(tracker.disposing) - seen
        invariant closes == old(closes) + CloseEach(Unseen(instances[..i], {}), failing)
        invariant errors == Keep(Unseen(instances[..i], {}), failing)
        invariant tracker.creationOrder == StillOwned(order, seen, failing)
      {
        var instance := instances[i];
        assert instances[..i + 1] == instances[..i] + [instance];
        UnseenOneMore(instances[..i], instance, {});
        CloseOneMore(Unseen(instances[..i], {}), instance, failing);
        KeepOneMore(Unseen(instances[..i], {}), instance, failing);
        if instance !in seen {
          DisposeOne(instance, instance !in failing, order, seen, failing);
          seen := seen + {instance};
          if instance in failing {
            errors := errors + [instance];
          }
        }
      }
      assert instances[..|instances|] == instances;
    }

    /** Closes one resource; on success it is forgotten, otherwise released. */
    method DisposeOne(instance: Resource, ok: bool, ghost order: seq<Resource>, ghost seen: set<Resource>, ghost failing: set<Resource>)
      requires tracker.Valid() && ok == (instance !in failing)
      requires tracker.creationOrder == StillOwned(order, seen, failing)
      modifies tracker, `closes
      ensures tracker.Valid() && tracker.disposing == old(tracker.disposing) - {instance}
      ensures tracker.creationOrder == StillOwned(order, seen + {instance}, failing)
      ensures closes == old(closes) + [Close(instance, ok)]
    {
      hide Keep, NoDuplicates, StillOwned;
      closes := closes + [Close(instance, ok)];
      if ok {
        SuccessLeaves(order, seen, instance, failing);
        tracker.Forget(instance);
      } else {
        FailureStays(order, seen, instance, failing);
        tracker.Release(instance);
      }
    }
  }

  lemma NothingYet(failing: set<Resource>)
    ensures Unseen([], {}) == [] && CloseEach([], failing) == [] && Keep([], failing) == [] && Members([]) == {}
  {
  }
}
