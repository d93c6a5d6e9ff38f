// Initialization gates and the graph of owners waiting for owners (dependency/registration.py).

module WaitGraphs {
  import opened Prelude

  /** A thread or task that resolves dependencies. */
  type Owner = nat

  datatype GateError = Retired | OwnAsyncProvider | Cycle

  // ---------------------------------------------------------------- chains of waiting owners

  /** The owner `n` edges along from `x`, if the chain is that long. */
  function Hop(waits: map<Owner, Owner>, x: Owner, n: nat): Option<Owner>
    decreases n
  {
    if n == 0 then Some(x)
    else if x in waits then Hop(waits, waits[x], n - 1)
    else None
  }

  ghost predicate Reaches(waits: map<Owner, Owner>, x: Owner, y: Owner) {
    exists n: nat :: Hop(waits, x, n) == Some(y)
  }

  /** No owner waits for itself, directly or through others. */
  ghost predicate Acyclic(waits: map<Owner, Owner>) {
    forall x: Owner, n: nat :: n > 0 ==> Hop(waits, x, n) != Some(x)
  }

  lemma {:induction false} HopAdds(waits: map<Owner, Owner>, x: Owner, m: nat, n: nat)
    requires Hop(waits, x, m).Some?
    ensures Hop(waits, x, m + n) == Hop(waits, Hop(waits, x, m).value, n)
    decreases m
  {
    if m > 0 {
      HopAdds(waits, waits[x], m - 1, n);
    }
  }

  lemma {:induction false} ShorterHop(waits: map<Owner, Owner>, x: Owner, m: nat, n: nat)
    requires Hop(waits, x, n).Some? && m <= n
    ensures Hop(waits, x, m).Some?
    ensures m < n ==> Hop(waits, x, m).value in waits
    decreases n
  {
    if m > 0 {
      ShorterHop(waits, waits[x], m - 1, n - 1);
    }
  }

  /** A chain that never reaches the changed owner is the same in both graphs. */
  lemma {:induction false} SameChain(a: map<Owner, Owner>, b: map<Owner, Owner>, w: Owner, x: Owner, n: nat)
    requires forall y :: y != w ==> (y in a <==> y in b) && (y in a ==> a[y] == b[y])
    requires forall m: nat :: m < n ==> Hop(a, x, m) != Some(w)
    ensures Hop(b, x, n) == Hop(a, x, n)
    decreases n
  {
    if n > 0 {
      assert Hop(a, x, 0) == Some(x);
      if x in a {
        forall m: nat | m < n - 1 ensures Hop(a, a[x], m) != Some(w) {
          assert Hop(a, x, m + 1) == Hop(a, a[x], m);
        }
        SameChain(a, b, w, a[x], n - 1);
      }
    }
  }

  lemma {:induction false} FirstVisit(waits: map<Owner, Owner>, x: Owner, y: Owner, n: nat) returns (k: nat)
    requires Hop(waits, x, n) == Some(y)
    ensures k <= n && Hop(waits, x, k) == Some(y) && forall m: nat :: m < k ==> Hop(waits, x, m) != Some(y)
    decreases n
  {
    if m: nat :| m < n && Hop(waits, x, m) == Some(y) {
      k := FirstVisit(waits, x, y, m);
    } else {
      k := n;
    }
  }

  /** Two graphs that differ at `w` alone agree on what reaches `w`. */
  lemma ReachesSame(a: map<Owner, Owner>, b: map<Owner, Owner>, w: Owner, x: Owner)
    requires forall y :: y != w ==> (y in a <==> y in b) && (y in a ==> a[y] == b[y])
    requires Reaches(a, x, w)
    ensures Reaches(b, x, w)
  {
    var n: nat :| Hop(a, x, n) == Some(w);
    var k := FirstVisit(a, x, w, n);
    SameChain(a, b, w, x, k);
  }

  lemma RemovalKeepsAcyclic(waits: map<Owner, Owner>, w: Owner)
    requires Acyclic(waits)
    ensures Acyclic(waits - {w})
  {
    forall x: Owner, n: nat | n > 0 ensures Hop(waits - {w}, x, n) != Some(x) {
      FewerEdges(waits, w, x, n);
    }
  }

  lemma {:induction false} FewerEdges(waits: map<Owner, Owner>, w: Owner, x: Owner, n: nat)
    ensures Hop(waits - {w}, x, n).Some? ==> Hop(waits - {w}, x, n) == Hop(waits, x, n)
    decreases n
  {
    if n > 0 && x in waits - {w} {
      FewerEdges(waits, w, waits[x], n - 1);
    }
  }

  /** A new edge keeps the graph acyclic exactly when the owner's chain does not reach the waiter. */
  lemma EdgeKeepsAcyclic(waits: map<Owner, Owner>, waiter: Owner, owner: Owner)
    requires Acyclic(waits)
    ensures Acyclic(waits[waiter := owner]) <==> !Reaches(waits, owner, waiter)
  {
    var more := waits[waiter := owner];
    if Reaches(waits, owner, waiter) {
      ReachesSame(waits, more, waiter, owner);
      var n: nat :| Hop(more, owner, n) == Some(waiter);
      assert Hop(more, waiter, n + 1) == Some(waiter);
    } else {
      forall x: Owner, n: nat | n > 0 ensures Hop(more, x, n) != Some(x) {
        NoNewCycle(waits, waiter, owner, x, n);
      }
    }
  }

  lemma NoNewCycle(waits: map<Owner, Owner>, waiter: Owner, owner: Owner, x: Owner, n: nat)
    requires Acyclic(waits) && !Reaches(waits, owner, waiter) && n > 0
    ensures Hop(waits[waiter := owner], x, n) != Some(x)
  {
    var more := waits[waiter := owner];
    if Hop(more, x, n) == Some(x) {
      if m: nat :| m < n && Hop(more, x, m) == Some(waiter) {
        // Going round from the waiter leads back to it, so its new owner reaches it.
        ShorterHop(more, x, m, n);
        HopAdds(more, x, m, n - m);
        HopAdds(more, waiter, n - m, m);
        assert Hop(more, waiter, n) == Hop(more, owner, n - 1) == Some(waiter);
        ReachesSame(more, waits, waiter, owner);
      } else {
        SameChain(more, waits, waiter, x, n);
      }
    }
  }

  /** In an acyclic graph every chain ends at an owner that waits for nobody. */
  lemma {:induction false} ChainEnds(waits: map<Owner, Owner>, x: Owner, n: nat, visited: set<Owner>)
    requires Acyclic(waits) && Hop(waits, x, n).Some?
    requires visited == Visited(waits, x, n)
    ensures exists k: nat :: Hop(waits, x, k).Some? && Hop(waits, x, k).value !in waits
    decreases waits.Keys - visited
  {
    var y := Hop(waits, x, n).value;
    if y in waits {
      NotVisited(waits, x, n);
      HopAdds(waits, x, n, 1);
      assert Hop(waits, y, 1) == Hop(waits, waits[y], 0);
      assert Hop(waits, x, n + 1) == Some(waits[y]);
      ChainEnds(waits, x, n + 1, visited + {y});
    }
  }

  ghost function Visited(waits: map<Owner, Owner>, x: Owner, n: nat): set<Owner>
    decreases n
  {
    if n == 0 then {}
    else Visited(waits, x, n - 1) + (if Hop(waits, x, n - 1).Some? then {Hop(waits, x, n - 1).value} else {})
  }

  lemma {:induction false} VisitedMeans(waits: map<Owner, Owner>, x: Owner, n: nat, y: Owner)
    ensures y in Visited(waits, x, n) <==> SeenBefore(waits, x, n, y)
    decreases n
  {
    if n > 0 {
      VisitedMeans(waits, x, n - 1, y);
      assert SeenBefore(waits, x, n, y) <==> SeenBefore(waits, x, n - 1, y) || Hop(waits, x, n - 1) == Some(y);
    }
  }

  ghost predicate SeenBefore(waits: map<Owner, Owner>, x: Owner, n: nat, y: Owner) {
    exists m: nat :: m < n && Hop(waits, x, m) == Some(y)
  }

  /** The walk never comes back to where it was. */
  lemma NotVisited(waits: map<Owner, Owner>, x: Owner, n: nat)
    requires Acyclic(waits) && Hop(waits, x, n).Some?
    ensures Hop(waits, x, n).value !in Visited(waits, x, n)
  {
    var y := Hop(waits, x, n).value;
    VisitedMeans(waits, x, n, y);
    if m: nat :| m < n && Hop(waits, x, m) == Some(y) {
      HopAdds(waits, x, m, n - m);
    }
  }

  /** Every chain of waiting owners ends at an owner that waits for nobody. */
  lemma EveryChainEnds(waits: map<Owner, Owner>, x: Owner)
    requires Acyclic(waits)
    ensures exists y :: Reaches(waits, x, y) && y !in waits
  {
    ChainEnds(waits, x, 0, {});
    var k: nat :| Hop(waits, x, k).Some? && Hop(waits, x, k).value !in waits;
    assert Reaches(waits, x, Hop(waits, x, k).value);
  }

  /** No group of owners waits only for members of the group. */
  lemma NoCircularWait(waits: map<Owner, Owner>, group: set<Owner>)
    requires Acyclic(waits) && group != {}
    ensures exists x :: x in group && (x !in waits || waits[x] !in group)
  {
    if forall x :: x in group ==> x in waits && waits[x] in group {
      var x :| x in group;
      ChainEnds(waits, x, 0, {});
      var k: nat :| Hop(waits, x, k).Some? && Hop(waits, x, k).value !in waits;
      StaysInside(waits, group, x, k);
    }
  }

  lemma {:induction false} StaysInside(waits: map<Owner, Owner>, group: set<Owner>, x: Owner, n: nat)
    requires x in group && forall y :: y in group ==> y in waits && waits[y] in group
    ensures Hop(waits, x, n).Some? && Hop(waits, x, n).value in group
    decreases n
  {
    if n > 0 {
      StaysInside(waits, group, waits[x], n - 1);
    }
  }

  // ---------------------------------------------------------------- the shared graph

  /** The one graph that all gates share. */
  class WaitGraph {
    var waits: map<Owner, Owner>

    ghost predicate Valid()
      reads this
    {
      Acyclic(waits)
    }

    constructor ()
      ensures Valid() && waits == map[]
    {
      waits := map[];
      new;
      forall x: Owner, n: nat | n > 0 ensures Hop(map[], x, n) != Some(x) {
      }
    }

    /** Walks from the owner; records the wait unless the walk meets the waiter. */
    method TryWait(waiter: Owner, owner: Owner) returns (ok: bool)
      requires Valid()
      modifies this
      ensures Valid()
      ensures ok <==> !Reaches(old(waits), owner, waiter)
      ensures waits == if ok then old(waits)[waiter := owner] else old(waits)
    {
      var current := Some(owner);
      ghost var n := 0;
      assert Hop(waits, owner, 0) == Some(owner);
      while current.Some?
        invariant waits == old(waits)
        invariant current == Hop(waits, owner, n)
        invariant forall m: nat :: m < n ==> Hop(waits, owner, m) != Some(waiter)
        decreases if current.Some? then waits.Keys - Visited(waits, owner, n) else {}, current.Some?
      {
        if current.value == waiter {
          return false;
        }
        NotVisited(waits, owner, n);
        VisitedMeans(waits, owner, n + 1, current.value);
        HopAdds(waits, owner, n, 1);
        assert Hop(waits, current.value, 1) == if current.value in waits then Some(waits[current.value]) else None;
        current := if current.value in waits then Some(waits[current.value]) else None;
        n := n + 1;
      }
      if Reaches(waits, owner, waiter) {
        var k: nat :| Hop(waits, owner, k) == Some(waiter);
        ShorterHop(waits, owner, if n <= k then n else k, k);
      }
      EdgeKeepsAcyclic(waits, waiter, owner);
      waits := waits[waiter := owner];
      return true;
    }

    method EndWait(waiter: Owner)
      requires Valid()
      modifies this
      ensures Valid() && waits == old(waits) - {waiter}
    {
      RemovalKeepsAcyclic(waits, waiter);
      waits := waits - {waiter};
    }
  }

  /** One cached value, initialized by one owner at a time. */
  class InitializationGate {
    var initializing: bool
    var ownerAsync: bool
    var owner: Option<Owner>
    var retired: bool

    ghost predicate Valid()
      reads this
    {
      (initializing <==> owner.Some?) && (ownerAsync ==> initializing)
    }

    constructor ()
      ensures Valid() && !initializing && !retired
    {
      initializing, ownerAsync, owner, retired := false, false, None, false;
    }

    /** Becomes the initializing owner, unless there is one. */
    method Claim(who: Owner, asynchronous: bool) returns (r: Result<bool, GateError>)
      requires Valid()
      modifies this
      ensures Valid() && retired == old(retired)
      ensures r == if old(retired) then Err(Retired) else Ok(!old(initializing))
      ensures if r == Ok(true) then owner == Some(who) && ownerAsync == asynchronous
              else owner == old(owner) && ownerAsync == old(ownerAsync)
    {
      if retired {
        return Err(Retired);
      }
      if initializing {
        return Ok(false);
      }
      initializing, ownerAsync, owner := true, asynchronous, Some(who);
      return Ok(true);
    }

    /** Records that `waiter` waits for the current owner; refuses what could never end. */
    method WaitBegin(graph: WaitGraph, waiter: Owner) returns (refusal: Option<GateError>)
      requires Valid() && graph.Valid()
      modifies graph
      ensures graph.Valid()
      ensures refusal ==
              if ownerAsync && owner == Some(waiter) then Some(OwnAsyncProvider)
              else if owner.Some? && Reaches(old(graph.waits), owner.value, waiter) then Some(Cycle)
              else None
      ensures graph.waits ==
              if refusal.None? && owner.Some? then old(graph.waits)[waiter := owner.value] else old(graph.waits)
    {
      if initializing && ownerAsync && owner == Some(waiter) {
        return Some(OwnAsyncProvider);
      }
      if owner.Some? {
        var ok := graph.TryWait(waiter, owner.value);
        if !ok {
          return Some(Cycle);
        }
      }
      return None;
    }

    /** After the wake-up: forgets the wait, and reports a gate retired meanwhile. */
    method WaitEnd(graph: WaitGraph, waiter: Owner) returns (refusal: Option<GateError>)
      requires Valid() && graph.Valid() && !initializing
      modifies graph
      ensures graph.Valid() && graph.waits == old(graph.waits) - {waiter}
      ensures refusal == if retired then Some(Retired) else None
    {
      graph.EndWait(waiter);
      return if retired then Some(Retired) else None;
    }

    method Release()
      requires Valid()
      modifies this
      ensures Valid() && !initializing && owner == None && retired == old(retired)
    {
      initializing, ownerAsync, owner := false, false, None;
    }

    /** From now on every claim is refused; an initialization in progress goes on. */
    method BeginRetire()
      requires Valid()
      modifies `retired
      ensures Valid() && retired
    {
      retired := true;
    }

    method Reactivate()
      requires Valid()
      modifies `retired
      ensures Valid() && !retired
    {
      retired := false;
    }
  }
}
