// A subscriber that replays history while publishers go on publishing (events/event_bus.py).
//
// The system is seen from one subscriber. Publications are numbered; `wanted` is the subscriber's
// filter. Every lock-protected section of a publisher or of the subscribing thread is one step.

module EventReplay {
  import opened Prelude

  type Event = nat

  // ---------------------------------------------------------------- the subscriber record

  datatype Sub = Sub(active: bool, remaining: Option<nat>, replaying: bool, pending: seq<Event>)

  /** Can the subscriber still take a delivery? */
  predicate Live(sub: Sub) {
    sub.active && sub.remaining != Some(0)
  }

  /** Reserves one delivery. */
  function Claimed(sub: Sub): Sub {
    if Live(sub) && sub.remaining.Some? then sub.(remaining := Some(sub.remaining.value - 1)) else sub
  }

  class Subscriber {
    const bufferLimit: nat
    var active: bool
    var remaining: Option<nat>
    var replaying: bool
    var pending: seq<Event>

    ghost function View(): Sub
      reads this
    {
      Sub(active, remaining, replaying, pending)
    }

    constructor (remaining: Option<nat>, replaying: bool, bufferLimit: nat)
      ensures View() == Sub(true, remaining, replaying, []) && this.bufferLimit == bufferLimit
    {
      this.active, this.remaining, this.replaying, this.pending := true, remaining, replaying, [];
      this.bufferLimit := bufferLimit;
    }

    /** Reserves one delivery, and says whether it is the last one. */
    method Claim() returns (claimed: bool, final: bool)
      modifies this
      ensures claimed == old(Live(View())) && View() == Claimed(old(View()))
      ensures claimed <==> old(active) && old(remaining) != Some(0)
      ensures remaining == if claimed && old(remaining).Some? then Some(old(remaining).value - 1) else old(remaining)
      ensures active == old(active) && replaying == old(replaying) && pending == old(pending)
      ensures final == (claimed && remaining == Some(0))
    {
      if !active {
        return false, false;
      }
      if remaining.None? {
        return true, false;
      }
      if remaining.value == 0 {
        return false, false;
      }
      remaining := Some(remaining.value - 1);
      return true, remaining.value == 0;
    }

    /** Keeps an event that arrives during the replay; None, which stands for an overflow, only when the buffer is full. */
    method BufferIfReplaying(e: Event) returns (buffered: Option<bool>)
      modifies this
      ensures (View(), buffered) == Buffered(old(View()), e, bufferLimit)
      ensures buffered.None? <==> old(replaying) && |old(pending)| >= bufferLimit
      ensures buffered == Some(true) <==> old(replaying) && |old(pending)| < bufferLimit
      ensures buffered == Some(false) <==> !old(replaying)
      ensures pending == if buffered == Some(true) then old(pending) + [e] else old(pending)
      ensures active == old(active) && remaining == old(remaining) && replaying == old(replaying)
    {
      if !replaying {
        return Some(false);
      }
      if |pending| >= bufferLimit {
        return None;
      }
      pending := pending + [e];
      return Some(true);
    }

    /** Takes what arrived during the replay, or ends the replay. */
    method FinishReplay() returns (events: Option<seq<Event>>)
      modifies this
      ensures (View(), events) == Finished(old(View()))
      ensures events.None? <==> old(pending) == []
      ensures events.Some? ==> events.value == old(pending)
      ensures pending == [] && replaying == (old(replaying) && events.Some?)
      ensures active == old(active) && remaining == old(remaining)
    {
      if pending != [] {
        events := Some(pending);
        pending := [];
      } else {
        replaying := false;
        events := None;
      }
    }
  }

  function Buffered(sub: Sub, e: Event, limit: nat): (Sub, Option<bool>) {
    if !sub.replaying then (sub, Some(false))
    else if |sub.pending| >= limit then (sub, None)
    else (sub.(pending := sub.pending + [e]), Some(true))
  }

  function Finished(sub: Sub): (Sub, Option<seq<Event>>) {
    if sub.pending != [] then (sub.(pending := []), Some(sub.pending))
    else (sub.(replaying := false), None)
  }

  // ---------------------------------------------------------------- history and the replay tail

  function Range(lo: nat, hi: nat): seq<Event> {
    if lo >= hi then [] else Range(lo, hi - 1) + [hi - 1]
  }

  function Filter(s: seq<Event>, wanted: Event -> bool): seq<Event> {
    if s == [] then []
    else
      var rest := Filter(s[..|s| - 1], wanted);
      if wanted(s[|s| - 1]) then rest + [s[|s| - 1]] else rest
  }

  /** What a bounded history holds after `published` publications. */
  function Retained(published: nat, capacity: nat): seq<Event> {
    Range(if published > capacity then published - capacity else 0, published)
  }

  /** The last `replay` matching events of the history. */
  function Tail(published: nat, capacity: nat, replay: nat, wanted: Event -> bool): seq<Event> {
    var matching := Filter(Retained(published, capacity), wanted);
    if |matching| > replay then matching[|matching| - replay..] else matching
  }

  // ---------------------------------------------------------------- the system

  /** A publication on its way to the subscriber: being routed, or to be delivered directly. */
  datatype InFlight = InFlight(event: Event, routed: bool)

  /** The subscribing thread. */
  datatype Reader = Replaying(batch: seq<Event>) | Done

  datatype State = State(
    capacity: Option<nat>,
    bufferLimit: nat,
    published: nat,
    sub: Option<Sub>,
    reader: Reader,
    flights: seq<InFlight>,
    tail: seq<Event>,
    since: nat,
    limit: Option<nat>,
    handed: seq<Event>)

  datatype Step =
    | Subscribe(replay: nat, limit: Option<nat>)
    | Publish(stale: bool)
    | Route(flight: nat)
    | Deliver(flight: nat)
    | ReplayNext(stopAfter: bool)
    | ReplayFinish
    | Cancel

  /** `history` is the capacity of the history, if there is one. */
  function Initial(history: Option<nat>, bufferLimit: nat): State {
    State(history, bufferLimit, 0, None, Done, [], [], 0, None, [])
  }

  function Without<T>(s: seq<T>, k: nat): seq<T>
    requires k < |s|
  {
    s[..k] + s[k + 1..]
  }

  /** Hands an event to the callback if a delivery can be reserved. */
  function Hand(s: State, e: Event): State
    requires s.sub.Some?
  {
    s.(sub := Some(Claimed(s.sub.value)), handed := if Live(s.sub.value) then s.handed + [e] else s.handed)
  }

  function Apply(s: State, e: Step, wanted: Event -> bool): State {
    match e
    case Subscribe(replay, limit) =>
      if s.sub.Some? || limit == Some(0) then s
      else
        var replaying := replay > 0 && s.capacity.Some?;
        var tail := if replaying then Tail(s.published, s.capacity.value, replay, wanted) else [];
        s.(sub := Some(Sub(true, limit, replaying, [])), limit := limit, tail := tail, since := s.published,
           reader := if replaying then Replaying(tail) else Done)
    case Publish(stale) =>
      var listed := s.sub.Some? && (s.sub.value.active || stale);
      s.(published := s.published + 1,
         flights := if listed && wanted(s.published) then s.flights + [InFlight(s.published, false)] else s.flights)
    case Route(k) =>
      if k >= |s.flights| || s.flights[k].routed || s.sub.None? then s
      else if !s.sub.value.active then s.(flights := Without(s.flights, k))
      else
        var (sub, buffered) := Buffered(s.sub.value, s.flights[k].event, s.bufferLimit);
        if buffered.None? then s.(sub := Some(sub.(active := false)), flights := Without(s.flights, k))
        else if buffered.value then s.(sub := Some(sub), flights := Without(s.flights, k))
        else s.(flights := s.flights[k := s.flights[k].(routed := true)])
    case Deliver(k) =>
      if k >= |s.flights| || !s.flights[k].routed || s.sub.None? then s
      else Hand(s, s.flights[k].event).(flights := Without(s.flights, k))
    case ReplayNext(stopAfter) =>
      if !s.reader.Replaying? || s.reader.batch == [] || s.sub.None? then s
      else if !Live(s.sub.value) then s.(reader := Replaying([]))
      else
        var t := Hand(s, s.reader.batch[0]);
        if stopAfter then t.(sub := Some(t.sub.value.(active := false)), reader := Done)
        else t.(reader := Replaying(s.reader.batch[1..]))
    case ReplayFinish =>
      if !s.reader.Replaying? || s.reader.batch != [] || s.sub.None? then s
      else
        var (sub, events) := Finished(s.sub.value);
        s.(sub := Some(sub), reader := if events.Some? then Replaying(events.value) else Done)
    case Cancel =>
      if s.sub.None? then s else s.(sub := Some(s.sub.value.(active := false)))
  }

  function Run(s: State, steps: seq<Step>, wanted: Event -> bool): State
    decreases |steps|
  {
    if steps == [] then s else Apply(Run(s, steps[..|steps| - 1], wanted), steps[|steps| - 1], wanted)
  }

  // ---------------------------------------------------------------- what is owed

  /** The replay tail, then every matching event published since. */
  function Owed(s: State, wanted: Event -> bool): seq<Event> {
    s.tail + Filter(Range(s.since, s.published), wanted)
  }

  function Batch(r: Reader): seq<Event> {
    if r.Replaying? then r.batch else []
  }

  ghost function EventBag(flights: seq<InFlight>): multiset<Event> {
    if flights == [] then multiset{}
    else EventBag(flights[..|flights| - 1]) + multiset{flights[|flights| - 1].event}
  }

  ghost function Bag(handed: seq<Event>, batch: seq<Event>, pending: seq<Event>, flights: seq<InFlight>): multiset<Event> {
    multiset(handed) + multiset(batch) + multiset(pending) + EventBag(flights)
  }

  /** Where everything owed is: handed over, in the replay batch, in the buffer, or on its way. */
  ghost function Whereabouts(s: State): multiset<Event>
    requires s.sub.Some?
  {
    Bag(s.handed, Batch(s.reader), s.sub.value.pending, s.flights)
  }

  /** Nothing is anywhere that is not owed, and while the subscriber is live nothing owed is missing. */
  ghost predicate Conserved(s: State, wanted: Event -> bool) {
    && s.since <= s.published
    && (s.sub.None? ==> s.flights == [] && s.handed == [] && s.tail == [] && s.reader.Done?)
    && (s.sub.Some? ==>
          && Whereabouts(s) <= multiset(Owed(s, wanted))
          && (Live(s.sub.value) ==> Whereabouts(s) == multiset(Owed(s, wanted))))
  }

  /** The replay ends only when nothing is left of it; the delivery limit is counted down. */
  ghost predicate Orderly(s: State) {
    && (s.sub.Some? && !s.sub.value.replaying ==> s.sub.value.pending == [] && s.reader == Done)
    && (s.sub.Some? && s.sub.value.active && s.reader.Done? ==> !s.sub.value.replaying)
    && (s.sub.Some? ==> s.sub.value.remaining.Some? == s.limit.Some?)
    && (s.sub.Some? && s.limit.Some? ==> |s.handed| + s.sub.value.remaining.value == s.limit.value)
  }

  // ---------------------------------------------------------------- lemmas about sequences

  lemma {:induction false} RangeHas(lo: nat, hi: nat)
    ensures forall e: Event :: e in Range(lo, hi) <==> lo <= e < hi
    ensures NoDuplicates(Range(lo, hi))
    decreases hi
  {
    if lo < hi {
      RangeHas(lo, hi - 1);
      assert hi - 1 !in Range(lo, hi - 1);
    }
  }

  lemma {:induction false} FilterHas(s: seq<Event>, wanted: Event -> bool)
    ensures forall e :: e in Filter(s, wanted) <==> e in s && wanted(e)
    ensures NoDuplicates(s) ==> NoDuplicates(Filter(s, wanted))
  {
    if s != [] {
      var n := |s| - 1;
      FilterHas(s[..n], wanted);
      assert forall e :: e in s <==> e in s[..n] || e == s[n];
      assert NoDuplicates(s) ==> s[n] !in s[..n];
    }
  }

  lemma FilterOneMore(s: seq<Event>, e: Event, wanted: Event -> bool)
    ensures Filter(s + [e], wanted) == Filter(s, wanted) + (if wanted(e) then [e] else [])
  {
    assert (s + [e])[..|s|] == s;
    assert Filter(s, wanted) + [] == Filter(s, wanted);
  }

  lemma OwedGrows(s: State, wanted: Event -> bool)
    requires s.since <= s.published
    ensures Owed(s.(published := s.published + 1), wanted) ==
            Owed(s, wanted) + (if wanted(s.published) then [s.published] else [])
  {
    var r := Range(s.since, s.published);
    var more := if wanted(s.published) then [s.published] else [];
    assert Range(s.since, s.published + 1) == r + [s.published];
    FilterOneMore(r, s.published, wanted);
    hide Range, Filter;
    Associative(s.tail, Filter(r, wanted), more);
  }

  lemma Associative(a: seq<Event>, b: seq<Event>, c: seq<Event>)
    ensures a + (b + c) == a + b + c
  {
  }

  lemma OwedSame(s: State, t: State, wanted: Event -> bool)
    requires s.tail == t.tail && s.since == t.since && s.published == t.published
    ensures Owed(s, wanted) == Owed(t, wanted)
  {
  }

  // ---------------------------------------------------------------- moving events about

  lemma {:induction false} FlightOut(flights: seq<InFlight>, k: nat)
    requires k < |flights|
    ensures EventBag(flights) == EventBag(Without(flights, k)) + multiset{flights[k].event}
    decreases |flights|
  {
    var n := |flights| - 1;
    if k < n {
      FlightOut(flights[..n], k);
      WithoutLast(flights, k);
      MoreFlights(Without(flights[..n], k), flights[n]);
    } else {
      assert Without(flights, k) == flights[..n];
    }
  }

  lemma WithoutLast(flights: seq<InFlight>, k: nat)
    requires k < |flights| - 1
    ensures Without(flights, k) == Without(flights[..|flights| - 1], k) + [flights[|flights| - 1]]
  {
  }

  lemma MoreFlights(flights: seq<InFlight>, f: InFlight)
    ensures EventBag(flights + [f]) == EventBag(flights) + multiset{f.event}
  {
    assert (flights + [f])[..|flights|] == flights;
  }

  lemma {:induction false} MarkedFlight(flights: seq<InFlight>, k: nat)
    requires k < |flights|
    ensures EventBag(flights[k := flights[k].(routed := true)]) == EventBag(flights)
    decreases |flights|
  {
    var n := |flights| - 1;
    var marked := flights[k := flights[k].(routed := true)];
    if k < n {
      MarkedFlight(flights[..n], k);
      assert marked[..n] == flights[..n][k := flights[k].(routed := true)];
    } else {
      assert marked[..n] == flights[..n];
    }
  }

  lemma BagMoves(h: seq<Event>, b: seq<Event>, p: seq<Event>, f: seq<InFlight>)
    ensures b != [] ==> Bag(h + [b[0]], b[1..], p, f) == Bag(h, b, p, f)
    ensures Bag(h, p, [], f) == Bag(h, [], p, f)
    ensures Bag(h, [], p, f) <= Bag(h, b, p, f)
    ensures forall x: InFlight :: Bag(h, b, p, f + [x]) == Bag(h, b, p, f) + multiset{x.event}
  {
    hide EventBag;
    if b != [] {
      assert b == [b[0]] + b[1..];
    }
    forall x: InFlight ensures EventBag(f + [x]) == EventBag(f) + multiset{x.event} {
      MoreFlights(f, x);
    }
  }

  lemma BagFlights(h: seq<Event>, b: seq<Event>, p: seq<Event>, f: seq<InFlight>, k: nat)
    requires k < |f|
    ensures Bag(h + [f[k].event], b, p, Without(f, k)) == Bag(h, b, p, f)
    ensures Bag(h, b, p + [f[k].event], Without(f, k)) == Bag(h, b, p, f)
    ensures Bag(h, b, p, Without(f, k)) <= Bag(h, b, p, f)
    ensures Bag(h, b, p, f[k := f[k].(routed := true)]) == Bag(h, b, p, f)
  {
    hide EventBag, Without;
    FlightOut(f, k);
    MarkedFlight(f, k);
  }

  // ---------------------------------------------------------------- nothing lost, nothing twice

  /** Events change places; some may be given up once the subscriber is no longer live. */
  lemma MoveKeeps(s: State, t: State, wanted: Event -> bool)
    requires Conserved(s, wanted) && s.sub.Some? && t.sub.Some?
    requires s.tail == t.tail && s.since == t.since && s.published == t.published
    requires Live(t.sub.value) ==> Live(s.sub.value)
    requires Whereabouts(t) == Whereabouts(s) || (!Live(t.sub.value) && Whereabouts(t) <= Whereabouts(s))
    ensures Conserved(t, wanted)
  {
    hide Bag, Owed;
    OwedSame(s, t, wanted);
  }

  lemma SubscribeKeeps(s: State, replay: nat, limit: Option<nat>, wanted: Event -> bool)
    requires Conserved(s, wanted) && Orderly(s)
    ensures Conserved(Apply(s, Subscribe(replay, limit), wanted), wanted)
    ensures Orderly(Apply(s, Subscribe(replay, limit), wanted))
  {
    hide Tail;
    var t := Apply(s, Subscribe(replay, limit), wanted);
    if s.sub.None? && limit != Some(0) {
      assert Range(t.since, t.published) == [];
      assert Owed(t, wanted) == t.tail;
      assert Whereabouts(t) == multiset(Batch(t.reader));
    }
  }

  lemma PublishKeeps(s: State, stale: bool, wanted: Event -> bool)
    requires Conserved(s, wanted) && Orderly(s)
    ensures Conserved(Apply(s, Publish(stale), wanted), wanted)
    ensures Orderly(Apply(s, Publish(stale), wanted))
  {
    hide Owed, Bag, Conserved;
    var t := Apply(s, Publish(stale), wanted);
    SinceIsPast(s, wanted);
    OwedGrows(s, wanted);
    OwedSame(t, s.(published := s.published + 1), wanted);
    if s.sub.Some? {
      BagMoves(s.handed, Batch(s.reader), s.sub.value.pending, s.flights);
      OneMoreOwed(Owed(s, wanted), s.published);
      var more := if wanted(s.published) then [s.published] else [];
      PublishedKeeps(s, t, more, wanted);
    } else {
      NobodyYet(s, t, wanted);
    }
  }

  lemma SinceIsPast(s: State, wanted: Event -> bool)
    requires Conserved(s, wanted)
    ensures s.since <= s.published
  {
  }

  lemma NobodyYet(s: State, t: State, wanted: Event -> bool)
    requires Conserved(s, wanted) && s.sub.None? && t == s.(published := s.published + 1)
    ensures Conserved(t, wanted)
  {
  }

  /** The event joins what is owed, and is on its way if the subscriber is live. */
  lemma PublishedKeeps(s: State, t: State, more: seq<Event>, wanted: Event -> bool)
    requires Conserved(s, wanted) && s.sub.Some? && t.sub == s.sub
    requires t.since == s.since && t.published == s.published + 1
    requires Owed(t, wanted) == Owed(s, wanted) + more
    requires Whereabouts(t) == Whereabouts(s) + multiset(more) || (!Live(s.sub.value) && Whereabouts(t) == Whereabouts(s))
    ensures Conserved(t, wanted)
  {
    hide Owed, Bag;
    assert multiset(Owed(s, wanted) + more) == multiset(Owed(s, wanted)) + multiset(more);
  }

  lemma OneMoreOwed(owed: seq<Event>, e: Event)
    ensures multiset(owed + [e]) == multiset(owed) + multiset{e} && owed + [] == owed
  {
  }

  lemma RouteKeeps(s: State, k: nat, wanted: Event -> bool)
    requires Conserved(s, wanted) && Orderly(s)
    ensures Conserved(Apply(s, Route(k), wanted), wanted)
    ensures Orderly(Apply(s, Route(k), wanted))
  {
    hide Owed, Bag, Without, Conserved;
    if k < |s.flights| && !s.flights[k].routed && s.sub.Some? {
      BagFlights(s.handed, Batch(s.reader), s.sub.value.pending, s.flights, k);
      MoveKeeps(s, Apply(s, Route(k), wanted), wanted);
    }
  }

  lemma DeliverKeeps(s: State, k: nat, wanted: Event -> bool)
    requires Conserved(s, wanted) && Orderly(s)
    ensures Conserved(Apply(s, Deliver(k), wanted), wanted)
    ensures Orderly(Apply(s, Deliver(k), wanted))
  {
    hide Owed, Bag, Without, Conserved;
    if k < |s.flights| && s.flights[k].routed && s.sub.Some? {
      BagFlights(s.handed, Batch(s.reader), s.sub.value.pending, s.flights, k);
      MoveKeeps(s, Apply(s, Deliver(k), wanted), wanted);
    }
  }

  lemma ReplayKeeps(s: State, stopAfter: bool, wanted: Event -> bool)
    requires Conserved(s, wanted) && Orderly(s)
    ensures Conserved(Apply(s, ReplayNext(stopAfter), wanted), wanted)
    ensures Orderly(Apply(s, ReplayNext(stopAfter), wanted))
  {
    hide Owed, Bag, Conserved;
    if s.reader.Replaying? && s.reader.batch != [] && s.sub.Some? {
      var b, p := s.reader.batch, s.sub.value.pending;
      BagMoves(s.handed, b, p, s.flights);
      BagMoves(s.handed + [b[0]], b[1..], p, s.flights);
      MoveKeeps(s, Apply(s, ReplayNext(stopAfter), wanted), wanted);
    }
  }

  lemma FinishKeeps(s: State, wanted: Event -> bool)
    requires Conserved(s, wanted) && Orderly(s)
    ensures Conserved(Apply(s, ReplayFinish, wanted), wanted)
    ensures Orderly(Apply(s, ReplayFinish, wanted))
  {
    hide Owed, Bag, Conserved;
    if s.reader.Replaying? && s.reader.batch == [] && s.sub.Some? {
      BagMoves(s.handed, [], s.sub.value.pending, s.flights);
      MoveKeeps(s, Apply(s, ReplayFinish, wanted), wanted);
    }
  }

  lemma CancelKeeps(s: State, wanted: Event -> bool)
    requires Conserved(s, wanted) && Orderly(s)
    ensures Conserved(Apply(s, Cancel, wanted), wanted) && Orderly(Apply(s, Cancel, wanted))
  {
    hide Owed, Bag, Conserved;
    if s.sub.Some? {
      MoveKeeps(s, Apply(s, Cancel, wanted), wanted);
    }
  }

  lemma StepKeeps(s: State, e: Step, wanted: Event -> bool)
    requires Conserved(s, wanted) && Orderly(s)
    ensures Conserved(Apply(s, e, wanted), wanted) && Orderly(Apply(s, e, wanted))
  {
    hide Conserved, Orderly, Apply;
    match e
    case Subscribe(replay, limit) => SubscribeKeeps(s, replay, limit, wanted);
    case Publish(stale) => PublishKeeps(s, stale, wanted);
    case Route(k) => RouteKeeps(s, k, wanted);
    case Deliver(k) => DeliverKeeps(s, k, wanted);
    case ReplayNext(stopAfter) => ReplayKeeps(s, stopAfter, wanted);
    case ReplayFinish => FinishKeeps(s, wanted);
    case Cancel => CancelKeeps(s, wanted);
  }

  // ---------------------------------------------------------------- what the tail is

  ghost predicate Increasing(s: seq<Event>) {
    forall i, j :: 0 <= i < j < |s| ==> s[i] < s[j]
  }

  lemma AppendGreater(s: seq<Event>, e: Event)
    requires Increasing(s) && forall x :: x in s ==> x < e
    ensures Increasing(s + [e])
  {
    forall i, j | 0 <= i < j < |s + [e]| ensures (s + [e])[i] < (s + [e])[j] {
      if j == |s| {
        assert s[i] in s;
      }
    }
  }

  lemma {:induction false} FilterSorted(s: seq<Event>, wanted: Event -> bool)
    requires Increasing(s)
    ensures Increasing(Filter(s, wanted))
  {
    if s != [] {
      var n := |s| - 1;
      FilterSorted(s[..n], wanted);
      FilterHas(s[..n], wanted);
      AppendGreater(Filter(s[..n], wanted), s[n]);
    }
  }

  lemma {:induction false} RangeSorted(lo: nat, hi: nat)
    ensures Increasing(Range(lo, hi))
    decreases hi
  {
    if lo < hi {
      RangeSorted(lo, hi - 1);
      RangeHas(lo, hi - 1);
      AppendGreater(Range(lo, hi - 1), hi - 1);
    }
  }

  lemma SuffixMeans(m: seq<Event>, d: nat)
    requires Increasing(m) && d <= |m|
    ensures Increasing(m[d..])
    ensures forall e, f :: e in m && e !in m[d..] && f in m[d..] ==> e < f
  {
    assert m == m[..d] + m[d..];
    forall e, f | e in m && e !in m[d..] && f in m[d..] ensures e < f {
      var i :| 0 <= i < d && m[i] == e;
      var j :| 0 <= j < |m[d..]| && m[d..][j] == f;
      assert m[d + j] == f;
    }
  }

  /** Matching, and still in the history at the time. */
  predicate Replayable(e: Event, published: nat, capacity: nat, wanted: Event -> bool) {
    wanted(e) && published - capacity <= e < published
  }

  /** The tail: the last `replay` replayable events, in publication order. */
  lemma TailMeans(published: nat, capacity: nat, replay: nat, wanted: Event -> bool)
    ensures var t := Tail(published, capacity, replay, wanted);
            && Increasing(t)
            && |t| <= replay
            && (forall e :: e in t ==> Replayable(e, published, capacity, wanted))
            && (forall e, f :: Replayable(e, published, capacity, wanted) && e !in t && f in t ==> e < f)
            && (forall e :: Replayable(e, published, capacity, wanted) && e !in t ==> |t| == replay)
  {
    var lo := if published > capacity then published - capacity else 0;
    RangeSorted(lo, published);
    FilterSorted(Retained(published, capacity), wanted);
    MatchingMeans(published, capacity, wanted);
    hide Range, Filter, Increasing, Retained, Replayable;
    var m := Filter(Retained(published, capacity), wanted);
    if |m| > replay {
      SuffixMeans(m, |m| - replay);
    }
  }

  lemma MatchingMeans(published: nat, capacity: nat, wanted: Event -> bool)
    ensures forall e :: e in Filter(Retained(published, capacity), wanted) <==> Replayable(e, published, capacity, wanted)
  {
    RangeHas(if published > capacity then published - capacity else 0, published);
    FilterHas(Retained(published, capacity), wanted);
  }

  ghost predicate TailOk(s: State) {
    NoDuplicates(s.tail) && forall e :: e in s.tail ==> e < s.since
  }

  lemma IncreasingIsDistinct(s: seq<Event>)
    requires Increasing(s)
    ensures NoDuplicates(s)
  {
  }

  lemma StepKeepsTail(s: State, e: Step, wanted: Event -> bool)
    requires TailOk(s)
    ensures TailOk(Apply(s, e, wanted))
  {
    hide Tail, Finished, Buffered, Claimed;
    if e.Subscribe? && s.capacity.Some? {
      TailMeans(s.published, s.capacity.value, e.replay, wanted);
      IncreasingIsDistinct(Tail(s.published, s.capacity.value, e.replay, wanted));
    }
  }

  lemma OwedIsDistinct(s: State, wanted: Event -> bool)
    requires TailOk(s)
    ensures NoDuplicates(Owed(s, wanted))
  {
    RangeHas(s.since, s.published);
    FilterHas(Range(s.since, s.published), wanted);
    hide Range, Filter;
    var r := Filter(Range(s.since, s.published), wanted);
    forall i, j | 0 <= i < j < |s.tail + r| ensures (s.tail + r)[i] != (s.tail + r)[j] {
      if i < |s.tail| <= j {
        assert s.tail[i] in s.tail && r[j - |s.tail|] in r;
      }
    }
  }

  lemma {:induction false} RunKeeps(history: Option<nat>, bufferLimit: nat, steps: seq<Step>, wanted: Event -> bool)
    ensures var s := Run(Initial(history, bufferLimit), steps, wanted);
            Conserved(s, wanted) && Orderly(s) && TailOk(s)
    decreases |steps|
  {
    if steps != [] {
      RunKeeps(history, bufferLimit, steps[..|steps| - 1], wanted);
      var before := Run(Initial(history, bufferLimit), steps[..|steps| - 1], wanted);
      hide Conserved, Orderly, TailOk, Apply;
      StepKeeps(before, steps[|steps| - 1], wanted);
      StepKeepsTail(before, steps[|steps| - 1], wanted);
    }
  }

  /**
   * However publishers interleave with the replay: no event is handed over twice, none that is not
   * owed, and never more than the delivery limit. As long as the subscriber is live, every owed event
   * is handed over or still on its way; once the replay is done and nothing is in flight, all were. It stops
   * being live only when its subscription has ended or its delivery limit is used up.
   */
  lemma ExactlyOnce(history: Option<nat>, bufferLimit: nat, steps: seq<Step>, wanted: Event -> bool)
    ensures var s := Run(Initial(history, bufferLimit), steps, wanted);
            && NoDuplicates(s.handed)
            && (forall e :: e in s.handed ==> e in Owed(s, wanted))
            && (s.limit.Some? ==> |s.handed| <= s.limit.value)
            && (s.sub.Some? && Live(s.sub.value) ==>
                  forall e :: e in Owed(s, wanted) ==> e in Whereabouts(s))
            && (s.sub.Some? && Live(s.sub.value) && s.reader.Done? && s.flights == [] ==>
                  multiset(s.handed) == multiset(Owed(s, wanted)))
            && (s.sub.Some? && s.sub.value.active && s.reader.Done? ==> !s.sub.value.replaying && s.sub.value.pending == [])
            && (s.sub.Some? ==>
                  (Live(s.sub.value) <==>
                     && !EverEnded(Initial(history, bufferLimit), steps, wanted)
                     && (s.limit.Some? ==> |s.handed| < s.limit.value)))
  {
    InactiveIff(history, bufferLimit, steps, wanted);
    var s := Run(Initial(history, bufferLimit), steps, wanted);
    RunKeeps(history, bufferLimit, steps, wanted);
    OwedIsDistinct(s, wanted);
    hide Run, Owed, TailOk, EverEnded;
    if s.sub.Some? {
      assert multiset(s.handed) <= multiset(Owed(s, wanted));
      SubBagIsDistinct(s.handed, Owed(s, wanted));
      forall e | e in Owed(s, wanted) && Live(s.sub.value) ensures e in Whereabouts(s) {
        assert e in multiset(Owed(s, wanted));
      }
      forall e | e in s.handed ensures e in Owed(s, wanted) {
        assert e in multiset(s.handed);
        assert e in multiset(Owed(s, wanted));
      }
    } else {
      RunHasNoLimit(s);
    }
  }

  lemma RunHasNoLimit(s: State)
    requires s.handed == []
    ensures s.limit.Some? ==> |s.handed| <= s.limit.value
  {
  }

  /** A sequence whose members, counted, are among those of a duplicate-free one has no duplicates. */
  lemma SubBagIsDistinct(a: seq<Event>, b: seq<Event>)
    requires NoDuplicates(b) && multiset(a) <= multiset(b)
    ensures NoDuplicates(a)
  {
    forall i, j | 0 <= i < j < |a| ensures a[i] != a[j] {
      if a[i] == a[j] {
        assert a == a[..j] + [a[j]] + a[j + 1..];
        assert a[..j] == a[..i] + [a[i]] + a[i + 1..j];
        assert multiset(a)[a[j]] >= 2;
        OneOfEach(b, a[j]);
      }
    }
  }

  lemma {:induction false} OneOfEach(b: seq<Event>, e: Event)
    requires NoDuplicates(b)
    ensures multiset(b)[e] <= 1
  {
    if b != [] {
      var n := |b| - 1;
      OneOfEach(b[..n], e);
      assert b == b[..n] + [b[n]];
      if e == b[n] {
        assert e !in b[..n];
      }
    }
  }

  // ---------------------------------------------------------------- how a subscription ends

  /** The step ends the subscription: it is cancelled, its callback raises during the replay, or its buffer overflows. */
  predicate Ends(s: State, e: Step) {
    && s.sub.Some?
    && match e
       case Cancel => true
       case ReplayNext(stopAfter) => stopAfter && s.reader.Replaying? && s.reader.batch != [] && Live(s.sub.value)
       case Route(k) =>
         && k < |s.flights| && !s.flights[k].routed
         && s.sub.value.active && s.sub.value.replaying && |s.sub.value.pending| >= s.bufferLimit
       case _ => false
  }

  /** Some step of the run ended the subscription. */
  ghost predicate EverEnded(s: State, steps: seq<Step>, wanted: Event -> bool)
    decreases |steps|
  {
    steps != [] &&
    (|| EverEnded(s, steps[..|steps| - 1], wanted)
     || Ends(Run(s, steps[..|steps| - 1], wanted), steps[|steps| - 1]))
  }

  lemma StepEnds(s: State, e: Step, wanted: Event -> bool)
    ensures var t := Apply(s, e, wanted);
            && (s.sub.Some? ==> t.sub.Some?)
            && t.bufferLimit == s.bufferLimit
            && (t.sub.Some? ==> (!t.sub.value.active <==> (s.sub.Some? && !s.sub.value.active) || Ends(s, e)))
            && (Ends(s, e) ==> t.sub.Some?)
  {
    hide Tail, Without, Filter;
  }

  /** A subscription is inactive if and only if one of the three things that end it has happened. */
  lemma {:induction false} InactiveIff(history: Option<nat>, bufferLimit: nat, steps: seq<Step>, wanted: Event -> bool)
    ensures var s := Run(Initial(history, bufferLimit), steps, wanted);
            && s.bufferLimit == bufferLimit
            && (s.sub.None? ==> !EverEnded(Initial(history, bufferLimit), steps, wanted))
            && (s.sub.Some? ==> (!s.sub.value.active <==> EverEnded(Initial(history, bufferLimit), steps, wanted)))
    decreases |steps|
  {
    hide Apply, Ends;
    if steps != [] {
      InactiveIff(history, bufferLimit, steps[..|steps| - 1], wanted);
      StepEnds(Run(Initial(history, bufferLimit), steps[..|steps| - 1], wanted), steps[|steps| - 1], wanted);
    }
  }

  // ---------------------------------------------------------------- one publisher at a time

  /** The callback sees the replay tail first, then everything in publication order. */
  ghost predicate InOrder(s: State, wanted: Event -> bool) {
    && |s.flights| <= 1
    && s.since <= s.published
    && (s.sub.None? ==> s.flights == [] && s.handed == [] && s.tail == [])
    && (s.sub.Some? && s.flights != [] && s.flights[0].routed ==> !s.sub.value.replaying)
    && s.handed <= Owed(s, wanted)
    && (s.sub.Some? && Live(s.sub.value) ==>
          Line(s.handed, Batch(s.reader), s.sub.value.pending, s.flights) == Owed(s, wanted))
  }

  /** The events in the order in which the callback will see them. */
  function Line(handed: seq<Event>, batch: seq<Event>, pending: seq<Event>, flights: seq<InFlight>): seq<Event> {
    handed + batch + pending + FlightEvents(flights)
  }

  lemma LineMoves(h: seq<Event>, b: seq<Event>, p: seq<Event>, f: seq<InFlight>)
    ensures b != [] ==> Line(h + [b[0]], b[1..], p, f) == Line(h, b, p, f)
    ensures Line(h, p, [], f) == Line(h, [], p, f)
    ensures |f| == 1 ==> Line(h, b, p + [f[0].event], []) == Line(h, b, p, f)
    ensures |f| == 1 ==> Line(h + [f[0].event], [], [], []) == Line(h, [], [], f)
    ensures |f| == 1 ==> Line(h, b, p, f[0 := f[0].(routed := true)]) == Line(h, b, p, f)
    ensures h <= Line(h, b, p, f)
    ensures b != [] ==> h + [b[0]] <= Line(h, b, p, f)
    ensures |f| == 1 ==> h + [f[0].event] <= Line(h, [], [], f)
  {
    if b != [] {
      assert b == [b[0]] + b[1..];
    }
  }

  function FlightEvents(flights: seq<InFlight>): seq<Event> {
    if flights == [] then [] else [flights[0].event]
  }

  lemma PublishKeepsOrder(s: State, stale: bool, wanted: Event -> bool)
    requires InOrder(s, wanted) && s.flights == []
    ensures InOrder(Apply(s, Publish(stale), wanted), wanted)
  {
    hide Owed;
    var t := Apply(s, Publish(stale), wanted);
    OwedGrows(s, wanted);
    OwedSame(t, s.(published := s.published + 1), wanted);
  }

  lemma FlightKeepsOrder(s: State, e: Step, wanted: Event -> bool)
    requires InOrder(s, wanted) && Orderly(s) && (e.Route? || e.Deliver?)
    ensures InOrder(Apply(s, e, wanted), wanted)
  {
    hide Owed, Line;
    OwedSame(s, Apply(s, e, wanted), wanted);
    if s.sub.Some? && s.flights != [] {
      LineMoves(s.handed, Batch(s.reader), s.sub.value.pending, s.flights);
      assert Without(s.flights, 0) == [];
    }
  }

  lemma ReaderKeepsOrder(s: State, e: Step, wanted: Event -> bool)
    requires InOrder(s, wanted) && Orderly(s) && (e.ReplayNext? || e.ReplayFinish? || e.Cancel?)
    ensures InOrder(Apply(s, e, wanted), wanted)
  {
    hide Owed, Line;
    OwedSame(s, Apply(s, e, wanted), wanted);
    if s.sub.Some? {
      LineMoves(s.handed, Batch(s.reader), s.sub.value.pending, s.flights);
    }
  }

  lemma SubscribeKeepsOrder(s: State, e: Step, wanted: Event -> bool)
    requires InOrder(s, wanted) && e.Subscribe?
    ensures InOrder(Apply(s, e, wanted), wanted)
  {
    hide Tail;
    var t := Apply(s, e, wanted);
    if s.sub.None? && e.limit != Some(0) {
      assert Range(t.since, t.published) == [];
      assert Owed(t, wanted) == t.tail;
    }
  }

  /** The publications of this run follow one another. */
  ghost predicate OneAtATime(s: State, steps: seq<Step>, wanted: Event -> bool) {
    forall k :: 0 <= k < |steps| && steps[k].Publish? ==> Run(s, steps[..k], wanted).flights == []
  }

  /** With one publisher, what was handed over is, in order, the beginning of what is owed. */
  lemma {:induction false} OrderIsKept(history: Option<nat>, bufferLimit: nat, steps: seq<Step>, wanted: Event -> bool)
    requires OneAtATime(Initial(history, bufferLimit), steps, wanted)
    ensures var s := Run(Initial(history, bufferLimit), steps, wanted);
            InOrder(s, wanted) && s.handed <= Owed(s, wanted)
    decreases |steps|
  {
    var start := Initial(history, bufferLimit);
    if steps == [] {
      assert Owed(start, wanted) == [];
    } else {
      var n := |steps| - 1;
      assert OneAtATime(start, steps[..n], wanted) by {
        assert forall k :: 0 <= k < n ==> steps[..n][k] == steps[k] && steps[..n][..k] == steps[..k];
      }
      OrderIsKept(history, bufferLimit, steps[..n], wanted);
      RunKeeps(history, bufferLimit, steps[..n], wanted);
      var before := Run(start, steps[..n], wanted);
      assert steps[n].Publish? ==> before.flights == [];
      hide InOrder, Orderly, Apply, Conserved, TailOk, OneAtATime;
      if steps[n].Publish? {
        PublishKeepsOrder(before, steps[n].stale, wanted);
      } else if steps[n].Subscribe? {
        SubscribeKeepsOrder(before, steps[n], wanted);
      } else if steps[n].Route? || steps[n].Deliver? {
        FlightKeepsOrder(before, steps[n], wanted);
      } else {
        ReaderKeepsOrder(before, steps[n], wanted);
      }
      OrderMeansPrefix(Apply(before, steps[n], wanted), wanted);
    }
  }

  lemma OrderMeansPrefix(s: State, wanted: Event -> bool)
    requires InOrder(s, wanted)
    ensures s.handed <= Owed(s, wanted)
  {
  }
}
