/** The sensor's bounded spool, used by one task: submit, drain and statistics over an unreliable sender. */
module Spool {

  /** An observation is known here by its identifier and what it carries. */
  datatype Item = Item(id: nat, payload: string)

  datatype Stats = Stats(processed: nat, spooled: nat, dropped: nat)

  ghost predicate Ascending(xs: seq<nat>) { forall i, j | 0 <= i < j < |xs| :: xs[i] < xs[j] }

  ghost function UpTo(n: nat): seq<nat> { seq(n, i => i) }

  ghost predicate Below(xs: seq<nat>, n: nat) { forall i | 0 <= i < |xs| :: xs[i] < n }

  /** The submissions at these positions. */
  ghost function Pick(submitted: seq<Item>, positions: seq<nat>): seq<Item>
    requires Below(positions, |submitted|)
  {
    seq(|positions|, i requires 0 <= i < |positions| => submitted[positions[i]])
  }

  /**
    Where every submission is: acknowledged by Core, dropped, or waiting, as positions in the order of submission.
    Each is in exactly one place; what waits is newer than what was acknowledged and newer than what was dropped.
   */
  ghost predicate Accounted(n: nat, acknowledged: seq<nat>, lost: seq<nat>, waiting: seq<nat>) {
    && multiset(acknowledged) + multiset(lost) + multiset(waiting) == multiset(UpTo(n))
    && Ascending(acknowledged + waiting) && Ascending(lost + waiting)
    && Below(acknowledged, n) && Below(lost, n) && Below(waiting, n)
  }

  lemma UpToMore(n: nat)
    ensures multiset(UpTo(n + 1)) == multiset(UpTo(n)) + multiset{n}
  {
    assert UpTo(n + 1) == UpTo(n) + [n];
  }

  lemma AcknowledgedAtOnce(n: nat, acknowledged: seq<nat>, lost: seq<nat>)
    requires Accounted(n, acknowledged, lost, [])
    ensures Accounted(n + 1, acknowledged + [n], lost, [])
  {
    UpToMore(n);
    assert acknowledged + [] == acknowledged && lost + [] == lost;
    assert acknowledged + [n] + [] == acknowledged + [n];
    assert multiset(acknowledged + [n]) == multiset(acknowledged) + multiset{n};
  }

  lemma Queued(n: nat, acknowledged: seq<nat>, lost: seq<nat>, waiting: seq<nat>)
    requires Accounted(n, acknowledged, lost, waiting)
    ensures Accounted(n + 1, acknowledged, lost, waiting + [n])
  {
    UpToMore(n);
    assert acknowledged + (waiting + [n]) == (acknowledged + waiting) + [n];
    assert lost + (waiting + [n]) == (lost + waiting) + [n];
  }

  lemma OldestLost(n: nat, acknowledged: seq<nat>, lost: seq<nat>, waiting: seq<nat>)
    requires Accounted(n, acknowledged, lost, waiting) && waiting != []
    ensures Accounted(n, acknowledged, lost + [waiting[0]], waiting[1..])
  {
    assert waiting == [waiting[0]] + waiting[1..];
    assert (lost + [waiting[0]]) + waiting[1..] == lost + waiting;
    SkipOne(acknowledged, waiting);
  }

  lemma OldestAcknowledged(n: nat, acknowledged: seq<nat>, lost: seq<nat>, waiting: seq<nat>)
    requires Accounted(n, acknowledged, lost, waiting) && waiting != []
    ensures Accounted(n, acknowledged + [waiting[0]], lost, waiting[1..])
  {
    assert waiting == [waiting[0]] + waiting[1..];
    assert (acknowledged + [waiting[0]]) + waiting[1..] == acknowledged + waiting;
    SkipOne(lost, waiting);
  }

  lemma SkipOne(xs: seq<nat>, ys: seq<nat>)
    requires Ascending(xs + ys) && ys != []
    ensures Ascending(xs + ys[1..])
  {
    var all, fewer := xs + ys, xs + ys[1..];
    assert forall i | 0 <= i < |fewer| :: fewer[i] == all[if i < |xs| then i else i + 1];
  }

  lemma Without<T>(s: seq<T>, i: nat)
    requires i < |s|
    ensures multiset(s) == multiset(s[..i] + s[i + 1..]) + multiset{s[i]}
  {
    assert s == s[..i] + [s[i]] + s[i + 1..];
  }

  lemma PickAt(submitted: seq<Item>, ys: seq<nat>, i: nat)
    requires Below(ys, |submitted|) && i < |ys|
    ensures Below(ys[..i] + ys[i + 1..], |submitted|)
    ensures multiset(Pick(submitted, ys))
      == multiset(Pick(submitted, ys[..i] + ys[i + 1..])) + multiset{submitted[ys[i]]}
    ensures multiset(ys) == multiset(ys[..i] + ys[i + 1..]) + multiset{ys[i]}
  {
    var all := Pick(submitted, ys);
    assert Pick(submitted, ys[..i] + ys[i + 1..]) == all[..i] + all[i + 1..];
    hide Pick;
    Without(ys, i);
    Without(all, i);
  }

  lemma TakeAway<T>(a: multiset<T>, b: multiset<T>, x: T)
    requires a + multiset{x} == b + multiset{x}
    ensures a == b
  {
    assert a == (a + multiset{x}) - multiset{x};
    assert b == (b + multiset{x}) - multiset{x};
  }

  /** Two listings of the same positions pick the same items. */
  lemma {:induction false} PickPermutes(submitted: seq<Item>, xs: seq<nat>, ys: seq<nat>)
    requires Below(xs, |submitted|) && Below(ys, |submitted|) && multiset(xs) == multiset(ys)
    ensures multiset(Pick(submitted, xs)) == multiset(Pick(submitted, ys))
    decreases |xs|
  {
    if xs == [] {
      assert |multiset(ys)| == 0;
    } else {
      assert xs[0] in multiset(ys);
      var i :| 0 <= i < |ys| && ys[i] == xs[0];
      PickAt(submitted, xs, 0);
      PickAt(submitted, ys, i);
      assert xs[..0] + xs[1..] == xs[1..];
      hide Pick, Below;
      var a, b := multiset(xs[1..]), multiset(ys[..i] + ys[i + 1..]);
      assert a + multiset{xs[0]} == b + multiset{xs[0]};
      TakeAway(a, b, xs[0]);
      PickPermutes(submitted, xs[1..], ys[..i] + ys[i + 1..]);
    }
  }

  lemma PickLater(submitted: seq<Item>, item: Item, waiting: seq<nat>)
    requires Below(waiting, |submitted|)
    ensures Pick(submitted + [item], waiting) == Pick(submitted, waiting)
    ensures Pick(submitted + [item], waiting + [|submitted|]) == Pick(submitted, waiting) + [item]
  {}

  lemma PickRest(submitted: seq<Item>, waiting: seq<nat>)
    requires Below(waiting, |submitted|) && waiting != []
    ensures Below(waiting[1..], |submitted|) && Pick(submitted, waiting[1..]) == Pick(submitted, waiting)[1..]
  {}

  lemma AccountedBelow(n: nat, acknowledged: seq<nat>, lost: seq<nat>, waiting: seq<nat>)
    requires Accounted(n, acknowledged, lost, waiting)
    ensures Below(acknowledged, n) && Below(lost, n) && Below(waiting, n)
  {}

  /** Nothing is made up and nothing disappears unaccounted: what was submitted is acknowledged, dropped or waiting. */
  lemma Conservation(submitted: seq<Item>, acknowledged: seq<nat>, lost: seq<nat>, waiting: seq<nat>)
    requires Accounted(|submitted|, acknowledged, lost, waiting)
    ensures multiset(submitted)
         == multiset(Pick(submitted, acknowledged)) + multiset(Pick(submitted, lost))
           + multiset(Pick(submitted, waiting))
    ensures |submitted| == |acknowledged| + |lost| + |waiting|
  {
    var n, all := |submitted|, acknowledged + lost + waiting;
    PickPermutes(submitted, all, UpTo(n));
    assert Pick(submitted, UpTo(n)) == submitted;
    assert Pick(submitted, all) == Pick(submitted, acknowledged) + Pick(submitted, lost) + Pick(submitted, waiting);
    assert |multiset(all)| == |multiset(UpTo(n))|;
  }

  lemma TakeNext<T>(before: seq<T>, all: seq<T>, k: nat)
    requires k < |all|
    ensures all[k..][0] == all[k] && all[k..][1..] == all[k + 1..]
    ensures before + all[..k] + [all[k]] == before + all[..k + 1]
  {}

  class BoundedSpooler {
    const capacity: nat
    var queue: seq<Item>
    var processed: nat
    var dropped: nat
    ghost var submitted: seq<Item>
    ghost var acknowledged: seq<nat>
    ghost var lost: seq<nat>
    ghost var waiting: seq<nat>
    /** The positions handed to the sender, in order. */
    ghost var tried: seq<nat>

    ghost predicate Valid()
      reads this
    {
      && capacity >= 10 && |queue| <= capacity
      && Accounted(|submitted|, acknowledged, lost, waiting)
      && Below(waiting, |submitted|) && queue == Pick(submitted, waiting)
      && processed == |submitted| && dropped == |lost|
    }

    constructor (requested: nat)
      ensures Valid() && capacity == (if requested < 10 then 10 else requested)
      ensures submitted == [] && queue == []
    {
      capacity := if requested < 10 then 10 else requested;
      queue, processed, dropped := [], 0, 0;
      submitted, acknowledged, lost, waiting, tried := [], [], [], [], [];
    }

    /** The network decides. */
    method SendToCore(item: Item, ghost position: nat) returns (ok: bool)
      requires Valid()
      modifies this`tried
      ensures Valid() && tried == old(tried) + [position]
    {
      ok := *;
      tried := tried + [position];
    }

    method DropOldest()
      requires Valid() && queue != []
      modifies this`queue, this`dropped, this`lost, this`waiting
      ensures Valid() && |old(waiting)| > 0 && queue == old(queue)[1..]
      ensures lost == old(lost) + [old(waiting)[0]] && waiting == old(waiting)[1..]
    {
      QueueLength();
      hide Accounted, Pick, Below;
      AccountedBelow(|submitted|, acknowledged, lost, waiting);
      OldestLost(|submitted|, acknowledged, lost, waiting);
      PickRest(submitted, waiting);
      queue := queue[1..];
      dropped := dropped + 1;
      lost, waiting := lost + [waiting[0]], waiting[1..];
    }

    method Append(item: Item)
      requires Valid() && |queue| < capacity
      modifies this`queue, this`waiting, this`submitted, this`processed
      ensures Valid() && submitted == old(submitted) + [item] && queue == old(queue) + [item]
    {
      hide Accounted, Pick, Below;
      AccountedBelow(|submitted|, acknowledged, lost, waiting);
      Queued(|submitted|, acknowledged, lost, waiting);
      AccountedBelow(|submitted| + 1, acknowledged, lost, waiting + [|submitted|]);
      PickLater(submitted, item, waiting);
      queue := queue + [item];
      waiting, submitted := waiting + [|submitted|], submitted + [item];
      processed := processed + 1;
    }

    method AcknowledgeNew(item: Item)
      requires Valid() && queue == []
      modifies this`acknowledged, this`submitted, this`processed
      ensures Valid() && submitted == old(submitted) + [item] && acknowledged == old(acknowledged) + [|old(submitted)|]
    {
      QueueLength();
      hide Accounted, Below;
      AcknowledgedAtOnce(|submitted|, acknowledged, lost);
      AccountedBelow(|submitted| + 1, acknowledged + [|submitted|], lost, waiting);
      processed := processed + 1;
      acknowledged, submitted := acknowledged + [|submitted|], submitted + [item];
    }

    /**
      Sent at once when nothing waits; otherwise, or when that fails, queued, dropping the oldest if there is no room.
     */
    method Submit(item: Item) returns (ghost delivered: bool)
      requires Valid()
      modifies this
      ensures Valid() && submitted == old(submitted) + [item]
      ensures tried == old(tried) + if old(queue) == [] then [|old(submitted)|] else []
      ensures delivered ==> old(queue) == [] && queue == []
      ensures acknowledged == old(acknowledged) + if delivered then [|old(submitted)|] else []
      ensures !delivered ==> queue == (if |old(queue)| >= capacity then old(queue)[1..] else old(queue)) + [item]
      ensures lost == old(lost) + if |old(queue)| >= capacity then [old(waiting)[0]] else []
    {
      hide Accounted, Below, Pick;
      if queue == [] {
        var ok := SendToCore(item, |submitted|);
        if ok {
          AcknowledgeNew(item);
          return true;
        }
      }
      if |queue| >= capacity {
        DropOldest();
      }
      Append(item);
      delivered := false;
    }

    /** Sends from the front until the queue is empty or a send fails. */
    method DrainPending() returns (sent: nat, stopped: bool)
      requires Valid()
      modifies this`queue, this`acknowledged, this`waiting, this`tried
      ensures Valid() && sent <= |old(queue)| && queue == old(queue)[sent..] && (stopped <==> queue != [])
      ensures acknowledged == old(acknowledged) + old(waiting)[..sent] && waiting == old(waiting)[sent..]
      ensures tried == old(tried) + old(waiting)[..if stopped then sent + 1 else sent]
    {
      QueueLength();
      hide Accounted, Pick, Below, Valid;
      sent, stopped := 0, false;
      while queue != []
        invariant Valid() && !stopped && sent <= |old(queue)| == |old(waiting)| && queue == old(queue)[sent..]
        invariant acknowledged == old(acknowledged) + old(waiting)[..sent] && waiting == old(waiting)[sent..]
        invariant tried == old(tried) + old(waiting)[..sent]
        decreases |queue|
      {
        TakeNext(old(acknowledged), old(waiting), sent);
        TakeNext(old(tried), old(waiting), sent);
        TakeNext([], old(queue), sent);
        var ok := SendToCore(queue[0], waiting[0]);
        if !ok {
          stopped := true;
          break;
        }
        AcknowledgeFront();
        sent := sent + 1;
      }
    }

    lemma QueueLength()
      requires Valid()
      ensures |queue| == |waiting|
    {}

    method AcknowledgeFront()
      requires Valid() && queue != []
      modifies this`queue, this`acknowledged, this`waiting
      ensures Valid() && |old(waiting)| > 0 && queue == old(queue)[1..] && waiting == old(waiting)[1..]
      ensures acknowledged == old(acknowledged) + [old(waiting)[0]]
    {
      QueueLength();
      hide Accounted, Pick, Below;
      AccountedBelow(|submitted|, acknowledged, lost, waiting);
      OldestAcknowledged(|submitted|, acknowledged, lost, waiting);
      PickRest(submitted, waiting);
      queue := queue[1..];
      acknowledged, waiting := acknowledged + [waiting[0]], waiting[1..];
    }

    /** The counters; the queue's length is reported as 0 while another task holds its lock. */
    method GetStats(locked: bool) returns (stats: Stats)
      requires Valid()
      ensures stats.processed == |submitted| && stats.dropped == |lost|
      ensures !locked ==> stats.processed == |acknowledged| + stats.spooled + stats.dropped
      ensures locked ==> stats.spooled == 0
    {
      Conservation(submitted, acknowledged, lost, waiting);
      stats := Stats(processed, if locked then 0 else |queue|, dropped);
    }

    /**
      One poll of the live listener: what was not seen before is submitted in order, then the spool is drained. Either
      nothing waits afterwards, or the last send that was tried is of the oldest waiting observation, and failed.
     */
    method Poll(observations: seq<Item>, seen: set<nat>) returns (seen': set<nat>, ghost stopped: bool)
      requires Valid()
      modifies this
      ensures Valid() && submitted == old(submitted) + Fresh(observations, seen)
      ensures seen' == seen + Ids(observations)
      ensures stopped <==> queue != []
      ensures stopped ==> waiting != [] && tried != [] && tried[|tried| - 1] == waiting[0]
    {
      hide Valid, Fresh, Ids;
      FreshNothing(seen);
      seen' := seen;
      for i := 0 to |observations|
        invariant Valid() && submitted == old(submitted) + Fresh(observations[..i], seen)
        invariant seen' == seen + Ids(observations[..i])
      {
        FreshNext(observations, i, seen);
        ghost var before := Fresh(observations[..i], seen);
        if observations[i].id !in seen' {
          var _ := Submit(observations[i]);
          assert old(submitted) + before + [observations[i]] == old(submitted) + (before + [observations[i]]);
        }
        seen' := seen' + {observations[i].id};
      }
      assert observations[..|observations|] == observations;
      QueueLength();
      var sent;
      sent, stopped := DrainPending();
    }
  }

  function Ids(items: seq<Item>): set<nat> { set x | x in items :: x.id }

  /** The observations whose identifier was not met before, each identifier once. */
  function Fresh(observations: seq<Item>, seen: set<nat>): seq<Item> {
    if observations == [] then []
    else
      var front, o := observations[..|observations| - 1], observations[|observations| - 1];
      Fresh(front, seen) + if o.id in seen || o.id in Ids(front) then [] else [o]
  }

  lemma FreshNothing(seen: set<nat>)
    ensures Fresh([], seen) == [] && Ids([]) == {}
  {}

  lemma FreshNext(observations: seq<Item>, i: nat, seen: set<nat>)
    requires i < |observations|
    ensures var before, o := observations[..i], observations[i];
      && Ids(observations[..i + 1]) == Ids(before) + {o.id}
      && Fresh(observations[..i + 1], seen)
         == Fresh(before, seen) + if o.id in seen || o.id in Ids(before) then [] else [o]
  {
    var more := observations[..i + 1];
    assert more[..i] == observations[..i];
    assert forall x :: x in more <==> x in observations[..i] || x == observations[i];
  }

  ghost predicate MetAmong(items: seq<Item>, id: nat) { exists i | 0 <= i < |items| :: items[i].id == id }

  /** Nothing is submitted twice, and nothing new is left behind. */
  lemma {:induction false} FreshExactly(observations: seq<Item>, seen: set<nat>, id: nat)
    ensures MetAmong(Fresh(observations, seen), id) <==> MetAmong(observations, id) && id !in seen
    ensures forall i, j | 0 <= i < j < |Fresh(observations, seen)| ::
              Fresh(observations, seen)[i].id != Fresh(observations, seen)[j].id
  {
    if observations != [] {
      var front, o := observations[..|observations| - 1], observations[|observations| - 1];
      var before := Fresh(front, seen);
      FreshExactly(front, seen, id);
      FreshExactly(front, seen, o.id);
      MetInSet(front, o.id);
      MetLast(front, o, id);
      MetLast(before, o, id);
      assert observations == front + [o] && before + [] == before;
      assert Fresh(observations, seen) == if MetAmong(before, o.id) || o.id in seen then before else before + [o];
      hide Fresh, Ids;
    }
  }

  lemma MetLast(items: seq<Item>, o: Item, id: nat)
    ensures MetAmong(items + [o], id) <==> MetAmong(items, id) || o.id == id
  {
    if i :| 0 <= i < |items| && items[i].id == id { assert (items + [o])[i].id == id; }
    assert (items + [o])[|items|].id == o.id;
  }

  lemma MetInSet(items: seq<Item>, id: nat)
    ensures MetAmong(items, id) <==> id in Ids(items)
  {}

  /** What reached Core and what still waits, in this order, is a subsequence of what was submitted. */
  lemma OrderIsKept(n: nat, acknowledged: seq<nat>, lost: seq<nat>, waiting: seq<nat>)
    requires Accounted(n, acknowledged, lost, waiting)
    ensures forall i, j | 0 <= i < |lost| && 0 <= j < |waiting| :: lost[i] < waiting[j]
    ensures forall i, j | 0 <= i < |acknowledged| && 0 <= j < |waiting| :: acknowledged[i] < waiting[j]
    ensures forall p: nat | p < n :: multiset(acknowledged)[p] + multiset(lost)[p] + multiset(waiting)[p] == 1
  {
    forall i, j | 0 <= i < |lost| && 0 <= j < |waiting| ensures lost[i] < waiting[j] {
      assert (lost + waiting)[i] == lost[i] && (lost + waiting)[|lost| + j] == waiting[j];
    }
    forall i, j | 0 <= i < |acknowledged| && 0 <= j < |waiting| ensures acknowledged[i] < waiting[j] {
      assert (acknowledged + waiting)[i] == acknowledged[i];
      assert (acknowledged + waiting)[|acknowledged| + j] == waiting[j];
    }
    forall p: nat | p < n ensures multiset(acknowledged)[p] + multiset(lost)[p] + multiset(waiting)[p] == 1 {
      OnceUpTo(n, p);
      assert (multiset(acknowledged) + multiset(lost) + multiset(waiting))[p] == 1;
    }
  }

  lemma {:induction false} OnceUpTo(n: nat, p: nat)
    ensures multiset(UpTo(n))[p] == if p < n then 1 else 0
  {
    if n > 0 {
      OnceUpTo(n - 1, p);
      UpToMore(n - 1);
    }
  }
}
