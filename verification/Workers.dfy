/** The pool of I/O workers that ports share. */
module Workers {
  import opened Common

  const MAX_WORKERS: nat := 4

  /** A lease is dropped in two steps: its worker's count first, its reference second. */
  datatype Stage = Held | Counted | Dropped

  datatype Lease = Lease(worker: nat, stage: Stage)

  /** One of the two steps, on any thread. */
  datatype Step = Release(lease: nat) | Drop(lease: nat)

  /** Some of the leases have gone further. */
  ghost predicate Advanced(before: seq<Lease>, after: seq<Lease>) {
    && |after| == |before|
    && forall i :: 0 <= i < |after| ==>
         && after[i].worker == before[i].worker && (after[i].stage.Held? ==> before[i].stage.Held?)
         && (before[i].stage.Dropped? ==> after[i].stage.Dropped?)
  }

  lemma FurtherAdvanced(a: seq<Lease>, b: seq<Lease>, c: seq<Lease>)
    requires Advanced(a, b) && Advanced(b, c)
    ensures Advanced(a, c)
  {
  }

  lemma NewestAdvanced(before: seq<Lease>, after: seq<Lease>)
    requires after != [] && Advanced(before, after[..|after| - 1])
    ensures |after| == |before| + 1 && Advanced(before, after[..|before|])
  {
  }

  /** What a step does: it goes to the next stage of a lease that is at the one before. */
  function Stepped(leases: seq<Lease>, step: Step): seq<Lease> {
    match step
    case Release(i) =>
      if i < |leases| && leases[i].stage.Held? then leases[i := Lease(leases[i].worker, Counted)] else leases
    case Drop(i) =>
      if i < |leases| && leases[i].stage.Counted? then leases[i := Lease(leases[i].worker, Dropped)] else leases
  }

  function AllStepped(leases: seq<Lease>, steps: seq<Step>): seq<Lease> {
    if steps == [] then leases else Stepped(AllStepped(leases, steps[..|steps| - 1]), steps[|steps| - 1])
  }

  /** Every number is at most what it was. */
  ghost predicate AtMost(after: seq<nat>, before: seq<nat>) {
    |after| == |before| && forall w :: 0 <= w < |after| ==> after[w] <= before[w]
  }

  /** Leases on `w` that count as ports. */
  function Ports(leases: seq<Lease>, w: nat): nat {
    if leases == [] then 0
    else Ports(leases[..|leases| - 1], w)
         + (if leases[|leases| - 1] == Lease(w, Held) then 1 else 0)
  }

  /** Leases that keep `w` alive. */
  function References(leases: seq<Lease>, w: nat): nat {
    if leases == [] then 0
    else References(leases[..|leases| - 1], w)
         + (if leases[|leases| - 1].worker == w && !leases[|leases| - 1].stage.Dropped? then 1 else 0)
  }

  lemma {:induction false} CountsUpdate(leases: seq<Lease>, i: nat, stage: Stage, w: nat)
    requires i < |leases|
    ensures var l := leases[i]; var next := leases[i := Lease(l.worker, stage)];
            && Ports(next, w) == Ports(leases, w) - (if l == Lease(w, Held) then 1 else 0)
                                 + (if l.worker == w && stage.Held? then 1 else 0)
            && References(next, w) == References(leases, w) - (if l.worker == w && !l.stage.Dropped? then 1 else 0)
                                      + (if l.worker == w && !stage.Dropped? then 1 else 0)
  {
    var next := leases[i := Lease(leases[i].worker, stage)];
    var n := |leases| - 1;
    if i == n {
      assert next[..n] == leases[..n];
    } else {
      assert next[..n] == leases[..n][i := Lease(leases[i].worker, stage)];
      CountsUpdate(leases[..n], i, stage, w);
    }
  }

  lemma CountsSnoc(leases: seq<Lease>, l: Lease, w: nat)
    ensures Ports(leases + [l], w) == Ports(leases, w) + (if l == Lease(w, Held) then 1 else 0)
    ensures References(leases + [l], w) == References(leases, w) + (if l.worker == w && !l.stage.Dropped? then 1 else 0)
  {
    assert (leases + [l])[..|leases|] == leases;
  }

  lemma {:induction false} PortsNeedReferences(leases: seq<Lease>, w: nat)
    ensures Ports(leases, w) <= References(leases, w)
  {
    if leases != [] { PortsNeedReferences(leases[..|leases| - 1], w); }
  }

  predicate Distinct(s: seq<nat>) { forall i, j :: 0 <= i < j < |s| ==> s[i] != s[j] }

  /** The living workers of a list, in order. */
  function LivePart(s: seq<nat>, references: seq<nat>): (r: seq<nat>)
    ensures forall w :: w in r <==> w in s && w < |references| && references[w] > 0
    ensures Distinct(s) ==> Distinct(r)
  {
    if s == [] then []
    else
      var rest, w := LivePart(s[..|s| - 1], references), s[|s| - 1];
      if w < |references| && references[w] > 0 then rest + [w] else rest
  }

  lemma {:induction false} LiveShrinks(s: seq<nat>, before: seq<nat>, after: seq<nat>)
    requires |before| == |after| && forall w :: 0 <= w < |after| && after[w] > 0 ==> before[w] > 0
    ensures |LivePart(s, after)| <= |LivePart(s, before)|
  {
    if s != [] { LiveShrinks(s[..|s| - 1], before, after); }
  }

  lemma {:induction false} LivePrefix(s: seq<nat>, references: seq<nat>, i: nat)
    requires i <= |s|
    ensures |LivePart(s[..i], references)| <= |LivePart(s, references)|
  {
    if i < |s| {
      assert s[..|s| - 1][..i] == s[..i];
      LivePrefix(s[..|s| - 1], references, i);
    } else {
      assert s[..i] == s;
    }
  }

  lemma {:induction false} LiveAgain(s: seq<nat>, references: seq<nat>, more: seq<nat>)
    requires forall w :: w in s ==> w < |references| && references[w] > 0
    requires |references| <= |more| && forall w :: 0 <= w < |references| && references[w] > 0 ==> more[w] > 0
    ensures LivePart(s, more) == s
  {
    if s != [] {
      var rest := s[..|s| - 1];
      forall w | w in rest ensures w < |references| && references[w] > 0 { assert w in s; }
      assert s[|s| - 1] in s;
      LiveAgain(s[..|s| - 1], references, more);
      assert s == s[..|s| - 1] + [s[|s| - 1]];
    }
  }

  lemma {:induction false} LiveWithin(s: seq<nat>, references: seq<nat>)
    ensures |LivePart(s, references)| <= |s|
  {
    if s != [] { LiveWithin(s[..|s| - 1], references); }
  }

  class Pool {
    const limit: nat
    var pool: seq<nat>          // weak references, oldest first
    var ports: seq<nat>         // per worker ever started
    var references: seq<nat>    // strong references per worker
    var leases: seq<Lease>

    /** The counters are what the leases say. */
    ghost predicate Counted()
      reads this`ports, this`references, this`leases
    {
      && |ports| == |references|
      && (forall l :: l in leases ==> l.worker < |ports|)
      && (forall w :: 0 <= w < |ports| ==> ports[w] == Ports(leases, w) && references[w] == References(leases, w))
    }

    ghost predicate Valid()
      reads this
    {
      && 1 <= limit <= MAX_WORKERS && |ports| == |references| && Counted()
      && Distinct(pool)
      && (forall w :: 0 <= w < |ports| && references[w] > 0 ==> w in pool)
      && |LivePart(pool, references)| <= limit
    }

    constructor (parallelism: nat)
      ensures Valid() && leases == [] && limit == Max(1, Min(parallelism, MAX_WORKERS))
    {
      limit := Max(1, Min(parallelism, MAX_WORKERS));
      pool, ports, references, leases := [], [], [], [];
    }

    /** Forget dead workers and collect the living ones in the fixed array. */
    method Retain(active: array<Option<nat>>) returns (activeCount: nat)
      requires Valid() && active.Length == MAX_WORKERS && forall k :: 0 <= k < active.Length ==> active[k].None?
      modifies this`pool, active
      ensures Valid() && pool == LivePart(old(pool), references) == LivePart(pool, references)
      ensures activeCount == |pool| <= limit
      ensures forall k :: 0 <= k < MAX_WORKERS ==> active[k] == if k < activeCount then Some(pool[k]) else None
    {
      hide Counted, LivePart;
      activeCount := 0;
      var kept: seq<nat> := [];
      Nobody(pool, references);
      for i := 0 to |pool|
        invariant pool == old(pool) && kept == LivePart(pool[..i], references) && activeCount == |kept|
        invariant forall k :: 0 <= k < MAX_WORKERS ==> active[k] == if k < activeCount then Some(kept[k]) else None
      {
        assert pool[..i + 1] == pool[..i] + [pool[i]];
        LiveSnoc(pool[..i], references, pool[i]);
        LivePrefix(pool, references, i + 1);
        if pool[i] < |references| && references[pool[i]] > 0 {
          active[activeCount] := Some(pool[i]);
          activeCount := activeCount + 1;
          kept := kept + [pool[i]];
        }
      }
      assert pool[..|pool|] == pool;
      LiveAgain(kept, references, references);
      pool := kept;
    }

    /** What other threads do to their leases while `acquire` holds the lock of the pool. */
    method Meanwhile(steps: seq<Step>)
      requires Valid()
      modifies this`ports, this`references, this`leases
      ensures Valid() && AtMost(ports, old(ports)) && Advanced(old(leases), leases)
      ensures leases == AllStepped(old(leases), steps)
    {
      hide LivePart, Counted, Stepped;
      for i := 0 to |steps|
        invariant Valid() && AtMost(ports, old(ports)) && Advanced(old(leases), leases)
        invariant leases == AllStepped(old(leases), steps[..i])
      {
        assert steps[..i + 1][..i] == steps[..i];
        Take(steps[i]);
      }
      assert steps[..|steps|] == steps;
    }

    method Take(step: Step)
      requires Valid()
      modifies this`ports, this`references, this`leases
      ensures Valid() && AtMost(ports, old(ports)) && Advanced(old(leases), leases)
      ensures leases == Stepped(old(leases), step)
    {
      hide LivePart, Counted;
      match step
      case Release(i) =>
        if i < |leases| && leases[i].stage.Held? { Release(i); }
      case Drop(i) =>
        if i < |leases| && leases[i].stage.Counted? { Drop(i); }
    }

    /** The first of the least busy active workers; `seen` is what is read of each, one after the other,
      with other threads at work in between. */
    method LeastBusy(active: array<Option<nat>>, activeCount: nat, meanwhile: nat -> seq<Step>)
      returns (index: Option<nat>, seen: seq<nat>)
      requires Valid() && active.Length == MAX_WORKERS && activeCount <= MAX_WORKERS
      requires forall k :: 0 <= k < MAX_WORKERS ==>
                 if k < activeCount then active[k].Some? && active[k].value < |ports| else active[k].None?
      modifies this`ports, this`references, this`leases
      ensures Valid() && AtMost(ports, old(ports)) && Advanced(old(leases), leases)
      ensures |seen| == activeCount && (index.None? <==> activeCount == 0)
      ensures forall k :: 0 <= k < activeCount ==> ports[active[k].value] <= seen[k] <= old(ports)[active[k].value]
      ensures index.Some? ==> index.value < activeCount && forall k :: 0 <= k < activeCount ==> seen[index.value] <= seen[k]
    {
      hide LivePart, Counted, Distinct;
      index, seen := None, [];
      for k := 0 to MAX_WORKERS
        invariant Valid() && AtMost(ports, old(ports)) && Advanced(old(leases), leases)
        invariant |seen| == Min(k, activeCount) && (index.None? <==> |seen| == 0)
        invariant forall j :: 0 <= j < |seen| ==> ports[active[j].value] <= seen[j] <= old(ports)[active[j].value]
        invariant index.Some? ==> index.value < |seen| && forall j :: 0 <= j < |seen| ==> seen[index.value] <= seen[j]
      {
        if active[k].Some? {
          Meanwhile(meanwhile(k));
          seen := seen + [ports[active[k].value]];
          if index.None? || seen[k] < seen[index.value] { index := Some(k); }
        }
      }
    }

    /** `acquire`; `starts` says whether a new thread can be started, and `meanwhile` what other threads
      do before each read of a counter.  A busy worker is shared only when the pool is at its limit, and
      then one that was the least loaded; a new worker is started only when every living one was busy
      when it was looked at, and there is room. */
    method Acquire(starts: bool, meanwhile: nat -> seq<Step>) returns (lease: Option<nat>, seen: seq<nat>)
      requires Valid()
      modifies this
      ensures Valid()
      ensures var live := LivePart(old(pool), old(references));
              && |seen| == |live| && (forall j :: 0 <= j < |live| ==> live[j] < |old(ports)| && seen[j] <= old(ports)[live[j]])
              && if lease.None? then
                !starts && |live| < limit && Advanced(old(leases), leases) && forall n :: n in seen ==> n > 0
              else
                |leases| == |old(leases)| + 1 && Advanced(old(leases), leases[..|old(leases)|]) &&
                var w := leases[|old(leases)|].worker;
                && lease.value == |old(leases)| && leases[lease.value] == Lease(w, Held) && w < |ports|
                && (if w in live then
                      && (exists j :: 0 <= j < |live| && live[j] == w && ports[w] <= seen[j] + 1
                                      && forall n :: n in seen ==> seen[j] <= n)
                      && (ports[w] > 1 ==> |live| == limit)
                    else
                      w == |old(ports)| && |live| < limit && forall n :: n in seen ==> n > 0)
    {
      hide Counted, LivePart, Distinct, Advanced;
      var reusable;
      reusable, seen := Choose(meanwhile);
      ghost var live := pool;
      if reusable.Some? {
        assert reusable.value in live;
        Share(reusable.value);
      } else if !starts {
        return None, seen;
      } else {
        Start();
      }
      NewestAdvanced(old(leases), leases);
      return Some(|leases| - 1), seen;
    }

    /** The worker to share, if one is to be shared. */
    method Choose(meanwhile: nat -> seq<Step>) returns (reusable: Option<nat>, seen: seq<nat>)
      requires Valid()
      modifies this
      ensures Valid() && pool == LivePart(old(pool), old(references)) && |pool| <= limit
      ensures |ports| == |old(ports)| && Advanced(old(leases), leases)
      ensures |seen| == |pool| && forall j :: 0 <= j < |pool| ==> pool[j] < |ports| && seen[j] <= old(ports)[pool[j]]
      ensures reusable.None? ==> |pool| < limit && forall n :: n in seen ==> n > 0
      ensures reusable.Some? ==>
                && (exists j :: 0 <= j < |pool| && pool[j] == reusable.value && ports[pool[j]] <= seen[j]
                                && forall n :: n in seen ==> seen[j] <= n)
                && (ports[reusable.value] > 0 ==> |pool| == limit)
    {
      hide Counted, LivePart, Distinct, Advanced;
      var active := new Option<nat>[MAX_WORKERS](_ => None);
      var activeCount := Retain(active);
      Bounded();
      assert forall k :: 0 <= k < |pool| ==> pool[k] in pool;
      var leastBusy;
      leastBusy, seen := LeastBusy(active, activeCount, meanwhile);
      if leastBusy.None? { return None, seen; }
      var w := active[leastBusy.value].value;
      ghost var were := leases;
      Meanwhile(meanwhile(MAX_WORKERS));
      FurtherAdvanced(old(leases), were, leases);
      assert pool[leastBusy.value] == w;
      return if ports[w] == 0 || activeCount >= limit then Some(w) else None, seen;
    }

    lemma Bounded()
      requires Valid() && pool == LivePart(pool, references)
      ensures |ports| == |references| && forall w :: w in pool ==> w < |ports| && references[w] > 0
    {
    }

    /** A lease on a worker that `acquire` keeps alive. */
    method Share(w: nat)
      requires Valid() && w < |ports| && w in pool && |pool| <= limit
      modifies this`ports, this`references, this`leases
      ensures Valid() && leases == old(leases) + [Lease(w, Held)] && ports == old(ports)[w := old(ports)[w] + 1]
    {
      hide LivePart, Ports, References;
      forall v: nat { CountsSnoc(leases, Lease(w, Held), v); }
      LiveWithin(pool, references[w := references[w] + 1]);
      ports := ports[w := ports[w] + 1];
      references := references[w := references[w] + 1];
      leases := leases + [Lease(w, Held)];
    }

    /** A new worker with its first lease. */
    method Start()
      requires Valid() && |pool| < limit && forall w :: w in pool ==> w < |ports|
      modifies this
      ensures Valid() && leases == old(leases) + [Lease(|old(ports)|, Held)] && |ports| == |old(ports)| + 1
    {
      hide LivePart, Ports, References;
      var w := |ports|;
      forall v: nat { CountsSnoc(leases, Lease(w, Held), v); }
      Unknown(leases, w);
      LiveWithin(pool + [w], references + [1]);
      assert w !in pool;
      pool := pool + [w];
      ports := ports + [1];
      references := references + [1];
      leases := leases + [Lease(w, Held)];
    }

    /** The first step of dropping a lease. */
    method Release(i: nat)
      requires Valid() && i < |leases| && leases[i].stage.Held?
      modifies this`ports, this`leases
      ensures Valid() && leases == old(leases)[i := Lease(old(leases)[i].worker, Stage.Counted)]
      ensures AtMost(ports, old(ports))
    {
      hide LivePart, Ports, References;
      var w := leases[i].worker;
      assert leases[i] in leases;
      forall v: nat { CountsUpdate(leases, i, Stage.Counted, v); }
      ports := ports[w := ports[w] - 1];
      leases := leases[i := Lease(w, Stage.Counted)];
    }

    /** The second step: the worker stops with its last reference. */
    method Drop(i: nat)
      requires Valid() && i < |leases| && leases[i].stage.Counted?
      modifies this`references, this`leases
      ensures Valid() && leases == old(leases)[i := Lease(old(leases)[i].worker, Dropped)]
    {
      hide LivePart, Ports, References;
      var w := leases[i].worker;
      assert leases[i] in leases;
      forall v: nat { CountsUpdate(leases, i, Dropped, v); }
      LiveShrinks(pool, references, references[w := references[w] - 1]);
      references := references[w := references[w] - 1];
      leases := leases[i := Lease(w, Dropped)];
    }
  }

  lemma Nobody(s: seq<nat>, references: seq<nat>)
    ensures LivePart(s[..0], references) == []
  {
  }

  lemma LiveSnoc(s: seq<nat>, references: seq<nat>, w: nat)
    ensures LivePart(s + [w], references)
         == LivePart(s, references) + (if w < |references| && references[w] > 0 then [w] else [])
  {
    hide Distinct;
    assert (s + [w])[..|s|] == s;
  }

  /** A worker that has not been started has no lease. */
  lemma {:induction false} Unknown(leases: seq<Lease>, w: nat)
    requires forall l :: l in leases ==> l.worker < w
    ensures Ports(leases, w) == References(leases, w) == 0
  {
    if leases != [] {
      assert leases[|leases| - 1] in leases;
      Unknown(leases[..|leases| - 1], w);
    }
  }

  datatype Event = Acquire(starts: bool, meanwhile: nat -> seq<Step>) | Dropping(step: Step)

  /** The acquisitions that can have failed: no thread could be started. */
  function Refusable(events: seq<Event>): nat {
    if events == [] then 0
    else
      var e := events[|events| - 1];
      Refusable(events[..|events| - 1]) + (if e.Acquire? && !e.starts then 1 else 0)
  }

  function Acquisitions(events: seq<Event>): nat {
    if events == [] then 0
    else Acquisitions(events[..|events| - 1]) + (if events[|events| - 1].Acquire? then 1 else 0)
  }

  /** Any sequence of acquisitions and two-step drops: the living workers stay within the limit, every
    counter equals the outstanding leases, and each acquisition takes out a lease unless no thread
    could be started for it. */
  method Operate(parallelism: nat, events: seq<Event>)
    returns (live: seq<nat>, ports: seq<nat>, leases: seq<Lease>)
    ensures Distinct(live) && |live| <= Max(1, Min(parallelism, MAX_WORKERS))
    ensures forall w :: 0 <= w < |ports| ==> ports[w] == Ports(leases, w) && (w in live <==> References(leases, w) > 0)
    ensures Acquisitions(events) - Refusable(events) <= |leases| <= Acquisitions(events)
  {
    hide Ports, References, LivePart, Stepped;
    var pool := new Pool(parallelism);
    for i := 0 to |events|
      invariant pool.Valid() && fresh(pool)
      invariant Acquisitions(events[..i]) - Refusable(events[..i]) <= |pool.leases| <= Acquisitions(events[..i])
    {
      assert events[..i + 1][..i] == events[..i];
      match events[i]
      case Acquire(starts, meanwhile) => var _, _ := pool.Acquire(starts, meanwhile);
      case Dropping(step) => pool.Take(step);
    }
    assert events[..|events|] == events;
    live, ports, leases := LivePart(pool.pool, pool.references), pool.ports, pool.leases;
  }
}
