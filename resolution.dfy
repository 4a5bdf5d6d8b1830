/**
 * Middleware resolution as a fold over middleware results into the request's context
 * (router-builder.ts, `getMiddlewarePromiseList` and `resolveMiddlewareQueue`).
 * The error type is a parameter because the two revisions throw different exception
 * records.
 */
module Resolution {
  import opened Wrappers
  import opened Types

  /** What one middleware call settles to: a mapping or nothing, or a thrown error. */
  datatype MiddlewareResult<E> = Resolved(value: Option<Context>) | Rejected(error: E)

  /** A middleware, observed through the context it is given. */
  type Middleware<E> = Context -> MiddlewareResult<E>

  /** The context reached so far, and the error that aborted resolution, if any. */
  datatype Phase<E> = Phase(ctx: Context, error: Option<E>)

  /**
   * Copies a middleware's result into the context: nothing when it returned nothing,
   * otherwise every returned key overwrites that key and every other key is kept.
   */
  function Merge(ctx: Context, value: Option<Context>): (r: Context)
    ensures value.None? ==> r == ctx
    ensures value.Some? ==> r.Keys == ctx.Keys + value.value.Keys
    ensures value.Some? ==> forall k :: k in value.value ==> r[k] == value.value[k]
    ensures forall k :: k in ctx && (value.None? || k !in value.value) ==> k in r && r[k] == ctx[k]
  {
    match value
    case None => ctx
    case Some(m) => ctx + m
  }

  /** The parallel entries are all called on the same snapshot of the context, each independently. */
  function Invoke<E>(entries: seq<Middleware<E>>, snapshot: Context): (r: seq<MiddlewareResult<E>>)
    ensures |r| == |entries|
    ensures forall i :: 0 <= i < |entries| ==> r[i] == entries[i](snapshot)
  {
    seq(|entries|, i requires 0 <= i < |entries| => entries[i](snapshot))
  }

  /** The calls of `list.map(...)`, made one after another before any of them settles. */
  method InvokeAll<E>(entries: seq<Middleware<E>>, snapshot: Context) returns (results: seq<MiddlewareResult<E>>)
    ensures results == Invoke(entries, snapshot)
  {
    results := [];
    for i := 0 to |entries|
      invariant |results| == i
      invariant forall j :: 0 <= j < i ==> results[j] == entries[j](snapshot)
    {
      results := results + [entries[i](snapshot)];
    }
  }

  /** The indices 0 .. n-1, in order. */
  function Indices(n: nat): (r: seq<nat>)
    ensures |r| == n && forall i :: 0 <= i < n ==> r[i] == i
  {
    seq(n, i => i)
  }

  /** A settlement order of n promises: every index below n exactly once. */
  predicate IsSchedule(schedule: seq<nat>, n: nat)
  {
    && (forall i :: 0 <= i < |schedule| ==> schedule[i] < n)
    && multiset(schedule) == multiset(Indices(n))
  }

  /** A schedule of n promises mentions exactly the indices below n. */
  lemma ScheduleCovers(s: seq<nat>, n: nat)
    requires IsSchedule(s, n)
    ensures forall i: nat :: i in s <==> i < n
  {
    forall i: nat ensures i in s <==> i < n {
      assert i in s <==> i in multiset(s);
      assert i in Indices(n) <==> i in multiset(Indices(n));
      if i < n {
        assert Indices(n)[i] == i;
      }
    }
  }

  predicate InRange<E>(schedule: seq<nat>, results: seq<MiddlewareResult<E>>)
  {
    forall i :: 0 <= i < |schedule| ==> schedule[i] < |results|
  }

  /**
   * The parallel phase, settled in `schedule` order: each resolved mapping is merged as
   * its promise settles; the first rejection in that order is the one `Promise.all`
   * rejects with. The context is the one reached once every promise has settled.
   */
  function Settle<E>(results: seq<MiddlewareResult<E>>, schedule: seq<nat>, ctx: Context): (p: Phase<E>)
    requires InRange(schedule, results)
    ensures ctx.Keys <= p.ctx.Keys
    ensures p.error.Some? ==> exists i :: 0 <= i < |schedule| && results[schedule[i]] == Rejected(p.error.value)
    decreases |schedule|
  {
    if schedule == [] then Phase(ctx, None)
    else
      var before := Settle(results, schedule[..|schedule| - 1], ctx);
      assert forall i :: 0 <= i < |schedule| - 1 ==> schedule[..|schedule| - 1][i] == schedule[i];
      match results[schedule[|schedule| - 1]]
      case Resolved(v) => Phase(Merge(before.ctx, v), before.error)
      case Rejected(e) => Phase(before.ctx, if before.error.Some? then before.error else Some(e))
  }

  /** Result i contributes key k. */
  ghost predicate Contributes<E>(results: seq<MiddlewareResult<E>>, i: int, k: string)
  {
    0 <= i < |results| && results[i].Resolved? && results[i].value.Some? && k in results[i].value.value
  }

  /** No two resolved mappings share a key. */
  ghost predicate DisjointKeys<E>(results: seq<MiddlewareResult<E>>)
  {
    forall i, j, k :: i != j && Contributes(results, i, k) ==> !Contributes(results, j, k)
  }

  /** The parallel phase gets through only when every entry, called on the snapshot, resolved. */
  lemma SettleNeedsAllResolved<E>(entries: seq<Middleware<E>>, schedule: seq<nat>, snapshot: Context, ctx: Context)
    requires IsSchedule(schedule, |entries|)
    ensures Settle(Invoke(entries, snapshot), schedule, ctx).error.None? ==>
              forall i :: 0 <= i < |entries| ==> entries[i](snapshot).Resolved?
  {
    var results := Invoke(entries, snapshot);
    SettleRejects(results, schedule, ctx);
    if i :| 0 <= i < |entries| && entries[i](snapshot).Rejected? {
      ScheduleCovers(schedule, |entries|);
      assert i in schedule;
      var j :| 0 <= j < |schedule| && schedule[j] == i;
      assert results[schedule[j]].Rejected?;
    }
  }

  /** The phase records an error exactly when some settled result was a rejection. */
  lemma {:induction false} SettleRejects<E>(results: seq<MiddlewareResult<E>>, schedule: seq<nat>, ctx: Context)
    requires InRange(schedule, results)
    ensures Settle(results, schedule, ctx).error.Some? <==>
              exists i :: 0 <= i < |schedule| && results[schedule[i]].Rejected?
    decreases |schedule|
  {
    if schedule != [] {
      var n := |schedule| - 1;
      SettleRejects(results, schedule[..n], ctx);
      assert forall i :: 0 <= i < n ==> schedule[..n][i] == schedule[i];
    }
  }

  /**
   * Pointwise content of the settled context when keys are disjoint: a key some
   * settled result contributes holds that result's value; any other key is as before.
   */
  lemma {:induction false} SettleAt<E>(results: seq<MiddlewareResult<E>>, schedule: seq<nat>, ctx: Context, k: string)
    requires InRange(schedule, results)
    requires DisjointKeys(results)
    ensures forall i :: i in schedule && Contributes(results, i, k) ==>
              k in Settle(results, schedule, ctx).ctx &&
              Settle(results, schedule, ctx).ctx[k] == results[i].value.value[k]
    ensures (forall i :: i in schedule ==> !Contributes(results, i, k)) ==>
              (k in Settle(results, schedule, ctx).ctx <==> k in ctx) &&
              (k in ctx ==> Settle(results, schedule, ctx).ctx[k] == ctx[k])
    decreases |schedule|
  {
    if schedule != [] {
      var n := |schedule| - 1;
      var prefix := schedule[..n];
      var j := schedule[n];
      SettleAt(results, prefix, ctx, k);
      assert schedule == prefix + [j];
      assert forall i :: i in schedule <==> i in prefix || i == j;
      var before := Settle(results, prefix, ctx);
      var after := Settle(results, schedule, ctx);
      if Contributes(results, j, k) {
        assert after.ctx[k] == results[j].value.value[k];
        forall i | i in schedule && Contributes(results, i, k)
          ensures k in after.ctx && after.ctx[k] == results[i].value.value[k]
        {
          assert i == j;
        }
      } else {
        assert k in after.ctx <==> k in before.ctx;
        assert k in before.ctx ==> after.ctx[k] == before.ctx[k];
      }
    }
  }

  /**
   * Parallel entries whose results use disjoint keys give the same context whatever
   * order they settle in, and the same verdict on whether one of them threw.
   */
  lemma SettleOrderIndependent<E>(results: seq<MiddlewareResult<E>>, s1: seq<nat>, s2: seq<nat>, ctx: Context)
    requires IsSchedule(s1, |results|) && IsSchedule(s2, |results|)
    requires DisjointKeys(results)
    ensures Settle(results, s1, ctx).ctx == Settle(results, s2, ctx).ctx
    ensures Settle(results, s1, ctx).error.Some? == Settle(results, s2, ctx).error.Some?
  {
    var r1 := Settle(results, s1, ctx).ctx;
    var r2 := Settle(results, s2, ctx).ctx;
    ScheduleCovers(s1, |results|);
    ScheduleCovers(s2, |results|);
    forall k
      ensures k in r1 <==> k in r2
      ensures k in r1 ==> r1[k] == r2[k]
    {
      SettleAt(results, s1, ctx, k);
      SettleAt(results, s2, ctx, k);
    }
    SettleRejects(results, s1, ctx);
    SettleRejects(results, s2, ctx);
    if Settle(results, s1, ctx).error.Some? {
      var i :| 0 <= i < |s1| && results[s1[i]].Rejected?;
      assert s1[i] in s2;
    }
    if Settle(results, s2, ctx).error.Some? {
      var i :| 0 <= i < |s2| && results[s2[i]].Rejected?;
      assert s2[i] in s1;
    }
  }

  /** A queue bucket run in order: each middleware sees every earlier merge; the first throw stops the rest. */
  function RunQueue<E>(queue: seq<Middleware<E>>, ctx: Context): (p: Phase<E>)
    ensures p.error.Some? ==> exists j, c :: 0 <= j < |queue| && queue[j](c) == Rejected(p.error.value)
    decreases |queue|
  {
    if queue == [] then Phase(ctx, None)
    else
      var before := RunQueue(queue[..|queue| - 1], ctx);
      assert forall j :: 0 <= j < |queue| - 1 ==> queue[..|queue| - 1][j] == queue[j];
      if before.error.Some? then before
      else match queue[|queue| - 1](before.ctx)
        case Resolved(v) => Phase(Merge(before.ctx, v), None)
        case Rejected(e) => Phase(before.ctx, Some(e))
  }

  /** Running two queues back to back is running the first, then (unless it threw) the second on its context. */
  lemma {:induction false} RunQueueAppend<E>(q1: seq<Middleware<E>>, q2: seq<Middleware<E>>, ctx: Context)
    ensures RunQueue(q1 + q2, ctx) ==
              var p := RunQueue(q1, ctx);
              if p.error.Some? then p else RunQueue(q2, p.ctx)
    decreases |q2|
  {
    if q2 == [] {
      assert q1 + q2 == q1;
    } else {
      var n := |q2| - 1;
      assert (q1 + q2)[..|q1 + q2| - 1] == q1 + q2[..n];
      RunQueueAppend(q1, q2[..n], ctx);
    }
  }

  /** A middleware result that merges key k into the context. */
  predicate Sets<E>(r: MiddlewareResult<E>, k: string)
  {
    r.Resolved? && r.value.Some? && k in r.value.value
  }

  /** What the middleware at position l of the queue receives: the context after the ones before it. */
  function SeenBy<E>(queue: seq<Middleware<E>>, ctx: Context, l: nat): Context
    requires l <= |queue|
  {
    RunQueue(queue[..l], ctx).ctx
  }

  /** A run that ends without an error had no error at any earlier point. */
  lemma {:induction false} RunQueueNoErrorBefore<E>(queue: seq<Middleware<E>>, ctx: Context, l: nat, i: nat)
    requires l <= i <= |queue| && RunQueue(queue[..i], ctx).error.None?
    ensures RunQueue(queue[..l], ctx).error.None?
    decreases i - l
  {
    if l < i {
      assert queue[..i][..i - 1] == queue[..i - 1];
      RunQueueNoErrorBefore(queue, ctx, l, i - 1);
    }
  }

  /**
   * Sequential visibility over the whole run: a key merged by middleware j and not merged
   * again by any middleware after it is seen by every later middleware i with j's value.
   */
  lemma {:induction false} RunQueueLaterSees<E>(queue: seq<Middleware<E>>, ctx: Context, j: nat, i: nat, k: string)
    requires j < i <= |queue| && RunQueue(queue[..i], ctx).error.None?
    requires Sets(queue[j](SeenBy(queue, ctx, j)), k)
    requires forall l :: j < l < i ==> !Sets(queue[l](SeenBy(queue, ctx, l)), k)
    ensures k in SeenBy(queue, ctx, i)
    ensures SeenBy(queue, ctx, i)[k] == queue[j](SeenBy(queue, ctx, j)).value.value[k]
    decreases i
  {
    RunQueueStep(queue, ctx, i);
    if j < i - 1 {
      RunQueueLaterSees(queue, ctx, j, i - 1, k);
      assert !Sets(queue[i - 1](SeenBy(queue, ctx, i - 1)), k);
    }
  }

  /** One step of a run that has not thrown: middleware i - 1 resolved, and its result was merged into what it saw. */
  lemma RunQueueStep<E>(queue: seq<Middleware<E>>, ctx: Context, i: nat)
    requires 0 < i <= |queue| && RunQueue(queue[..i], ctx).error.None?
    ensures RunQueue(queue[..i - 1], ctx).error.None?
    ensures var r := queue[i - 1](SeenBy(queue, ctx, i - 1));
            r.Resolved? && SeenBy(queue, ctx, i) == Merge(SeenBy(queue, ctx, i - 1), r.value)
  {
    assert queue[..i][..i - 1] == queue[..i - 1];
    assert queue[..i][i - 1] == queue[i - 1];
  }

  lemma {:induction false} RunQueueKeepsKeys<E>(queue: seq<Middleware<E>>, ctx: Context)
    ensures ctx.Keys <= RunQueue(queue, ctx).ctx.Keys
    decreases |queue|
  {
    if queue != [] {
      RunQueueKeepsKeys(queue[..|queue| - 1], ctx);
    }
  }

  /** `resolveMiddlewareQueue`'s loop: await each middleware in turn and copy its keys into `req.middleware`. */
  method ResolveQueue<E>(queue: seq<Middleware<E>>, req: Request) returns (error: Option<E>)
    modifies req
    ensures Phase(req.middleware, error) == RunQueue(queue, old(req.middleware))
  {
    ghost var start := req.middleware;
    error := None;
    var i := 0;
    while i < |queue|
      invariant 0 <= i <= |queue|
      invariant error.None? ==> Phase(req.middleware, error) == RunQueue(queue[..i], start)
      invariant error.Some? ==> Phase(req.middleware, error) == RunQueue(queue, start)
      decreases |queue| - i, if error.None? then 1 else 0
    {
      assert queue[..i + 1][..i] == queue[..i];
      var result := queue[i](req.middleware);
      match result {
        case Resolved(v) =>
          req.middleware := Merge(req.middleware, v);
          i := i + 1;
        case Rejected(e) =>
          error := Some(e);
          RunQueueAppend(queue[..i + 1], queue[i + 1..], start);
          assert queue[..i + 1] + queue[i + 1..] == queue;
          return;
      }
    }
    assert queue[..i] == queue;
  }

  /** The settlement of the parallel promises: merge each resolved mapping into `req.middleware` in settle order. */
  method SettleInto<E>(results: seq<MiddlewareResult<E>>, schedule: seq<nat>, req: Request) returns (error: Option<E>)
    requires InRange(schedule, results)
    modifies req
    ensures Phase(req.middleware, error) == Settle(results, schedule, old(req.middleware))
  {
    ghost var start := req.middleware;
    error := None;
    for i := 0 to |schedule|
      invariant Phase(req.middleware, error) == Settle(results, schedule[..i], start)
    {
      assert schedule[..i + 1][..i] == schedule[..i];
      match results[schedule[i]] {
        case Resolved(v) =>
          req.middleware := Merge(req.middleware, v);
        case Rejected(e) =>
          if error.None? {
            error := Some(e);
          }
      }
    }
    assert schedule[..|schedule|] == schedule;
  }
}
