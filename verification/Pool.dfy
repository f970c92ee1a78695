/**
  The state that `o.mutex` guards, as a value, and one function for every critical section that
  changes it. The broadcast channel, which is replaced and then closed, is a generation number: a
  goroutine that captured generation g is asleep while the current generation is still g.
 */
module Pool {
  import opened Collections

  type Id = nat

  datatype ActiveWorker = ActiveWorker(ip: string, runner: string)

  datatype Pool = Pool(
    gen: nat,
    warm: map<Id, string>,
    active: map<Id, ActiveWorker>,
    listeners: map<string, int>,
    maxWorkers: int,
    warmConfig: int,
    booting: int,
    pending: int,
    paused: bool)

  // ----- critical sections

  function Broadcast(p: Pool): Pool {
    p.(gen := p.gen + 1)
  }

  function Claim(p: Pool, id: Id): Pool {
    p.(warm := p.warm - {id}, pending := p.pending - 1)
  }

  function Register(p: Pool, id: Id, ip: string, runner: string): Pool {
    Broadcast(p.(active := p.active[id := ActiveWorker(ip, runner)],
                 listeners := p.listeners[runner := Get(p.listeners, runner) + 1]))
  }

  function Unregister(p: Pool, id: Id): Pool
    requires id in p.active
  {
    var runner := p.active[id].runner;
    p.(active := p.active - {id}, listeners := p.listeners[runner := Get(p.listeners, runner) - 1])
  }

  function HandleDeath(p: Pool, id: Id): Pool {
    if id in p.active then Broadcast(Unregister(p, id))
    else if id in p.warm then Broadcast(p.(warm := p.warm - {id}))
    else p
  }

  function Abort(p: Pool, id: Id): Pool {
    if id in p.active then Unregister(p, id) else p
  }

  /** The two branches of evaluateCapacity: freeze, thaw, or leave alone. */
  ghost function Evaluate(p: Pool): Pool {
    if Sum(p.listeners) >= p.maxWorkers && !p.paused then p.(paused := true)
    else if Sum(p.listeners) < p.maxWorkers && p.paused then p.(paused := false)
    else p
  }

  function Settings(p: Pool, maxWorkers: int, warmConfig: int): Pool {
    Broadcast(p.(maxWorkers := maxWorkers, warmConfig := warmConfig))
  }

  /** First guard of maintainPool: fewer spare containers than wanted. */
  predicate WantsMore(p: Pool) {
    |p.warm| + p.booting < p.warmConfig + p.pending
  }

  /** Second guard of maintainPool; claims in limbo are not in this sum. */
  predicate HasRoom(p: Pool) {
    |p.warm| + |p.active| + p.booting < p.maxWorkers
  }

  predicate MayBoot(p: Pool) {
    WantsMore(p) && HasRoom(p)
  }

  // ----- the per-runner index

  function Of(runner: string): ActiveWorker -> bool {
    (w: ActiveWorker) => w.runner == runner
  }

  /** activeListeners[r] is the number of activeWorkers entries of r. */
  ghost predicate IndexAgrees(active: map<Id, ActiveWorker>, listeners: map<string, int>) {
    && (forall id <- active :: active[id].runner in listeners)
    && (forall r <- listeners :: listeners[r] == Count(active, Of(r)))
  }

  lemma IndexReads(p: Pool, r: string)
    requires IndexAgrees(p.active, p.listeners)
    ensures Get(p.listeners, r) == Count(p.active, Of(r)) >= 0
  {
    if r !in p.listeners {
      assert Where(p.active, Of(r)) == {};
    }
  }

  lemma IndexRegister(p: Pool, id: Id, ip: string, runner: string)
    requires IndexAgrees(p.active, p.listeners) && id !in p.active
    ensures var q := Register(p, id, ip, runner); IndexAgrees(q.active, q.listeners)
  {
    var q := Register(p, id, ip, runner);
    IndexReads(p, runner);
    forall r <- q.listeners ensures q.listeners[r] == Count(q.active, Of(r)) {
      CountUpdate(p.active, id, ActiveWorker(ip, runner), Of(r));
    }
  }

  /** Registering a container that is active already counts it twice. */
  lemma IndexRegisterExactly(p: Pool, id: Id, ip: string, runner: string)
    requires IndexAgrees(p.active, p.listeners)
    ensures var q := Register(p, id, ip, runner); IndexAgrees(q.active, q.listeners) <==> id !in p.active
  {
    if id !in p.active {
      IndexRegister(p, id, ip, runner);
    } else {
      var q := Register(p, id, ip, runner);
      var before := p.active[id].runner;
      CountUpdate(p.active, id, ActiveWorker(ip, runner), Of(before));
      assert q.listeners[before] != Count(q.active, Of(before));
    }
  }

  lemma IndexUnregister(p: Pool, id: Id)
    requires IndexAgrees(p.active, p.listeners) && id in p.active
    ensures var q := Unregister(p, id); IndexAgrees(q.active, q.listeners)
  {
    var q := Unregister(p, id);
    forall r <- q.listeners ensures q.listeners[r] == Count(q.active, Of(r)) {
      CountRemove(p.active, id, Of(r));
    }
  }

  /** The workers of every other runner are counted the same without those of r. */
  lemma OthersOf(active: map<Id, ActiveWorker>, r: string, q: string)
    requires q != r
    ensures Count(active - Where(active, Of(r)), Of(q)) == Count(active, Of(q))
  {
    var rest := active - Where(active, Of(r));
    assert Where(rest, Of(q)) == Where(active, Of(q));
  }

  lemma IndexDropRunner(active: map<Id, ActiveWorker>, listeners: map<string, int>, r: string)
    requires IndexAgrees(active, listeners)
    ensures IndexAgrees(active - Where(active, Of(r)), listeners - {r})
  {
    var rest := active - Where(active, Of(r));
    forall id <- rest ensures rest[id].runner in listeners - {r} {
      assert id in active && id !in Where(active, Of(r));
      assert !Of(r)(active[id]);
    }
    forall q <- listeners - {r} ensures (listeners - {r})[q] == Count(rest, Of(q)) {
      OthersOf(active, r, q);
    }
  }

  lemma EmptyIndex(active: map<Id, ActiveWorker>, listeners: map<string, int>)
    requires IndexAgrees(active, listeners) && listeners == map[]
    ensures |active| == 0
  {
    assert active == map[];
  }

  lemma Shrinks<V>(m: map<string, V>, k: string)
    requires k in m
    ensures |m - {k}| < |m|
  {
    assert (m - {k}).Keys == m.Keys - {k};
  }

  /** The sum that evaluateCapacity computes is the number of active workers. */
  lemma {:induction false} IndexSum(active: map<Id, ActiveWorker>, listeners: map<string, int>)
    requires IndexAgrees(active, listeners)
    ensures Sum(listeners) == |active|
    decreases |listeners|
  {
    if listeners == map[] {
      EmptyIndex(active, listeners);
    } else {
      var r :| r in listeners;
      var active', listeners' := active - Where(active, Of(r)), listeners - {r};
      IndexDropRunner(active, listeners, r);
      Shrinks(listeners, r);
      IndexSum(active', listeners');
      SumRemove(listeners, r);
      CountRest(active, Of(r));
    }
  }

  /** After an evaluation the pause flag says whether the active workers fill the capacity. */
  lemma EvaluateDecides(p: Pool)
    requires IndexAgrees(p.active, p.listeners)
    ensures Evaluate(p) == p.(paused := |p.active| >= p.maxWorkers)
  {
    IndexSum(p.active, p.listeners);
  }
}
