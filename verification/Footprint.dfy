/**
  The containers that really run. An aborted worker runs on until it is killed, and a container that was
  given up without confirmation runs on unseen; the orchestrator counts neither.
 */
module Footprint {
  import opened Collections
  import opened Pool
  import opened Protocol
  import opened Accounting
  import opened Exclusive
  import opened Tracking

  /** A boot whose container Docker has not created yet. */
  predicate Unborn(pc: Pc) {
    pc.Booting?
  }

  predicate IsCreated(pc: Pc) {
    pc.Created?
  }

  /** An abort that has taken its worker out of the map and has not killed it. */
  predicate KillDue(pc: Pc) {
    pc.Killing? || (pc.Owes? && pc.next.ThenKill?)
  }

  /** Running containers, and boots that will create one. */
  ghost function Present(s: Sys): int {
    |Running(s)| + Count(s.threads, Unborn)
  }

  ghost predicate PresentWithin(s: Sys) {
    Present(s) <= s.pool.maxWorkers
  }

  /** A boot that starts although the running containers and the boots under way fill the limit. */
  ghost predicate Overruns(s: Sys, a: Action) {
    || (a.PoolSpawn? && Present(s) >= s.pool.maxWorkers)
    || (a.UpdateSettings? && Present(s) > a.maxWorkers)
  }

  /** Only a creation adds a running container. */
  lemma RunningStep(s: Sys, a: Action)
    requires Enabled(s, a)
    ensures a.Create? ==> Running(Apply(s, a)) == Running(s) + {a.id} && a.id !in Running(s)
    ensures !a.Create? ==> Running(Apply(s, a)) <= Running(s)
  {
    forall id <- Running(Apply(s, a)) | !(a.Create? && a.id == id) ensures id in Running(s) {
      RanBefore(s, a, id);
    }
  }

  lemma UnbornStep(s: Sys, a: Action)
    requires Enabled(s, a)
    ensures a.PoolSpawn? ==> Count(Apply(s, a).threads, Unborn) == Count(s.threads, Unborn) + 1
    ensures a.Create? ==> Count(Apply(s, a).threads, Unborn) == Count(s.threads, Unborn) - 1
    ensures !a.PoolSpawn? ==> Count(Apply(s, a).threads, Unborn) <= Count(s.threads, Unborn)
  {
    CountStep(s, a, Unborn);
  }

  lemma PresentStep(s: Sys, a: Action)
    requires Enabled(s, a)
    ensures a.PoolSpawn? ==> Present(Apply(s, a)) == Present(s) + 1
    ensures !a.PoolSpawn? ==> Present(Apply(s, a)) <= Present(s)
  {
    RunningStep(s, a);
    UnbornStep(s, a);
    if a.PoolSpawn? {
      assert Running(Apply(s, a)) == Running(s);
    } else if !a.Create? {
      SubsetSize(Running(Apply(s, a)), Running(s));
    }
  }

  lemma PresentWithinStep(s: Sys, a: Action)
    requires Enabled(s, a) && PresentWithin(s)
    ensures PresentWithin(Apply(s, a)) <==> !Overruns(s, a)
  {
    PresentStep(s, a);
    LimitKept(s, a);
    if a.UpdateSettings? {
      assert Running(Apply(s, a)) == Running(s);
    }
  }

  lemma LimitKept(s: Sys, a: Action)
    requires Enabled(s, a)
    ensures Apply(s, a).pool.maxWorkers == if a.UpdateSettings? then a.maxWorkers else s.pool.maxWorkers
    ensures a.UpdateSettings? ==> Apply(s, a).threads == s.threads && Apply(s, a).docker == s.docker
  {
  }

  // ----- what the orchestrator counts, and what it does not

  /** The containers in the hands of the threads of a class. */
  ghost function HeldIn(threads: map<Tid, Pc>, p: Pc -> bool): set<Id> {
    set t | t in threads && p(threads[t]) && Handles(threads[t]).Some? :: Handles(threads[t]).value
  }

  lemma HeldRest(threads: map<Tid, Pc>, t: Tid, p: Pc -> bool)
    requires t in threads
    ensures forall id <- HeldIn(threads, p) ::
              id in HeldIn(threads - {t}, p) || (p(threads[t]) && Handles(threads[t]) == Some(id))
  {
    forall id <- HeldIn(threads, p)
      ensures id in HeldIn(threads - {t}, p) || (p(threads[t]) && Handles(threads[t]) == Some(id))
    {
      var u :| u in threads && p(threads[u]) && Handles(threads[u]) == Some(id);
      if u != t {
        assert u in threads - {t} && (threads - {t})[u] == threads[u];
      }
    }
  }

  lemma {:induction false} HeldSize(threads: map<Tid, Pc>, p: Pc -> bool)
    ensures |HeldIn(threads, p)| <= Count(threads, p)
    decreases |threads|
  {
    if threads == map[] {
      assert HeldIn(threads, p) == {};
    } else {
      var t :| t in threads;
      var rest := threads - {t};
      assert rest.Keys == threads.Keys - {t};
      HeldSize(rest, p);
      CountRemove(threads, t, p);
      HeldRest(threads, t, p);
      var mine := if p(threads[t]) && Handles(threads[t]).Some? then {Handles(threads[t]).value} else {};
      SubsetSize(HeldIn(threads, p), HeldIn(rest, p) + mine);
      UnionSize(HeldIn(rest, p), mine);
    }
  }

  /** Containers that were given up and run all the same. */
  ghost function Leaked(s: Sys): set<Id> {
    s.hist.leaked * Running(s)
  }

  lemma RunningCovered(s: Sys)
    requires Tracked(s)
    ensures Running(s) <= s.pool.warm.Keys + s.pool.active.Keys + Leaked(s)
                          + HeldIn(s.threads, InLimbo) + HeldIn(s.threads, IsCreated) + HeldIn(s.threads, KillDue)
  {
    forall id <- Running(s) | Handled(s, id)
      ensures id in HeldIn(s.threads, InLimbo) + HeldIn(s.threads, IsCreated) + HeldIn(s.threads, KillDue)
    {
      var t :| t in s.threads && Handles(s.threads[t]) == Some(id);
      assert InLimbo(s.threads[t]) || IsCreated(s.threads[t]) || KillDue(s.threads[t]);
    }
    assert forall id <- Running(s) :: Known(s, id);
  }

  lemma BootsSplit(threads: map<Tid, Pc>)
    ensures Count(threads, IsBooting) == Count(threads, Unborn) + Count(threads, IsCreated)
  {
    assert Where(threads, IsBooting) == Where(threads, Unborn) + Where(threads, IsCreated);
  }

  lemma UnionSize(a: set<Id>, b: set<Id>)
    ensures |a + b| <= |a| + |b|
  {
    assert a + b == a + (b - a);
    SubsetSize(b - a, b);
  }

  lemma CoverSize(running: set<Id>, a: set<Id>, b: set<Id>, c: set<Id>, d: set<Id>, e: set<Id>, f: set<Id>)
    requires running <= a + b + c + d + e + f
    ensures |running| <= |a| + |b| + |c| + |d| + |e| + |f|
  {
    SubsetSize(running, a + b + c + d + e + f);
    UnionSize(a, b);
    UnionSize(a + b, c);
    UnionSize(a + b + c, d);
    UnionSize(a + b + c + d, e);
    UnionSize(a + b + c + d + e, f);
  }

  /** What runs or will run is what the orchestrator counts, plus kills that are due, plus what it has lost. */
  lemma PresentBound(s: Sys)
    requires Tracked(s) && Counters(s)
    ensures Present(s) <= Occupied(s) + Count(s.threads, KillDue) + |Leaked(s)|
  {
    RunningCovered(s);
    CoverSize(Running(s), s.pool.warm.Keys, s.pool.active.Keys, Leaked(s),
              HeldIn(s.threads, InLimbo), HeldIn(s.threads, IsCreated), HeldIn(s.threads, KillDue));
    HeldSize(s.threads, InLimbo);
    HeldSize(s.threads, IsCreated);
    HeldSize(s.threads, KillDue);
    BootsSplit(s.threads);
  }

  // ----- boots complete

  lemma {:induction false} FreshId(known: set<Id>) returns (id: Id)
    ensures id !in known
    decreases |known|
  {
    if known == {} {
      id := 0;
    } else {
      id := Largest(known) + 1;
    }
  }

  ghost function Largest(known: set<Id>): (max: Id)
    requires known != {}
    ensures forall id <- known :: id <= max
    decreases |known|
  {
    var id :| id in known;
    var rest := known - {id};
    if rest == {} then
      assert known == {id};
      id
    else if Largest(rest) > id then Largest(rest) else id
  }

  /** Every boot under way may still create its container: Present is reached, without any further boot. */
  lemma {:induction false} BootsComplete(s: Sys) returns (run: seq<Action>)
    ensures Legal(s, run) && (forall a <- run :: a.Create?)
    ensures |Running(Exec(s, run))| == Present(s) && Exec(s, run).pool == s.pool
    decreases Count(s.threads, Unborn)
  {
    if Where(s.threads, Unborn) == {} {
      run := [];
    } else {
      var t :| t in Where(s.threads, Unborn);
      var id := FreshId(s.docker.Keys);
      var a := Create(t, id, "", "00000000");
      assert Enabled(s, a);
      RunningStep(s, a);
      UnbornStep(s, a);
      CreateKeepsPool(s, a);
      var rest := BootsComplete(Apply(s, a));
      run := [a] + rest;
      assert run[1..] == rest;
    }
  }

  lemma CreateKeepsPool(s: Sys, a: Action)
    requires Enabled(s, a) && a.Create?
    ensures Apply(s, a).pool == s.pool
  {
  }
}
