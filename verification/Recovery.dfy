/** recoverState on the Docker listing rebuilds the state that a crash destroyed. */
module Recovery {
  import opened Collections
  import opened Names
  import opened Pool
  import opened Protocol
  import opened Exclusive
  import opened Tracking
  import opened Runs

  /** One entry of the container listing. */
  datatype Listed = Listed(id: Id, names: seq<string>, state: string, ip: string)

  const RUNNING := "running"

  /** The first name without its leading slash, or nothing. */
  function NameOf(c: Listed): string {
    if |c.names| > 0 then TrimPrefix(c.names[0], "/") else ""
  }

  /** What the recovery loop does with one entry. */
  function RecoverOne(p: Pool, c: Listed): Pool {
    if c.state != RUNNING then p
    else if IsActiveName(NameOf(c)) then
      var runner := ParseRunner(NameOf(c));
      p.(active := p.active[c.id := ActiveWorker(c.ip, runner)],
         listeners := p.listeners[runner := Get(p.listeners, runner) + 1])
    else if IsWarmName(NameOf(c)) then p.(warm := p.warm[c.id := c.ip])
    else p
  }

  /** The recovery loop over a prefix of the listing. */
  function Recover(p: Pool, listing: seq<Listed>): Pool {
    if listing == [] then p
    else RecoverOne(Recover(p, listing[..|listing| - 1]), listing[|listing| - 1])
  }

  predicate DistinctIds(listing: seq<Listed>) {
    forall i, j :: 0 <= i < j < |listing| ==> listing[i].id != listing[j].id
  }

  predicate IsEmpty(p: Pool) {
    p.warm == map[] && p.active == map[] && p.listeners == map[]
  }

  predicate RecoversActive(c: Listed) {
    c.state == RUNNING && IsActiveName(NameOf(c))
  }

  predicate RecoversWarm(c: Listed) {
    c.state == RUNNING && !IsActiveName(NameOf(c)) && IsWarmName(NameOf(c))
  }

  /** The entry of a container, if it is listed. */
  function Entry(listing: seq<Listed>, id: Id): Option<Listed> {
    if listing == [] then None
    else if listing[|listing| - 1].id == id then Some(listing[|listing| - 1])
    else Entry(listing[..|listing| - 1], id)
  }

  lemma {:induction false} EntryFound(listing: seq<Listed>, id: Id)
    ensures Entry(listing, id).Some? ==> Entry(listing, id).value in listing && Entry(listing, id).value.id == id
    ensures Entry(listing, id).None? ==> forall c <- listing :: c.id != id
    decreases |listing|
  {
    if listing != [] {
      var init := listing[..|listing| - 1];
      assert listing == init + [listing[|listing| - 1]];
      EntryFound(init, id);
    }
  }

  /** Before its own entry a container is not in the listing. */
  lemma LastIsNew(listing: seq<Listed>)
    requires listing != [] && DistinctIds(listing)
    ensures DistinctIds(listing[..|listing| - 1])
    ensures Entry(listing[..|listing| - 1], listing[|listing| - 1].id).None?
  {
    EntryFound(listing[..|listing| - 1], listing[|listing| - 1].id);
  }

  /** The recovery loop sorts every running container by its name, whatever the order of the listing. */
  lemma {:induction false} RecoverClassifies(p: Pool, listing: seq<Listed>, id: Id)
    requires IsEmpty(p) && DistinctIds(listing)
    ensures var q, e := Recover(p, listing), Entry(listing, id);
            && (id in q.warm <==> e.Some? && RecoversWarm(e.value))
            && (id in q.warm ==> q.warm[id] == e.value.ip)
            && (id in q.active <==> e.Some? && RecoversActive(e.value))
            && (id in q.active ==> q.active[id] == ActiveWorker(e.value.ip, ParseRunner(NameOf(e.value))))
    decreases |listing|
  {
    if listing != [] {
      LastIsNew(listing);
      RecoverClassifies(p, listing[..|listing| - 1], id);
    }
  }

  /** The recovery loop establishes the per-runner index and touches nothing but the three maps. */
  lemma {:induction false} RecoverIndexes(p: Pool, listing: seq<Listed>)
    requires IsEmpty(p) && DistinctIds(listing)
    ensures var q := Recover(p, listing);
            && IndexAgrees(q.active, q.listeners)
            && q == p.(warm := q.warm, active := q.active, listeners := q.listeners)
    decreases |listing|
  {
    if listing != [] {
      var init, c := listing[..|listing| - 1], listing[|listing| - 1];
      LastIsNew(listing);
      RecoverIndexes(p, init);
      RecoverClassifies(p, init, c.id);
      if RecoversActive(c) {
        IndexRegister(Recover(p, init), c.id, c.ip, ParseRunner(NameOf(c)));
      }
    }
  }

  // ----- the listing of a crashed orchestrator's containers

  /** One entry for every running container, truthful about those it lists. */
  ghost predicate Lists(s: Sys, listing: seq<Listed>) {
    && DistinctIds(listing)
    && (forall c <- listing ::
          && c.id in s.docker
          && (c.state == RUNNING <==> s.docker[c.id].running)
          && c.names == ["/" + s.docker[c.id].name]
          && c.ip == s.docker[c.id].ip)
    && (forall id <- Running(s) :: exists c <- listing :: c.id == id)
  }

  function LiveWarm(s: Sys): map<Id, string> {
    map id | id in s.pool.warm && id in Running(s) :: s.pool.warm[id]
  }

  function LiveActive(s: Sys): map<Id, ActiveWorker> {
    map id | id in s.pool.active && id in Running(s) :: s.pool.active[id]
  }

  /** Every running container is in one of the two maps. */
  ghost predicate AllPlaced(s: Sys) {
    Running(s) <= s.pool.warm.Keys + s.pool.active.Keys
  }

  /** The name of every live active container carries its runner: the last rename went through. */
  predicate WellNamed(s: Sys) {
    forall id <- s.pool.active :: id in Running(s) ==>
      NamedFor(s.docker[id], s.pool.active[id].runner, s.pool.active[id].ip)
  }

  lemma NameStripped(name: string)
    ensures TrimPrefix("/" + name, "/") == name
  {
    assert ("/" + name)[1..] == name;
  }

  lemma ListedName(s: Sys, listing: seq<Listed>, c: Listed)
    requires Lists(s, listing) && c in listing
    ensures NameOf(c) == s.docker[c.id].name
  {
    NameStripped(s.docker[c.id].name);
  }

  /** What a listing recovers, container by container. */
  lemma RecoversByName(s: Sys, listing: seq<Listed>, p: Pool, id: Id)
    requires IsEmpty(p) && Lists(s, listing)
    ensures var q := Recover(p, listing);
            && (id in q.active <==> id in Running(s) && IsActiveName(s.docker[id].name))
            && (id in q.active ==> q.active[id] == ActiveWorker(s.docker[id].ip, ParseRunner(s.docker[id].name)))
            && (id in q.warm <==> id in Running(s) && !IsActiveName(s.docker[id].name) && IsWarmName(s.docker[id].name))
            && (id in q.warm ==> q.warm[id] == s.docker[id].ip)
  {
    RecoverClassifies(p, listing, id);
    EntryFound(listing, id);
    if Entry(listing, id).Some? {
      ListedName(s, listing, Entry(listing, id).value);
    }
  }

  /** A live tracked container is recovered into its own place. */
  lemma TrackedIsRecovered(s: Sys, listing: seq<Listed>, p: Pool, id: Id)
    requires IsEmpty(p) && Lists(s, listing) && Named(s) && WellNamed(s)
    requires id in Running(s)
    ensures var q := Recover(p, listing);
            && (id in s.pool.active ==> id in q.active && q.active[id] == s.pool.active[id])
            && (id in s.pool.warm ==> id in q.warm && q.warm[id] == s.pool.warm[id] && id !in q.active)
  {
    RecoversByName(s, listing, p, id);
    PrefixesExclusive(s.docker[id].name);
  }

  lemma RecoveredInPlace(s: Sys, listing: seq<Listed>, p: Pool, id: Id)
    requires IsEmpty(p) && Lists(s, listing) && Named(s) && WellNamed(s)
    requires s.pool.warm.Keys !! s.pool.active.Keys && AllPlaced(s)
    ensures var q := Recover(p, listing);
            && (id in q.warm <==> id in LiveWarm(s)) && (id in q.warm ==> q.warm[id] == LiveWarm(s)[id])
            && (id in q.active <==> id in LiveActive(s)) && (id in q.active ==> q.active[id] == LiveActive(s)[id])
  {
    RecoversByName(s, listing, p, id);
    if id in Running(s) {
      assert id in s.pool.warm.Keys + s.pool.active.Keys;
      TrackedIsRecovered(s, listing, p, id);
    }
  }

  lemma SameMap<V>(m: map<Id, V>, n: map<Id, V>)
    requires forall id :: (id in m <==> id in n) && (id in m ==> m[id] == n[id])
    ensures m == n
  {
    assert m.Keys == n.Keys;
  }

  /** When all live containers are placed and well named, recovery rebuilds both maps. */
  lemma PlacedIsRecovered(s: Sys, listing: seq<Listed>, p: Pool)
    requires IsEmpty(p) && Lists(s, listing) && Named(s) && WellNamed(s)
    requires s.pool.warm.Keys !! s.pool.active.Keys && AllPlaced(s)
    ensures Recover(p, listing).warm == LiveWarm(s)
    ensures Recover(p, listing).active == LiveActive(s)
  {
    forall id {
      RecoveredInPlace(s, listing, p, id);
    }
    SameMap(Recover(p, listing).warm, LiveWarm(s));
    SameMap(Recover(p, listing).active, LiveActive(s));
  }

  // ----- what can go wrong

  /** A container that runs outside the maps was given up, or is in the hands of a call, a boot or an abort. */
  predicate Astray(s: Sys, id: Id) {
    id in Running(s) && id !in s.pool.warm && id !in s.pool.active
  }

  /** Nothing that was given up, and nothing in flight, runs outside the maps. */
  ghost predicate NothingAstray(s: Sys) {
    && (forall id <- s.hist.leaked :: !Astray(s, id))
    && (forall t <- s.threads :: Handles(s.threads[t]).Some? ==> !Astray(s, Handles(s.threads[t]).value))
  }

  /** No live active container's rename failed or lacked a runner name. */
  ghost predicate RenamesHeld(s: Sys) {
    forall id <- s.hist.misnamed :: !(id in s.pool.active && id in Running(s))
  }

  lemma AstrayExactly(s: Sys)
    requires Tracked(s)
    ensures AllPlaced(s) <==> NothingAstray(s)
  {
    if NothingAstray(s) {
      forall id <- Running(s) ensures id in s.pool.warm.Keys + s.pool.active.Keys {
        assert Known(s, id);
        if t :| t in s.threads && Handles(s.threads[t]) == Some(id) {
          assert !Astray(s, Handles(s.threads[t]).value);
        }
      }
    } else {
      assert exists id <- Running(s) :: Astray(s, id);
    }
  }

  lemma RenamesExactly(s: Sys)
    requires Named(s)
    ensures WellNamed(s) <==> RenamesHeld(s)
  {
    if RenamesHeld(s) {
      forall id <- s.pool.active | id in Running(s)
        ensures NamedFor(s.docker[id], s.pool.active[id].runner, s.pool.active[id].ip)
      {
        assert NamedUnlessMisnamed(s, id, s.pool.active[id].runner, s.pool.active[id].ip);
      }
    } else {
      var id :| id in s.hist.misnamed && id in s.pool.active && id in Running(s);
      assert NamedUnlessMisnamed(s, id, s.pool.active[id].runner, s.pool.active[id].ip);
    }
  }

  // ----- the theorem

  /** A rename that succeeds and carries a runner name. */
  predicate NamesWell(s: Sys, a: Action)
    requires Enabled(s, a)
  {
    a.Rename? ==> a.ok && s.threads[a.t].runner != ""
  }

  /**
    Docker reports a booted container as dead only if it is, and removes what it is asked to remove. A
    call's alive check may lie: what it condemns is removed.
   */
  predicate Truthful(s: Sys, a: Action)
    requires Enabled(s, a)
  {
    && (a.BootCheck? && !a.ok ==> s.threads[a.t].id !in Running(s))
    && (a.Remove? || a.Kill? || a.BootFail? ==> a.ok)
  }

  ghost predicate WellBehaved(s: Sys, run: seq<Action>)
    requires Legal(s, run)
    decreases |run|
  {
    run == [] || (NamesWell(s, run[0]) && Truthful(s, run[0]) && WellBehaved(Apply(s, run[0]), run[1..]))
  }

  predicate GivenUp(pc: Pc) {
    pc.Removed? || pc.Reaping?
  }

  /** Nothing that was given up still runs. */
  ghost predicate LeakFree(s: Sys) {
    && s.hist.misnamed == {}
    && s.hist.leaked !! Running(s)
    && (forall t <- s.threads :: GivenUp(s.threads[t]) ==>
          s.threads[t].id in s.docker && s.threads[t].id !in Running(s))
    && s.hist.leaked <= s.docker.Keys
  }

  predicate ActsOn(pc: Pc) {
    pc.Renamed? || pc.Condemned? || pc.PostInsert?
  }

  /** The containers that threads act on are known to Docker. */
  ghost predicate ActsOnKnown(s: Sys) {
    forall t <- s.threads :: ActsOn(s.threads[t]) ==> s.threads[t].id in s.docker
  }

  predicate Dead(s: Sys, id: Id) {
    id in s.docker && id !in Running(s)
  }

  lemma DeadStays(s: Sys, a: Action, id: Id)
    requires Enabled(s, a) && Dead(s, id)
    ensures Dead(Apply(s, a), id)
  {
    StepMoves(s, a);
    if id in Running(Apply(s, a)) { RanBefore(s, a, id); }
  }

  /** What a goroutine gives up is dead by then. */
  lemma GivenUpIsDead(s: Sys, a: Action)
    requires Enabled(s, a) && LeakFree(s) && ActsOnKnown(s) && Truthful(s, a) && Actor(a).Some?
    ensures a.t in Apply(s, a).threads
    ensures var pc' := Apply(s, a).threads[a.t]; GivenUp(pc') ==> Dead(Apply(s, a), pc'.id)
    ensures var pc' := Apply(s, a).threads[a.t]; ActsOn(pc') ==> pc'.id in s.docker
  {
    if GivesUp(a) {
      GiverActsWell(s, a);
    } else {
      OthersGiveNothingUp(s, a);
    }
  }

  /** The actions after which a goroutine has given something up or acts on a container by its id. */
  predicate GivesUp(a: Action) {
    a.Remove? || a.BootCheck? || a.Rename? || a.Check? || a.Insert?
  }

  lemma GiverActsWell(s: Sys, a: Action)
    requires Enabled(s, a) && LeakFree(s) && ActsOnKnown(s) && Truthful(s, a) && GivesUp(a)
    ensures a.t in Apply(s, a).threads
    ensures var pc' := Apply(s, a).threads[a.t]; GivenUp(pc') ==> Dead(Apply(s, a), pc'.id)
    ensures var pc' := Apply(s, a).threads[a.t]; ActsOn(pc') ==> pc'.id in s.docker
  {
  }

  lemma OthersGiveNothingUp(s: Sys, a: Action)
    requires Enabled(s, a) && Actor(a).Some? && !GivesUp(a)
    ensures a.t in Apply(s, a).threads
    ensures !GivenUp(Apply(s, a).threads[a.t]) && !ActsOn(Apply(s, a).threads[a.t])
  {
    if Claims(a) {
      ClaimersGiveNothingUp(s, a);
    }
  }

  lemma ClaimersGiveNothingUp(s: Sys, a: Action)
    requires Enabled(s, a) && Claims(a)
    ensures a.t in Apply(s, a).threads
    ensures !GivenUp(Apply(s, a).threads[a.t]) && !ActsOn(Apply(s, a).threads[a.t])
  {
  }

  lemma LeakedIsDead(s: Sys, a: Action)
    requires Enabled(s, a) && LeakFree(s) && NamesWell(s, a) && Truthful(s, a)
    ensures forall id <- Apply(s, a).hist.leaked :: Dead(s, id)
    ensures Apply(s, a).hist.misnamed == {}
  {
  }

  lemma LeakFreeStep(s: Sys, a: Action)
    requires Enabled(s, a) && LeakFree(s) && ActsOnKnown(s) && NamesWell(s, a) && Truthful(s, a)
    ensures LeakFree(Apply(s, a)) && ActsOnKnown(Apply(s, a))
  {
    MovesOne(s, a);
    StepMoves(s, a);
    LeakedIsDead(s, a);
    if Actor(a).Some? { GivenUpIsDead(s, a); }
    forall id | Dead(s, id) ensures Dead(Apply(s, a), id) { DeadStays(s, a, id); }
    LeakFreeKept(s, Apply(s, a), a);
  }

  lemma LeakFreeKept(s: Sys, s': Sys, a: Action)
    requires LeakFree(s) && ActsOnKnown(s) && s.docker.Keys <= s'.docker.Keys && s'.hist.misnamed == {}
    requires Actor(a).None? ==> s'.threads == s.threads
    requires Actor(a).Some? ==> a.t in s'.threads && s'.threads == s.threads[a.t := s'.threads[a.t]]
    requires Actor(a).Some? ==> (GivenUp(s'.threads[a.t]) ==> Dead(s', s'.threads[a.t].id))
                                && (ActsOn(s'.threads[a.t]) ==> s'.threads[a.t].id in s.docker)
    requires forall id <- s'.hist.leaked :: Dead(s, id)
    requires forall id :: Dead(s, id) ==> Dead(s', id)
    ensures LeakFree(s') && ActsOnKnown(s')
  {
    forall t <- s'.threads | GivenUp(s'.threads[t]) ensures Dead(s', s'.threads[t].id) {
      if Actor(a) != Some(t) {
        assert Dead(s, s.threads[t].id);
      }
    }
    forall id <- s'.hist.leaked ensures Dead(s', id) {
      assert Dead(s, id);
    }
  }

  lemma {:induction false} LeakFreeRun(s: Sys, run: seq<Action>)
    requires Legal(s, run) && WellBehaved(s, run) && LeakFree(s) && ActsOnKnown(s)
    ensures LeakFree(Exec(s, run))
    decreases |run|
  {
    if run != [] {
      LeakFreeStep(s, run[0]);
      LeakFreeRun(Apply(s, run[0]), run[1..]);
    }
  }

  /** No call, boot or abort is in the middle of handling a container. */
  ghost predicate Quiescent(s: Sys) {
    forall t <- s.threads :: !InFlight(s.threads[t])
  }

  /** With nothing in flight and truthful answers, every running container is in a map. */
  lemma {:induction false} QuiescentIsPlaced(s0: Sys, run: seq<Action>, s: Sys)
    requires Reaches(s0, run, s) && WellBehaved(s0, run) && Quiescent(s) && s0.hist.leaked !! Running(s0)
    ensures AllPlaced(s) && WellNamed(s) && Named(s) && s.pool.warm.Keys !! s.pool.active.Keys
  {
    EveryRun(s0, run, s);
    InitLeakFree(s0);
    LeakFreeRun(s0, run);
    NothingElse(s);
    RenamesExactly(s);
  }

  lemma InitLeakFree(s: Sys)
    requires Init(s) && s.hist.leaked !! Running(s)
    ensures LeakFree(s) && ActsOnKnown(s)
  {
    assert forall t <- s.threads :: s.threads[t] == EventIdle;
  }

  lemma NothingElse(s: Sys)
    requires Tracked(s) && LeakFree(s) && Quiescent(s)
    ensures AllPlaced(s)
  {
    forall id <- Running(s) ensures id in s.pool.warm.Keys + s.pool.active.Keys {
      assert Known(s, id);
      assert forall t <- s.threads :: !InFlight(s.threads[t]);
    }
  }

  /**
    Crash recovery is the identity. From any reachable state with nothing in flight, after a start that
    left nothing running unlisted, recoverState on
    any listing of the containers rebuilds both maps restricted to the running containers, and an
    index with the same count for every runner.
   */
  lemma {:induction false} CrashRecoveryIsIdentity(s0: Sys, run: seq<Action>, s: Sys, listing: seq<Listed>, p: Pool)
    requires Reaches(s0, run, s) && WellBehaved(s0, run) && Quiescent(s) && s0.hist.leaked !! Running(s0)
    requires Lists(s, listing) && IsEmpty(p)
    ensures Recover(p, listing).warm == LiveWarm(s)
    ensures Recover(p, listing).active == LiveActive(s)
    ensures forall r :: Get(Recover(p, listing).listeners, r) == Count(LiveActive(s), Of(r))
  {
    QuiescentIsPlaced(s0, run, s);
    PlacedIsRecovered(s, listing, p);
    RecoverIndexes(p, listing);
    forall r ensures Get(Recover(p, listing).listeners, r) == Count(LiveActive(s), Of(r)) {
      IndexReads(Recover(p, listing), r);
    }
  }

  /** A running container that is in no map, or was misnamed, is recovered out of place. */
  lemma MisplacedShows(s: Sys, listing: seq<Listed>, p: Pool, id: Id)
    requires IsEmpty(p) && Lists(s, listing) && Labelled(s) && Named(s) && id in Running(s)
    requires id !in s.pool.warm.Keys + s.pool.active.Keys || (id in s.pool.active && id in s.hist.misnamed)
    ensures !(Recover(p, listing).warm == LiveWarm(s) && Recover(p, listing).active == LiveActive(s))
  {
    var q := Recover(p, listing);
    RecoversByName(s, listing, p, id);
    if id in s.pool.active {
      assert id in LiveActive(s);
    } else {
      assert id in q.warm || id in q.active;
      assert id !in LiveWarm(s) && id !in LiveActive(s);
    }
  }

  /**
    Whatever Docker answered, both maps come back exactly when in the run so far no rename of a container
    that is now active and alive failed or lacked a runner name, and nothing given up or in flight runs.
   */
  lemma {:induction false} RecoveredExactly(s0: Sys, run: seq<Action>, s: Sys, listing: seq<Listed>, p: Pool)
    requires Reaches(s0, run, s) && Lists(s, listing) && IsEmpty(p)
    ensures Recover(p, listing).warm == LiveWarm(s) && Recover(p, listing).active == LiveActive(s)
            <==> RenamesHeld(s) && NothingAstray(s)
  {
    EveryRun(s0, run, s);
    AstrayExactly(s);
    RenamesExactly(s);
    if AllPlaced(s) && WellNamed(s) {
      PlacedIsRecovered(s, listing, p);
    } else if !AllPlaced(s) {
      var id :| id in Running(s) && id !in s.pool.warm.Keys + s.pool.active.Keys;
      MisplacedShows(s, listing, p, id);
    } else {
      var id :| id in s.hist.misnamed && id in s.pool.active && id in Running(s);
      MisplacedShows(s, listing, p, id);
    }
  }

  // ----- a restart is a start

  /** The state NewOrchestrator builds from Docker's containers: fresh goroutines, recovered maps. */
  function Restarted(s: Sys, p: Pool, listed: Option<seq<Listed>>): Sys {
    var q := if listed.Some? then Recover(p, listed.value) else p;
    Sys(q, false, Ready, map[0 := EventIdle], s.docker, s.undelivered,
        History(q, q.maxWorkers, Max(0, q.warmConfig), 0, 0, {}, [], [], [], {}, {},
                if listed.Some? then {} else Running(s)))
  }

  /**
    After a crash in any reachable state, whatever was in flight and whatever was leaked or misnamed,
    the recovered orchestrator is again a legal start: every theorem about runs holds of it. This is so
    even when the containers cannot be listed and run on unseen.
   */
  lemma {:induction false} RestartIsStart(s0: Sys, run: seq<Action>, s: Sys, listed: Option<seq<Listed>>, p: Pool)
    requires Reaches(s0, run, s) && (listed.Some? ==> Lists(s, listed.value))
    requires IsEmpty(p) && p.booting == 0 && p.pending == 0 && !p.paused
    ensures Init(Restarted(s, p, listed))
  {
    EveryRun(s0, run, s);
    assert Labelled(s);
    if listed.Some? {
      RecoverIndexes(p, listed.value);
      forall id ensures RecoveredWell(s, Recover(p, listed.value), id) {
        RecoversByName(s, listed.value, p, id);
      }
      StartsWell(s, Restarted(s, p, listed));
    } else {
      assert Running(Restarted(s, p, listed)) == Running(s);
    }
  }

  /** A recovered container is running and named for its place; a running one is recovered. */
  predicate RecoveredWell(s: Sys, q: Pool, id: Id) {
    && (id in q.warm ==> id !in q.active && id in Running(s)
                         && IsWarmName(s.docker[id].name) && s.docker[id].ip == q.warm[id])
    && (id in q.active ==> id in Running(s) && NamedFor(s.docker[id], q.active[id].runner, q.active[id].ip))
    && (id in Running(s) ==> id in q.warm || id in q.active)
  }

  lemma StartsWell(s: Sys, s': Sys)
    requires s'.docker == s.docker && forall id :: RecoveredWell(s, s'.pool, id)
    ensures s'.pool.warm.Keys !! s'.pool.active.Keys
    ensures s'.pool.warm.Keys + s'.pool.active.Keys == Running(s')
    ensures forall id <- s'.pool.warm :: IsWarmName(s'.docker[id].name) && s'.docker[id].ip == s'.pool.warm[id]
    ensures forall id <- s'.pool.active :: NamedFor(s'.docker[id], s'.pool.active[id].runner, s'.pool.active[id].ip)
  {
    assert Running(s') == Running(s);
    forall id
      ensures id in s'.pool.warm || id in s'.pool.active <==> id in Running(s')
      ensures id in s'.pool.warm ==>
                id !in s'.pool.active && IsWarmName(s'.docker[id].name) && s'.docker[id].ip == s'.pool.warm[id]
      ensures id in s'.pool.active ==> NamedFor(s'.docker[id], s'.pool.active[id].runner, s'.pool.active[id].ip)
    {
      assert RecoveredWell(s, s'.pool, id);
    }
  }
}
