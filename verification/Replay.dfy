/** Death events may come twice and in any order: the event loop reaches the same state. */
module Replay {
  import opened Collections
  import opened Pool

  /** One turn of the event loop: the death, then the evaluation if an active worker died. */
  ghost function OnDeath(p: Pool, id: Id): Pool {
    if id in p.active then Evaluate(HandleDeath(p, id)) else HandleDeath(p, id)
  }

  /** The job-completion increments that one turn issues. */
  function Increments(p: Pool, id: Id): multiset<string> {
    if id in p.active then multiset{p.active[id].runner} else multiset{}
  }

  ghost function Process(p: Pool, events: seq<Id>): Pool
    decreases |events|
  {
    if events == [] then p else Process(OnDeath(p, events[0]), events[1..])
  }

  ghost function Issued(p: Pool, events: seq<Id>): multiset<string>
    decreases |events|
  {
    if events == [] then multiset{} else Increments(p, events[0]) + Issued(OnDeath(p, events[0]), events[1..])
  }

  function Ids(events: seq<Id>): set<Id> {
    set id | id in events
  }

  predicate Separate(p: Pool) {
    p.warm.Keys !! p.active.Keys
  }

  /** The containers in the two maps. */
  function Held(p: Pool): set<Id> {
    p.warm.Keys + p.active.Keys
  }

  /** The dead workers of one runner. */
  function Dying(active: map<Id, ActiveWorker>, dead: set<Id>, r: string): set<Id> {
    set id | id in dead && id in active && active[id].runner == r
  }

  /** What no event changes. */
  predicate SameLimits(p: Pool, q: Pool) {
    && q.maxWorkers == p.maxWorkers && q.warmConfig == p.warmConfig
    && q.booting == p.booting && q.pending == p.pending && q.listeners.Keys == p.listeners.Keys
  }

  /** Everything that a set of deaths leaves behind, without reference to any order. */
  ghost predicate Settled(p: Pool, dead: set<Id>, q: Pool) {
    && q.warm == p.warm - dead
    && q.active == p.active - dead
    && IndexAgrees(q.active, q.listeners)
    && q.paused == (if dead * p.active.Keys == {} then p.paused else |q.active| >= p.maxWorkers)
    && q.gen == p.gen + |dead * Held(p)|
    && SameLimits(p, q)
  }

  lemma SettledIsUnique(p: Pool, dead: set<Id>, q1: Pool, q2: Pool)
    requires Settled(p, dead, q1) && Settled(p, dead, q2)
    ensures q1 == q2
  {
    assert q1.listeners == q2.listeners;
  }

  lemma Absent<V>(m: map<Id, V>, id: Id)
    requires id !in m
    ensures m - {id} == m
  {
  }

  lemma MinusTwice<V>(m: map<Id, V>, id: Id, rest: set<Id>)
    ensures m - {id} - rest == m - (rest + {id})
  {
  }

  lemma MeetWithout(rest: set<Id>, held: set<Id>, id: Id)
    ensures |(rest + {id}) * held| == |rest * (held - {id})| + (if id in held then 1 else 0)
  {
    var meet := rest * (held - {id});
    assert (rest + {id}) * held == if id in held then meet + {id} else meet;
  }

  /** What one turn of the event loop changes. */
  ghost predicate OneGone(p: Pool, id: Id, q: Pool) {
    && IndexAgrees(q.active, q.listeners) && Separate(q) && SameLimits(p, q)
    && q.warm == p.warm - {id} && q.active == p.active - {id}
    && q.paused == (if id in p.active then |q.active| >= p.maxWorkers else p.paused)
    && q.gen == p.gen + (if id in Held(p) then 1 else 0)
  }

  lemma StaysSeparate(p: Pool, id: Id, q: Pool)
    requires Separate(p) && q.warm == p.warm - {id} && q.active == p.active - {id}
    ensures Separate(q)
  {
    assert q.warm.Keys <= p.warm.Keys && q.active.Keys <= p.active.Keys;
  }

  /** The death of an active worker, with the evaluation that follows. */
  function Freed(p: Pool, id: Id): Pool
    requires id in p.active
  {
    var q := Broadcast(Unregister(p, id));
    q.(paused := |q.active| >= q.maxWorkers)
  }

  lemma DeathFrees(p: Pool, id: Id)
    requires IndexAgrees(p.active, p.listeners) && id in p.active
    ensures OnDeath(p, id) == Freed(p, id)
    ensures IndexAgrees(Freed(p, id).active, Freed(p, id).listeners)
  {
    IndexUnregister(p, id);
    EvaluateDecides(Broadcast(Unregister(p, id)));
  }

  lemma FreedIsOneGone(p: Pool, id: Id, q: Pool)
    requires id in p.active && q == Freed(p, id) && Separate(p) && p.active[id].runner in p.listeners
    requires IndexAgrees(q.active, q.listeners)
    ensures OneGone(p, id, q)
  {
    Absent(p.warm, id);
    StaysSeparate(p, id, q);
    assert q.listeners.Keys == p.listeners.Keys;
  }

  lemma OtherDeath(p: Pool, id: Id)
    requires IndexAgrees(p.active, p.listeners) && Separate(p) && id !in p.active
    ensures OneGone(p, id, OnDeath(p, id))
  {
    Absent(p.active, id);
    if id !in p.warm {
      Absent(p.warm, id);
    }
    StaysSeparate(p, id, OnDeath(p, id));
  }

  lemma OneDeath(p: Pool, id: Id)
    requires IndexAgrees(p.active, p.listeners) && Separate(p)
    ensures OneGone(p, id, OnDeath(p, id))
  {
    if id in p.active {
      DeathFrees(p, id);
      FreedIsOneGone(p, id, Freed(p, id));
    } else {
      OtherDeath(p, id);
    }
  }

  lemma IdsCons(events: seq<Id>)
    requires events != []
    ensures Ids(events) == Ids(events[1..]) + {events[0]}
  {
    assert events == [events[0]] + events[1..];
  }

  lemma NothingSettles(p: Pool)
    requires IndexAgrees(p.active, p.listeners)
    ensures Settled(p, {}, p)
  {
    assert p.warm - {} == p.warm && p.active - {} == p.active;
  }

  /** Processing any list of events settles the set of its ids. */
  lemma {:induction false} ProcessSettles(p: Pool, events: seq<Id>)
    requires IndexAgrees(p.active, p.listeners) && Separate(p)
    ensures Settled(p, Ids(events), Process(p, events))
    decreases |events|
  {
    if events == [] {
      NothingSettles(p);
      assert Ids(events) == {};
    } else {
      var p' := OnDeath(p, events[0]);
      OneDeath(p, events[0]);
      ProcessSettles(p', events[1..]);
      IdsCons(events);
      SettledCons(p, events[0], p', Ids(events[1..]), Process(p', events[1..]));
    }
  }

  lemma SettledCons(p: Pool, id: Id, p': Pool, rest: set<Id>, q: Pool)
    requires OneGone(p, id, p') && Settled(p', rest, q)
    ensures Settled(p, rest + {id}, q)
  {
    MinusTwice(p.warm, id, rest);
    MinusTwice(p.active, id, rest);
    MeetWithout(rest, Held(p), id);
    KeysWithout(p, id, p');
    SettledPause(p.active, p'.active, id, rest);
  }

  lemma KeysWithout(p: Pool, id: Id, p': Pool)
    requires p'.warm == p.warm - {id} && p'.active == p.active - {id}
    ensures Held(p') == Held(p) - {id}
  {
  }

  /** Only the last evaluation counts. */
  lemma SettledPause(active: map<Id, ActiveWorker>, active': map<Id, ActiveWorker>, id: Id, rest: set<Id>)
    requires active' == active - {id}
    ensures (rest + {id}) * active.Keys == {} <==> id !in active && rest * active'.Keys == {}
    ensures rest * active'.Keys == {} ==> active' - rest == active'
  {
    var dead := (rest + {id}) * active.Keys;
    assert active'.Keys == active.Keys - {id};
    assert rest * active'.Keys == dead - {id};
    assert id in active <==> id in dead;
    if rest * active'.Keys == {} {
      assert forall i <- active' :: i in rest ==> i in rest * active'.Keys;
    }
  }

  lemma DyingCons(active: map<Id, ActiveWorker>, id: Id, rest: set<Id>, r: string)
    ensures |Dying(active, rest + {id}, r)|
            == |Dying(active - {id}, rest, r)| + (if id in active && active[id].runner == r then 1 else 0)
  {
    var others := Dying(active - {id}, rest, r);
    assert Dying(active, rest + {id}, r) == if id in active && active[id].runner == r then others + {id} else others;
  }

  lemma IssuedCons(p: Pool, events: seq<Id>, r: string)
    requires events != []
    ensures Issued(p, events)[r] == Issued(OnDeath(p, events[0]), events[1..])[r]
                                    + (if events[0] in p.active && p.active[events[0]].runner == r then 1 else 0)
  {
  }

  /** The increments issued for a runner are the distinct active workers of it that died. */
  lemma {:induction false} IssuedCounts(p: Pool, events: seq<Id>, r: string)
    requires IndexAgrees(p.active, p.listeners) && Separate(p)
    ensures Issued(p, events)[r] == |Dying(p.active, Ids(events), r)|
    decreases |events|
  {
    if events == [] {
      assert Dying(p.active, Ids(events), r) == {};
    } else {
      var p' := OnDeath(p, events[0]);
      OneDeath(p, events[0]);
      IssuedCounts(p', events[1..], r);
      IdsCons(events);
      DyingCons(p.active, events[0], Ids(events[1..]), r);
      IssuedCons(p, events, r);
    }
  }

  lemma {:induction false} SameIncrements(p: Pool, events1: seq<Id>, events2: seq<Id>)
    requires IndexAgrees(p.active, p.listeners) && Separate(p)
    requires Ids(events1) == Ids(events2)
    ensures Issued(p, events1) == Issued(p, events2)
  {
    var issued1, issued2 := Issued(p, events1), Issued(p, events2);
    forall r ensures issued1[r] == issued2[r] {
      IssuedCounts(p, events1, r);
      IssuedCounts(p, events2, r);
    }
  }

  /** Two lists of death events with the same containers, in any order and with any repetition, end alike. */
  lemma {:induction false} ReplayConfluence(p: Pool, events1: seq<Id>, events2: seq<Id>)
    requires IndexAgrees(p.active, p.listeners) && Separate(p)
    requires Ids(events1) == Ids(events2)
    ensures Process(p, events1) == Process(p, events2)
    ensures Issued(p, events1) == Issued(p, events2)
  {
    ProcessSettles(p, events1);
    ProcessSettles(p, events2);
    SettledIsUnique(p, Ids(events1), Process(p, events1), Process(p, events2));
    SameIncrements(p, events1, events2);
  }
}
