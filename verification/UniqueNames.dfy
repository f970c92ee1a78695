/** Container names in runs: as long as no id is drawn twice, no two containers ever share a name. */
module UniqueNames {
  import opened Collections
  import opened Names
  import opened Pool
  import opened Protocol

  /** The id that an action draws for a name. */
  function DrawOf(a: Action): seq<string> {
    match a
    case Create(_, _, _, short) => [short]
    case Rename(_, short, _) => [short]
    case _ => []
  }

  function Draws(run: seq<Action>): seq<string> {
    if run == [] then [] else DrawOf(run[0]) + Draws(run[1..])
  }

  predicate Distinct(draws: seq<string>) {
    forall i, j :: 0 <= i < j < |draws| ==> draws[i] != draws[j]
  }

  ghost predicate NamesDistinct(s: Sys) {
    forall a <- s.docker, b <- s.docker :: s.docker[a].name == s.docker[b].name ==> a == b
  }

  /** No container carries one of the ids. */
  ghost predicate Untaken(s: Sys, draws: seq<string>) {
    forall id <- s.docker :: Tail(s.docker[id].name) !in draws
  }

  /** The container that an action names. */
  function NamedBy(s: Sys, a: Action): Option<Id>
    requires Enabled(s, a)
  {
    match a
    case Create(_, id, _, _) => Some(id)
    case Rename(t, _, ok) => if ok then Some(s.threads[t].id) else None
    case _ => None
  }

  lemma OneNamed(s: Sys, a: Action, id: Id)
    requires Enabled(s, a) && id in Apply(s, a).docker
    ensures if NamedBy(s, a) == Some(id) then DrawOf(a) == [Tail(Apply(s, a).docker[id].name)]
            else id in s.docker && Apply(s, a).docker[id].name == s.docker[id].name
  {
    if a.Create? {
      EndsInId("", a.short);
    } else if a.Rename? {
      EndsInId(s.threads[a.t].runner, a.short);
    }
  }

  lemma NamesStep(s: Sys, a: Action)
    requires Enabled(s, a) && NamesDistinct(s) && Untaken(s, DrawOf(a))
    ensures NamesDistinct(Apply(s, a))
  {
    var s' := Apply(s, a);
    forall i <- s'.docker, j <- s'.docker | s'.docker[i].name == s'.docker[j].name ensures i == j {
      OneNamed(s, a, i);
      OneNamed(s, a, j);
    }
  }

  lemma UntakenStep(s: Sys, a: Action, rest: seq<string>)
    requires Enabled(s, a) && Untaken(s, DrawOf(a) + rest) && Distinct(DrawOf(a) + rest)
    ensures Untaken(Apply(s, a), rest) && Distinct(rest) && Untaken(s, DrawOf(a))
  {
    var all := DrawOf(a) + rest;
    assert forall d <- rest :: d in all;
    assert forall d <- DrawOf(a) :: d in all;
    assert forall i :: 0 <= i < |rest| ==> rest[i] == all[|DrawOf(a)| + i];
    forall id <- Apply(s, a).docker ensures Tail(Apply(s, a).docker[id].name) !in rest {
      OneNamed(s, a, id);
      if NamedBy(s, a) == Some(id) { assert all[0] == DrawOf(a)[0]; }
    }
  }

  /**
    In every run in which no id is drawn twice, from a start in which the names differ and carry none of the
    ids to come, no two containers ever share a name.
   */
  lemma {:induction false} NamesStayDistinct(s: Sys, run: seq<Action>)
    requires Legal(s, run) && NamesDistinct(s) && Distinct(Draws(run)) && Untaken(s, Draws(run))
    ensures NamesDistinct(Exec(s, run))
    decreases |run|
  {
    if run != [] {
      UntakenStep(s, run[0], Draws(run[1..]));
      NamesStep(s, run[0]);
      NamesStayDistinct(Apply(s, run[0]), run[1..]);
    }
  }
}
