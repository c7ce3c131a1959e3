/** The dashboard counters shared through the stats context: a two-field
    record, a merge update, an increment and a decrement floored at zero. */
module Stats {
  import opened Wrappers

  /** `stats`: counts are JavaScript numbers, kept here as integers. */
  datatype Stats = Stats(ocorrenciasHoje: int, statusEquipe: int)

  /** The argument of `updateStats`: the keys it carries. */
  datatype StatsPatch = StatsPatch(ocorrenciasHoje: Option<int>, statusEquipe: Option<int>)

  const InitialStats := Stats(0, 0)

  /** `{...prev, ...newStats}`: the keys the patch carries win, the others
      are kept. */
  function Merged(prev: Stats, patch: StatsPatch): (next: Stats)
    ensures patch.ocorrenciasHoje.Some? ==> next.ocorrenciasHoje == patch.ocorrenciasHoje.value
    ensures patch.ocorrenciasHoje.None? ==> next.ocorrenciasHoje == prev.ocorrenciasHoje
    ensures patch.statusEquipe.Some? ==> next.statusEquipe == patch.statusEquipe.value
    ensures patch.statusEquipe.None? ==> next.statusEquipe == prev.statusEquipe
  {
    Stats(patch.ocorrenciasHoje.GetOr(prev.ocorrenciasHoje), patch.statusEquipe.GetOr(prev.statusEquipe))
  }

  /** One more active incident; the team status is untouched. */
  function Incremented(prev: Stats): (next: Stats)
    ensures next.ocorrenciasHoje == prev.ocorrenciasHoje + 1
    ensures next.statusEquipe == prev.statusEquipe
  {
    prev.(ocorrenciasHoje := prev.ocorrenciasHoje + 1)
  }

  /** One fewer active incident, never below zero; the team status is
      untouched. */
  function Decremented(prev: Stats): (next: Stats)
    ensures next.ocorrenciasHoje >= 0
    ensures prev.ocorrenciasHoje >= 1 ==> next.ocorrenciasHoje == prev.ocorrenciasHoje - 1
    ensures prev.ocorrenciasHoje <= 1 ==> next.ocorrenciasHoje == 0
    ensures next.statusEquipe == prev.statusEquipe
  {
    prev.(ocorrenciasHoje := if prev.ocorrenciasHoje - 1 > 0 then prev.ocorrenciasHoje - 1 else 0)
  }

  /** An increment undone by a decrement gives back the record, as long as
      the count was not negative (a negative count set by `updateStats` is
      floored to zero instead). */
  lemma IncrementThenDecrement(s: Stats)
    ensures s.ocorrenciasHoje >= 0 ==> Decremented(Incremented(s)) == s
    ensures s.ocorrenciasHoje < 0 ==> Decremented(Incremented(s)).ocorrenciasHoje == 0
  {
  }

  /** A decrement from a positive count is undone by an increment; at zero
      the decrement does nothing. */
  lemma DecrementThenIncrement(s: Stats)
    ensures s.ocorrenciasHoje >= 1 ==> Incremented(Decremented(s)) == s
    ensures s.ocorrenciasHoje == 0 ==> Decremented(s) == s
  {
  }

  /** A patch with no keys changes nothing; applying the same patch twice is
      applying it once; a later patch overrides an earlier one key by key. */
  lemma MergeLaws(s: Stats, p: StatsPatch, q: StatsPatch)
    ensures Merged(s, StatsPatch(None, None)) == s
    ensures Merged(Merged(s, p), p) == Merged(s, p)
    ensures Merged(Merged(s, p), q) == Merged(s, StatsPatch(
              if q.ocorrenciasHoje.Some? then q.ocorrenciasHoje else p.ocorrenciasHoje,
              if q.statusEquipe.Some? then q.statusEquipe else p.statusEquipe))
  {
  }

  /** One call on the context. */
  datatype StatsEvent = Update(patch: StatsPatch) | Increment | Decrement

  /** The record after one call. */
  function Step(s: Stats, event: StatsEvent): Stats
  {
    match event
    case Update(p) => Merged(s, p)
    case Increment => Incremented(s)
    case Decrement => Decremented(s)
  }

  /** The record after a series of calls. */
  function Replay(s: Stats, events: seq<StatsEvent>): Stats
    decreases |events|
  {
    if events == [] then s else Replay(Step(s, events[0]), events[1..])
  }

  /** The updates never set a negative count. */
  predicate NonNegativeUpdates(events: seq<StatsEvent>)
  {
    forall i :: 0 <= i < |events| && events[i].Update? && events[i].patch.ocorrenciasHoje.Some? ==>
      events[i].patch.ocorrenciasHoje.value >= 0
  }

  /** Starting from a non-negative count, increments, decrements and
      non-negative updates never make the active-incident count negative. */
  lemma {:induction false} CountStaysNonNegative(s: Stats, events: seq<StatsEvent>)
    requires s.ocorrenciasHoje >= 0
    requires NonNegativeUpdates(events)
    ensures Replay(s, events).ocorrenciasHoje >= 0
    decreases |events|
  {
    if events != [] {
      assert NonNegativeUpdates(events[1..]) by {
        forall i | 0 <= i < |events[1..]| && events[1..][i].Update? && events[1..][i].patch.ocorrenciasHoje.Some?
          ensures events[1..][i].patch.ocorrenciasHoje.value >= 0
        {
          assert events[1..][i] == events[i + 1];
        }
      }
      CountStaysNonNegative(Step(s, events[0]), events[1..]);
    }
  }

  /** Increments and decrements alone never touch the team status. */
  lemma {:induction false} CountersLeaveTeamStatus(s: Stats, events: seq<StatsEvent>)
    requires forall i :: 0 <= i < |events| ==> !events[i].Update?
    ensures Replay(s, events).statusEquipe == s.statusEquipe
    decreases |events|
  {
    if events != [] {
      CountersLeaveTeamStatus(Step(s, events[0]), events[1..]);
    }
  }

  /** The state held by the stats context. */
  class StatsStore {
    var stats: Stats

    constructor ()
      ensures stats == InitialStats
    {
      stats := InitialStats;
    }

    method UpdateStats(patch: StatsPatch)
      modifies this
      ensures stats == Merged(old(stats), patch)
    {
      stats := Merged(stats, patch);
    }

    method DecrementActiveIncidents()
      modifies this
      ensures stats == Decremented(old(stats))
    {
      stats := Decremented(stats);
    }

    method IncrementActiveIncidents()
      modifies this
      ensures stats == Incremented(old(stats))
    {
      stats := Incremented(stats);
    }
  }
}
