/**
 The usage ledger of the program monitor: a map from an OS-reported process
 name to the number of times that name has been seen across sampling ticks.
 This module holds the pure specification of one tally step and the
 properties it has; the step-by-step update lives in ProgramMonitor.
 */
module Ledger {

  /** The ledger as kept in memory: process name to count. */
  type Stats = map<string, int>

  /** The count of `name`, reading a missing key as 0. */
  function CountOf(stats: Stats, name: string): int
  {
    if name in stats then stats[name] else 0
  }

  /** The set of distinct names in a sample. */
  function Names(programs: seq<string>): set<string>
  {
    set p | p in programs
  }

  /** How many times `name` occurs in `programs`; a name is counted once per
      process that reports it, not once per tick. */
  function Occurrences(programs: seq<string>, name: string): (k: nat)
    ensures k <= |programs|
    ensures k > 0 <==> name in programs
  {
    if programs == [] then 0
    else
      var init := programs[..|programs| - 1];
      assert programs == init + [programs[|programs| - 1]];
      Occurrences(init, name) + (if programs[|programs| - 1] == name then 1 else 0)
  }

  /** The ledger after one tick that sampled `programs`: every name already
      in the ledger or seen in the sample, with its old count (0 if absent)
      plus its number of occurrences in the sample. */
  function Tally(stats: Stats, programs: seq<string>): Stats
  {
    map name | name in stats.Keys + Names(programs) :: CountOf(stats, name) + Occurrences(programs, name)
  }

  /** Every count in the ledger is at least 1. */
  predicate AllPositive(stats: Stats)
  {
    forall name :: name in stats ==> stats[name] >= 1
  }

  /** The sum of all counts in the ledger. */
  ghost function Total(stats: Stats): int
    decreases |stats|
  {
    if stats == map[] then 0
    else
      var name :| name in stats;
      RemoveShrinks(stats, name);
      stats[name] + Total(stats - {name})
  }

  lemma RemoveShrinks(stats: Stats, name: string)
    requires name in stats
    ensures |stats - {name}| == |stats| - 1
  {
    assert (stats - {name}).Keys == stats.Keys - {name};
  }

  // ---------------------------------------------------------------------------
  // Occurrence counting

  /** Appending one name adds one occurrence of that name and none of any other. */
  lemma OccurrencesSnoc(programs: seq<string>, p: string, name: string)
    ensures Occurrences(programs + [p], name)
         == Occurrences(programs, name) + (if p == name then 1 else 0)
  {
    assert (programs + [p])[..|programs|] == programs;
  }

  /** Occurrences in a concatenation are the sum of occurrences in the parts. */
  lemma {:induction false} OccurrencesAppend(s1: seq<string>, s2: seq<string>, name: string)
    ensures Occurrences(s1 + s2, name) == Occurrences(s1, name) + Occurrences(s2, name)
    decreases |s2|
  {
    if s2 == [] {
      assert s1 + s2 == s1;
    } else {
      var init, last := s2[..|s2| - 1], s2[|s2| - 1];
      assert s2 == init + [last];
      assert s1 + s2 == (s1 + init) + [last];
      OccurrencesAppend(s1, init, name);
      OccurrencesSnoc(s1 + init, last, name);
      OccurrencesSnoc(init, last, name);
    }
  }

  // ---------------------------------------------------------------------------
  // One tick

  /** A name that does not occur in the sample keeps its key status and its
      count; no key is ever removed. */
  lemma TallyKeepsUnsampled(stats: Stats, programs: seq<string>)
    ensures stats.Keys <= Tally(stats, programs).Keys
    ensures forall name :: name in stats && name !in programs ==> Tally(stats, programs)[name] == stats[name]
    ensures forall name :: name !in stats && name !in programs ==> name !in Tally(stats, programs)
  {
  }

  /** Counts never decrease, and a ledger of positive counts stays positive. */
  lemma TallyMonotone(stats: Stats, programs: seq<string>)
    ensures forall name :: name in stats ==> stats[name] <= Tally(stats, programs)[name]
    ensures AllPositive(stats) ==> AllPositive(Tally(stats, programs))
  {
  }

  /** A tick with an empty sample leaves the ledger as it was. */
  lemma TallyEmpty(stats: Stats)
    ensures Tally(stats, []) == stats
  {
    assert Tally(stats, []).Keys == stats.Keys;
  }

  /** Tallying one more name is the loop body of program_monitor.py: increment the
      name's count if present, otherwise insert it with count 1. */
  lemma TallySnoc(stats: Stats, programs: seq<string>, p: string)
    ensures (var before := Tally(stats, programs);
             Tally(stats, programs + [p])
             == if p in before then before[p := before[p] + 1] else before[p := 1])
  {
    var before := Tally(stats, programs);
    var after := Tally(stats, programs + [p]);
    var expected := if p in before then before[p := before[p] + 1] else before[p := 1];
    assert Names(programs + [p]) == Names(programs) + {p};
    forall name
      ensures Occurrences(programs + [p], name) == Occurrences(programs, name) + (if p == name then 1 else 0)
    {
      OccurrencesSnoc(programs, p, name);
    }
    assert after.Keys == expected.Keys;
  }

  /** Two ticks in a row give the same ledger as one tick over both samples. */
  lemma TallyAppend(stats: Stats, s1: seq<string>, s2: seq<string>)
    ensures Tally(Tally(stats, s1), s2) == Tally(stats, s1 + s2)
  {
    assert Names(s1 + s2) == Names(s1) + Names(s2);
    forall name
      ensures Occurrences(s1 + s2, name) == Occurrences(s1, name) + Occurrences(s2, name)
    {
      OccurrencesAppend(s1, s2, name);
    }
    assert Tally(Tally(stats, s1), s2).Keys == Tally(stats, s1 + s2).Keys;
  }

  // ---------------------------------------------------------------------------
  // Sum of all counts

  /** The total may be computed by taking out any key first. */
  lemma {:induction false} TotalRemove(stats: Stats, name: string)
    requires name in stats
    ensures Total(stats) == stats[name] + Total(stats - {name})
    decreases |stats|
  {
    var chosen :| chosen in stats && Total(stats) == stats[chosen] + Total(stats - {chosen});
    if chosen != name {
      RemoveShrinks(stats, chosen);
      RemoveShrinks(stats, name);
      TotalRemove(stats - {chosen}, name);
      TotalRemove(stats - {name}, chosen);
      assert stats - {chosen} - {name} == stats - {name} - {chosen};
    }
  }

  /** Setting one count changes the total by the difference. */
  lemma TotalUpdate(stats: Stats, name: string, v: int)
    ensures Total(stats[name := v]) == Total(stats) - CountOf(stats, name) + v
  {
    TotalRemove(stats[name := v], name);
    assert stats[name := v] - {name} == stats - {name};
    if name in stats {
      TotalRemove(stats, name);
    } else {
      assert stats - {name} == stats;
    }
  }

  /** The sum of all counts grows by exactly the length of the sample. */
  lemma {:induction false} TallyTotal(stats: Stats, programs: seq<string>)
    ensures Total(Tally(stats, programs)) == Total(stats) + |programs|
    decreases |programs|
  {
    if programs == [] {
      TallyEmpty(stats);
    } else {
      var init, last := programs[..|programs| - 1], programs[|programs| - 1];
      assert programs == init + [last];
      var before := Tally(stats, init);
      TallyTotal(stats, init);
      TallySnoc(stats, init, last);
      TotalUpdate(before, last, CountOf(before, last) + 1);
    }
  }
}
