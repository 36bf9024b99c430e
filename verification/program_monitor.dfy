/**
 The monitor loop of program_monitor.py: each cycle samples the names of the
 running processes, adds one to a name's count for every process that reports
 it, saves the ledger and sleeps. Sampling the OS process table and saving to
 the ledger file are not modelled; their outcomes are inputs here.
 */
module ProgramMonitor {
  import opened Ledger

  /** What one attempt to enumerate the running processes produced: the list
      of their names, or an exception raised while building that list. */
  datatype Sample = Sampled(programs: seq<string>) | SampleFailed

  /** How a cycle ended: it reached the sleep, or an exception was caught and
      reported, skipping the rest of the cycle. */
  datatype Outcome = Slept | ErrorReported

  /** The tally loop: for each sampled name, increment its count if it is
      already in the ledger, otherwise insert it with count 1. */
  method UpdateUsage(stats: Stats, programs: seq<string>) returns (r: Stats)
    ensures r == Tally(stats, programs)
    ensures r.Keys == stats.Keys + Names(programs)
    ensures forall name :: CountOf(r, name) == CountOf(stats, name) + Occurrences(programs, name)
    ensures forall name :: name in stats && name !in programs ==> name in r && r[name] == stats[name]
  {
    r := stats;
    TallyEmpty(stats);
    for i := 0 to |programs|
      invariant r == Tally(stats, programs[..i])
    {
      var program := programs[i];
      assert programs[..i + 1] == programs[..i] + [program];
      TallySnoc(stats, programs[..i], program);
      if program in r {
        r := r[program := r[program] + 1];
      } else {
        r := r[program := 1];
      }
    }
    assert programs[..|programs|] == programs;
  }

  /** One pass of the monitor loop's body. A failed sample raises before the
      tally, so the ledger is untouched; a failed save raises after it, so the
      ledger keeps the new counts although the cycle reports an error. */
  method Cycle(stats: Stats, sample: Sample, saveSucceeds: bool) returns (r: Stats, outcome: Outcome)
    ensures sample.SampleFailed? ==> r == stats && outcome == ErrorReported
    ensures sample.Sampled? ==> r == Tally(stats, sample.programs)
    ensures sample.Sampled? ==> (outcome == Slept <==> saveSucceeds)
  {
    match sample
    case SampleFailed =>
      r, outcome := stats, ErrorReported;
    case Sampled(programs) =>
      r := UpdateUsage(stats, programs);
      outcome := if saveSucceeds then Slept else ErrorReported;
  }

  /** The names tallied over a run: the samples of the cycles that managed to
      sample, in order; failed samples contribute nothing. */
  function Observed(samples: seq<Sample>): seq<string>
  {
    if samples == [] then []
    else
      var last := samples[|samples| - 1];
      Observed(samples[..|samples| - 1]) + (if last.Sampled? then last.programs else [])
  }

  /** A finite prefix of the monitor loop: one cycle per sample, with the save
      outcome of each cycle given alongside. The ledger at the end is the one
      a single tick over every successfully sampled name would give. */
  method Monitor(stats: Stats, samples: seq<Sample>, saves: seq<bool>) returns (r: Stats)
    requires |saves| == |samples|
    ensures r == Tally(stats, Observed(samples))
    ensures forall name :: CountOf(r, name) == CountOf(stats, name) + Occurrences(Observed(samples), name)
  {
    r := stats;
    TallyEmpty(stats);
    for i := 0 to |samples|
      invariant r == Tally(stats, Observed(samples[..i]))
    {
      assert samples[..i + 1][..i] == samples[..i];
      var before := r;
      var outcome;
      r, outcome := Cycle(r, samples[i], saves[i]);
      if samples[i].Sampled? {
        TallyAppend(stats, Observed(samples[..i]), samples[i].programs);
      } else {
        assert Observed(samples[..i]) + [] == Observed(samples[..i]);
      }
    }
    assert samples[..|samples|] == samples;
  }

  /** The scenario of a first tick that sees program "a" twice and "b" once,
      then a tick that sees only "b": duplicates count per process. */
  lemma DuplicatesCountPerProcess()
    ensures Tally(map[], ["a", "b", "a"]) == map["a" := 2, "b" := 1]
    ensures Tally(Tally(map[], ["a", "b", "a"]), ["b"]) == map["a" := 2, "b" := 2]
  {
    var s1: seq<string> := ["a", "b", "a"];
    var t1 := Tally(map[], s1);
    assert s1[..2] == ["a", "b"] && s1[..2][..1] == ["a"] && s1[..2][..1][..0] == [];
    assert Names(s1) == {"a", "b"};
    assert t1.Keys == {"a", "b"};
    assert Occurrences(s1, "a") == 2 && Occurrences(s1, "b") == 1;
    var s2: seq<string> := ["b"];
    assert s2[..0] == [];
    assert Names(s2) == {"b"};
    assert Occurrences(s2, "a") == 0 && Occurrences(s2, "b") == 1;
    assert Tally(t1, s2).Keys == {"a", "b"};
  }
}
