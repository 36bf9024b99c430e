# Program usage monitor: the usage ledger in Dafny

This project models the core of `program_monitor.py`. The script keeps a
usage ledger: a dictionary from an OS-reported process name to an integer
count. It runs a loop forever. In each cycle it samples the names of all
running processes, updates the ledger, saves the ledger to a JSON file and
sleeps for five seconds.

The update is the part modelled in detail. For every name in the sample, the
count is incremented if the name is already a key. Otherwise the name is
inserted with count 1. The update runs once per entry of the sample, so a
program with three running processes gains 3 in one tick, not 1.

- `Ledger` (`ledger.dfy`) is the specification of a tick. `Occurrences` counts
  how often a name occurs in a sample. `Tally(stats, programs)` is the ledger
  after a tick: the old keys together with the sampled names, each with its
  old count (0 if absent) plus its number of occurrences. `Total` is the sum
  of all counts. The lemmas state what a tick preserves and how ticks compose.
- `ProgramMonitor` (`program_monitor.dfy`) holds the loops of the script.
  `UpdateUsage` is the `for` loop over the sample, written with the script's
  increment-or-insert body and proved equal to `Tally`. `Cycle` is one pass of
  the `try` body. `Monitor` runs finitely many cycles.

The process table and the ledger file are not modelled. A sample is an input:
either the list of names, or a failure raised while building that list. The
outcome of the save is an input flag.

Behaviour of the script that the model follows:

- Counting is per occurrence: the loop at `program_monitor.py:32-36` runs
  once for every entry of the sample, so repeated names add repeatedly.
  `DuplicatesCountPerProcess` shows the sample `["a", "b", "a"]` giving
  `{"a": 2, "b": 1}`.
- `proc.name()` runs inside one list comprehension (`program_monitor.py:29`),
  so an exception from any one process aborts the whole sample. The
  exception is caught at line 44, before the tally runs, and the ledger is
  unchanged for that cycle.
- The ledger is loaded at line 24, outside the `try`. A corrupt file at
  startup therefore ends the script instead of being reported by the loop.
- A failed save (line 39) raises after the tally has run. The in-memory
  ledger keeps the new counts, and the next successful save writes them.

## Model

| member | source | states |
|---|---|---|
| `Ledger.Occurrences` | program_monitor.py:32-36 | the number of times a name is tallied in one tick is at most the sample length, and it is positive exactly when the name occurs in the sample |
| `Ledger.OccurrencesAppend` | program_monitor.py:32 | occurrences in a concatenated sample are the sum of the occurrences in its two parts |
| `Ledger.TallySnoc` | program_monitor.py:33-36 | tallying one more name increments its count if it is a key and inserts it with 1 otherwise, so the declarative ledger matches the script's loop body |
| `Ledger.TallyKeepsUnsampled` | program_monitor.py:32-36 | no key is removed; a name absent from the sample keeps exactly its count; a name absent from both the ledger and the sample does not become a key |
| `Ledger.TallyMonotone` | program_monitor.py:33-36 | counts never decrease, and if every count was at least 1 then every count still is |
| `Ledger.TallyEmpty` | program_monitor.py:32 | a tick with an empty sample leaves the ledger unchanged |
| `Ledger.TallyAppend` | program_monitor.py:32-36 | a tick over s1 followed by a tick over s2 gives the same ledger as one tick over s1 + s2 |
| `Ledger.TotalUpdate` | program_monitor.py:34-36 | setting one name's count changes the sum of all counts by the difference from its old count (0 if absent) |
| `Ledger.TallyTotal` | program_monitor.py:32-36 | the sum of all counts grows by exactly the length of the sample |
| `ProgramMonitor.UpdateUsage` | program_monitor.py:32-36 | the loop's result is `Tally` of the inputs: its keys are the old keys together with the sampled names; every name's count is its old count (0 if absent) plus its number of occurrences; unsampled keys keep their counts |
| `ProgramMonitor.Cycle` | program_monitor.py:27-45 | a failed sample leaves the ledger unchanged and reports an error; a successful sample yields the tallied ledger, and the cycle reaches the sleep exactly when the save succeeds |
| `ProgramMonitor.Monitor` | program_monitor.py:26-45 | after finitely many cycles, the ledger is one tally over the concatenation of the successful samples, so each count grew by exactly the name's occurrences in them |
| `ProgramMonitor.DuplicatesCountPerProcess` | program_monitor.py:32-36 | from an empty ledger, the sample `["a","b","a"]` gives `{"a":2,"b":1}`, and a following `["b"]` gives `{"a":2,"b":2}` |

## Left out

- Process enumeration through `psutil.process_iter` and `proc.name()` (`program_monitor.py:29`) is an OS call. It is replaced by the `Sample` input: a list of names or a failure.
- Loading and saving `~/.usage_stats.json` (`program_monitor.py:7`, `10-19`) is file I/O with JSON parsing. The ledger starts from a given map, and the save is reduced to a success flag. What the file holds after a failed save, or after a corrupt file at startup, is not represented.
- Ledger values that are not integers cannot occur, because the ledger type is `map<string, int>`. A loaded file could hold one. A float or a boolean is incremented by the `+= 1` at line 34 without an error (`2.5` becomes `3.5`, `true` becomes `2`); such values are not modelled. A string, `null`, list or object value makes line 34 raise partway through the loop, leaving the earlier increments of that tick applied; such partial updates are not modelled.
- A ledger file holding valid JSON that is not an object (`[]`, `5`, `"x"`, `null`) is not modelled. `json.load` accepts it at line 13, but every later cycle then raises at line 33 or 36. The exception is caught at line 44, so the ledger never changes and the loop repeats without sleeping.
- `time.sleep(5)` (line 42), the `print` diagnostics (lines 45, 48, 52) and the `KeyboardInterrupt` shutdown (lines 49-52) are timing, console output and signal handling. `Outcome` only records whether a cycle reached the sleep or reported an error.
- The `while True` loop (line 26) never ends. `Monitor` models any finite prefix of it.
- Python integers are unbounded, and so are Dafny's `int`. No width is modelled.
