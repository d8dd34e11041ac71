/** The capped log kept under `timingLogs`: newest entry first, at most MAX_LOG_ENTRIES entries. */
module LogStore {
  import opened Types

  /** `data.timingLogs || []`: a missing log reads as empty. */
  function Existing(logs: Option<seq<Entry>>): seq<Entry>
  {
    match logs
    case None => []
    case Some(l) => l
  }

  function Min(a: int, b: int): int
  {
    if a <= b then a else b
  }

  /** `logs.length = MAX_LOG_ENTRIES` when the log is longer. */
  function Truncate(s: seq<Entry>): (r: seq<Entry>)
    ensures |r| == Min(|s|, MAX_LOG_ENTRIES)
    ensures r == s[..|r|]
  {
    if |s| > MAX_LOG_ENTRIES then s[..MAX_LOG_ENTRIES] else s
  }

  /** The log after `appendLog(e)`: `unshift` the entry, then cut the tail.
      The new entry is first, the log never exceeds the cap, and what follows the new entry
      is the old log in its order, of which only the oldest entries are lost. */
  function Appended(logs: Option<seq<Entry>>, e: Entry): (r: seq<Entry>)
    ensures |r| == Min(|Existing(logs)| + 1, MAX_LOG_ENTRIES)
    ensures 1 <= |r| <= MAX_LOG_ENTRIES
    ensures r[0] == e
    ensures r[1..] == Existing(logs)[..|r| - 1]
  {
    var l := [e] + Existing(logs);
    Truncate(l)
  }

  /** The log after appending each of `es` in turn, starting from `logs`. */
  function AppendAll(logs: seq<Entry>, es: seq<Entry>): seq<Entry>
    decreases |es|
  {
    if es == [] then logs else AppendAll(Appended(Some(logs), es[0]), es[1..])
  }

  function Reversed(s: seq<Entry>): (r: seq<Entry>)
    ensures |r| == |s|
  {
    if s == [] then [] else Reversed(s[1..]) + [s[0]]
  }

  /** Cutting the tail before prepending more entries changes nothing once the result is cut again. */
  lemma TruncateAbsorbs(front: seq<Entry>, s: seq<Entry>)
    ensures Truncate(front + Truncate(s)) == Truncate(front + s)
  {
    var a, b := Truncate(front + Truncate(s)), Truncate(front + s);
    assert |a| == |b|;
    forall i | 0 <= i < |a| ensures a[i] == b[i] {
      if i >= |front| {
        assert a[i] == Truncate(s)[i - |front|];
      }
    }
  }

  lemma AppendAllCons(logs: seq<Entry>, es: seq<Entry>)
    requires es != []
    ensures AppendAll(logs, es) == AppendAll(Truncate([es[0]] + logs), es[1..])
  {
  }

  lemma ReversedCons(es: seq<Entry>)
    requires es != []
    ensures Reversed(es) == Reversed(es[1..]) + [es[0]]
  {
  }

  /** Appending a batch one entry at a time yields the batch newest-first ahead of the old log,
      cut to the cap: eviction is first-in first-out. (With no entries appended, an over-long
      log is left as it is, hence the requires.) */
  lemma {:induction false} AppendAllIsReversedPrefix(logs: seq<Entry>, es: seq<Entry>)
    requires es != [] || |logs| <= MAX_LOG_ENTRIES
    ensures AppendAll(logs, es) == Truncate(Reversed(es) + logs)
    decreases |es|
  {
    if es != [] {
      var next := Truncate([es[0]] + logs);
      AppendAllCons(logs, es);
      AppendAllIsReversedPrefix(next, es[1..]);
      TruncateAbsorbs(Reversed(es[1..]), [es[0]] + logs);
      ReversedCons(es);
      Associative(Reversed(es[1..]), [es[0]], logs);
    }
  }

  /** Once the log is full, every append drops exactly its oldest entry. */
  lemma FullLogDropsOldest(logs: seq<Entry>, e: Entry)
    requires |logs| >= MAX_LOG_ENTRIES
    ensures Appended(Some(logs), e) == [e] + logs[..MAX_LOG_ENTRIES - 1]
  {
  }
}
