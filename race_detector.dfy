/** The outcome race of `waitForResult`: for one background tab, decide between a rendered page
    and a download, under a timeout. Every listener callback and every timer fire is one atomic
    event; `Step` is the specification of one event and class `Detector` holds the closure
    variables and runs the handlers in place. */
module RaceDetector {
  import opened Types

  /** How the promise returned by `waitForResult` settled. */
  datatype Settlement = Resolved(outcome: Outcome) | Rejected(message: string)

  /** The closure state of one `waitForResult` call, plus the promise's settlement.
      - `graces`: the grace timers still pending, handle -> the page-load time captured when armed;
      - `graceTimer`: the variable `graceTimer`, which only ever holds the newest handle;
      - `listening`: the tab-updated and download-changed listeners and the timeout, all three
        removed together by `cleanup`; `onCreated`: the download-created listener;
      - `searching`: the duration of a completed download whose size lookup has not answered. */
  datatype State = State(
    tabId: int,
    startTime: int,
    downloadStarted: bool,
    downloadId: Option<int>,
    graces: map<nat, int>,
    nextHandle: nat,
    graceTimer: Option<nat>,
    listening: bool,
    onCreated: bool,
    searching: Option<int>,
    settled: Option<Settlement>)

  /** The events a probe's detector observes. `status`, `current` and `error` are None when the
      field is absent from the change info or the download delta; `sizes` are the `fileSize`s of
      the items `chrome.downloads.search` returns. */
  datatype Event =
    | TabUpdated(updatedTabId: int, status: Option<string>, now: int)
    | DownloadCreated(id: int)
    | DownloadChanged(id: int, current: Option<string>, error: Option<string>, now: int)
    | GraceFired(handle: nat)
    | TimeoutFired
    | SearchAnswered(sizes: seq<int>)

  /** The state right after `waitForResult(tabId, startTime)` registered its listeners and timeout. */
  function Init(tabId: int, startTime: int): (s: State)
    ensures s.settled == None && s.listening && s.onCreated && !s.downloadStarted
    ensures s.graces == map[] && s.searching == None
  {
    State(tabId, startTime, false, None, map[], 0, None, true, true, None, None)
  }

  function Cancel(graces: map<nat, int>, handle: Option<nat>): map<nat, int>
  {
    match handle
    case None => graces
    case Some(h) => graces - {h}
  }

  /** `cleanup()`: clear the timeout and the newest grace timer, remove all listeners.
      The variable `graceTimer` keeps its value. */
  function CleanedUp(s: State): (r: State)
    ensures !r.listening && !r.onCreated && r.settled == s.settled && r.searching == s.searching
    ensures r.graces.Keys <= s.graces.Keys
    ensures s.graceTimer.Some? ==> s.graceTimer.value !in r.graces
    ensures forall h :: h in r.graces ==> r.graces[h] == s.graces[h]
  {
    s.(graces := Cancel(s.graces, s.graceTimer), listening := false, onCreated := false)
  }

  /** `resolve` / `reject`: the first settlement wins, later ones are ignored. */
  function SettledWith(s: State, x: Settlement): (r: State)
    ensures r.settled == if s.settled.Some? then s.settled else Some(x)
    ensures r == s.(settled := r.settled)
  {
    if s.settled == None then s.(settled := Some(x)) else s
  }

  function PageOutcome(pageLoadMs: int): Outcome
  {
    Outcome(true, None, pageLoadMs, 0, Page)
  }

  function DownloadOutcome(dlMs: int, sizes: seq<int>): Outcome
  {
    Outcome(true, None, dlMs, if |sizes| > 0 then sizes[0] else 0, Download)
  }

  function InterruptedOutcome(dlMs: int, error: Option<string>): Outcome
  {
    Outcome(false, Some(if error.Some? then error.value else INTERRUPTED_MESSAGE), dlMs, 0, Download)
  }

  /** One event, as the corresponding callback handles it. No event changes the probe's tab or
      start time, overwrites a settlement, reuses a grace-timer handle or changes the page-load
      time a pending grace timer holds. */
  function Step(s: State, e: Event): (r: State)
    ensures r.tabId == s.tabId && r.startTime == s.startTime
    ensures s.settled.Some? ==> r.settled == s.settled
    ensures s.nextHandle <= r.nextHandle
    ensures forall h :: h in r.graces ==> (h in s.graces && r.graces[h] == s.graces[h]) || h == s.nextHandle
  {
    match e
    case TabUpdated(t, status, now) =>
      if !s.listening || t != s.tabId || status != Some("complete") || s.downloadStarted then s
      else s.(graces := s.graces[s.nextHandle := now - s.startTime],
              nextHandle := s.nextHandle + 1,
              graceTimer := Some(s.nextHandle))
    case DownloadCreated(id) =>
      if !s.onCreated then s
      else s.(downloadStarted := true, downloadId := Some(id),
              graces := Cancel(s.graces, s.graceTimer), graceTimer := None, onCreated := false)
    case DownloadChanged(id, current, error, now) =>
      if !s.listening || s.downloadId != Some(id) || current == None then s
      else if current.value == "complete" then CleanedUp(s).(searching := Some(now - s.startTime))
      else if current.value == "interrupted" then
        SettledWith(CleanedUp(s), Resolved(InterruptedOutcome(now - s.startTime, error)))
      else s
    case GraceFired(h) =>
      if h !in s.graces then s
      else
        var fired := s.(graces := s.graces - {h});
        if s.downloadStarted then fired
        else SettledWith(CleanedUp(fired), Resolved(PageOutcome(s.graces[h])))
    case TimeoutFired =>
      if !s.listening then s else SettledWith(CleanedUp(s), Rejected(TIMEOUT_MESSAGE))
    case SearchAnswered(sizes) =>
      match s.searching
      case None => s
      case Some(dlMs) => SettledWith(s.(searching := None), Resolved(DownloadOutcome(dlMs, sizes)))
  }

  /** The state after a sequence of events. */
  function Run(s: State, es: seq<Event>): State
    decreases |es|
  {
    if es == [] then s else Run(Step(s, es[0]), es[1..])
  }

  /** Nothing left that could settle the promise: no listener and no timeout, no size lookup. */
  predicate Quiet(s: State)
  {
    !s.listening && !s.onCreated && s.searching == None
  }

  predicate IsPage(x: Option<Settlement>)
  {
    x.Some? && x.value.Resolved? && x.value.outcome.kind == Page
  }

  /** What holds in every state the detector reaches from Init. */
  predicate Inv(s: State)
  {
    && (s.settled.Some? ==> Quiet(s))
    && (s.searching.Some? ==> !s.listening && !s.onCreated && s.settled == None && s.downloadStarted)
    && (!s.listening && s.searching == None ==> s.settled.Some? && !s.onCreated)
    && (s.onCreated ==> s.listening && !s.downloadStarted)
    && (s.downloadStarted <==> s.downloadId.Some?)
    && (s.downloadStarted ==> !IsPage(s.settled))
    && (forall h :: h in s.graces ==> h < s.nextHandle)
  }

  // ---------------------------------------------------------------------------------------
  // Properties of single events

  /** A tab update for another tab, with a status other than 'complete', or after a download
      started, changes nothing; otherwise a new grace timer is armed holding the page-load time. */
  lemma TabUpdatedArmsGrace(s: State, t: int, status: Option<string>, now: int)
    requires Inv(s)
    ensures var r := Step(s, TabUpdated(t, status, now));
      if s.listening && t == s.tabId && status == Some("complete") && !s.downloadStarted
      then r.graceTimer == Some(s.nextHandle) && s.nextHandle !in s.graces
           && r.graces == s.graces[s.nextHandle := now - s.startTime] && r.settled == s.settled
      else r == s
  {
  }

  /** The first download-created event marks the download started, records its id, cancels the
      newest grace timer and unsubscribes; any later creation is ignored. */
  lemma FirstDownloadWins(s: State, id: int, id2: int)
    requires s.onCreated
    ensures var r := Step(s, DownloadCreated(id));
      && r.downloadStarted && r.downloadId == Some(id) && !r.onCreated && r.graceTimer == None
      && (s.graceTimer.Some? ==> s.graceTimer.value !in r.graces)
      && Step(r, DownloadCreated(id2)) == r
  {
  }

  /** Download deltas for another id, or without a state, are ignored. */
  lemma UnrelatedDeltaIgnored(s: State, id: int, current: Option<string>, error: Option<string>, now: int)
    requires s.downloadId != Some(id) || current == None
    ensures Step(s, DownloadChanged(id, current, error, now)) == s
  {
  }

  /** A `page` outcome only arises from a pending grace timer firing before any download started,
      and carries the page-load time captured when that timer was armed. */
  lemma PageOnlyFromGrace(s: State, e: Event)
    requires s.settled == None
    requires IsPage(Step(s, e).settled)
    ensures e.GraceFired? && e.handle in s.graces && !s.downloadStarted
    ensures Step(s, e).settled == Some(Resolved(PageOutcome(s.graces[e.handle])))
  {
  }

  /** A pending grace timer firing before any download started resolves the race as a page
      carrying the page-load time captured when that timer was armed, and tears everything
      down. */
  lemma GraceFireSettlesPage(s: State, h: nat)
    requires Inv(s) && h in s.graces && !s.downloadStarted && s.settled == None
    ensures var r := Step(s, GraceFired(h));
      && r.settled == Some(Resolved(PageOutcome(s.graces[h]))) && Quiet(r) && h !in r.graces
  {
  }

  /** The tracked download completing, then the size lookup answering, resolves a successful
      download outcome whose size is that of the first item found, or 0. */
  lemma DownloadCompletes(s: State, id: int, error: Option<string>, now: int, sizes: seq<int>)
    requires s.listening && s.downloadId == Some(id) && s.settled == None
    ensures var r := Step(s, DownloadChanged(id, Some("complete"), error, now));
      && Quiet(Step(r, SearchAnswered(sizes)))
      && Step(r, SearchAnswered(sizes)).settled
         == Some(Resolved(Outcome(true, None, now - s.startTime, if sizes == [] then 0 else sizes[0], Download)))
  {
  }

  /** The tracked download interrupted resolves a failed download outcome carrying the delta's
      error, or 'Download interrupted'. */
  lemma DownloadInterrupted(s: State, id: int, error: Option<string>, now: int)
    requires Inv(s) && s.listening && s.downloadId == Some(id) && s.settled == None
    ensures var r := Step(s, DownloadChanged(id, Some("interrupted"), error, now));
      Quiet(r) && r.settled == Some(Resolved(Outcome(false,
        Some(match error case Some(m) => m case None => "Download interrupted"), now - s.startTime, 0, Download)))
  {
  }

  /** The timeout, while still armed, rejects with 'Timeout (60s)' and tears everything down. */
  lemma TimeoutRejects(s: State)
    requires s.listening && s.settled == None
    ensures Step(s, TimeoutFired).settled == Some(Rejected("Timeout (60s)"))
    ensures !Step(s, TimeoutFired).listening && !Step(s, TimeoutFired).onCreated
  {
  }

  // ---------------------------------------------------------------------------------------
  // Properties of whole runs

  /** Once settled, a state only loses pending grace timers: nothing else ever changes. */
  lemma QuietStepOnlyDropsGraces(s: State, e: Event)
    requires Inv(s) && s.settled.Some?
    ensures Step(s, e) == s.(graces := Step(s, e).graces) && Step(s, e).graces.Keys <= s.graces.Keys
  {
  }

  lemma InvInit(tabId: int, startTime: int)
    ensures Inv(Init(tabId, startTime))
  {
  }

  lemma InvStep(s: State, e: Event)
    requires Inv(s)
    ensures Inv(Step(s, e))
  {
  }

  lemma {:induction false} InvRun(s: State, es: seq<Event>)
    requires Inv(s)
    ensures Inv(Run(s, es))
    decreases |es|
  {
    if es != [] {
      InvStep(s, es[0]);
      InvRun(Step(s, es[0]), es[1..]);
    }
  }

  /** First settlement wins: once the promise settled, no sequence of later events changes it. */
  lemma {:induction false} SettledIsFinal(s: State, es: seq<Event>)
    requires Inv(s) && s.settled.Some?
    ensures Run(s, es).settled == s.settled && Quiet(Run(s, es))
    decreases |es|
  {
    if es != [] {
      QuietStepOnlyDropsGraces(s, es[0]);
      InvStep(s, es[0]);
      SettledIsFinal(Step(s, es[0]), es[1..]);
    }
  }

  /** Whatever events arrive, in whatever order, once a download was created the probe's
      outcome is never a page. */
  lemma DownloadNeverPage(tabId: int, startTime: int, es: seq<Event>)
    ensures var r := Run(Init(tabId, startTime), es);
      r.downloadStarted ==> !IsPage(r.settled)
  {
    InvInit(tabId, startTime);
    InvRun(Init(tabId, startTime), es);
  }

  /** A second page completion for the same tab does not cancel the first grace timer: whichever
      fires first settles, and the page time reported is the one captured at the first completion. */
  lemma RepeatedCompletionFirstTimerWins(tabId: int, startTime: int, t1: int, t2: int)
    ensures var s := Run(Init(tabId, startTime),
      [TabUpdated(tabId, Some("complete"), t1), TabUpdated(tabId, Some("complete"), t2),
       GraceFired(0), GraceFired(1)]);
      s.settled == Some(Resolved(PageOutcome(t1 - startTime))) && s.graces == map[]
  {
    var s0 := Init(tabId, startTime);
    var s1 := Step(s0, TabUpdated(tabId, Some("complete"), t1));
    var s2 := Step(s1, TabUpdated(tabId, Some("complete"), t2));
    assert s2.graces == map[0 := t1 - startTime, 1 := t2 - startTime] && s2.graceTimer == Some(1);
    var s3 := Step(s2, GraceFired(0));
    assert s3.settled == Some(Resolved(PageOutcome(t1 - startTime))) && s3.graces == map[];
    var es := [TabUpdated(tabId, Some("complete"), t1), TabUpdated(tabId, Some("complete"), t2),
       GraceFired(0), GraceFired(1)];
    assert Run(s3, es[3..]) == s3;
    assert Run(s2, es[2..]) == Run(s3, es[3..]);
    assert Run(s1, es[1..]) == Run(s2, es[2..]);
    assert Run(s0, es) == Run(s1, es[1..]);
  }

  // ---------------------------------------------------------------------------------------
  // Scenarios

  /** A plain page completing 1200 ms after the start. */
  lemma PageScenario()
    ensures Run(Init(7, 1000), [TabUpdated(7, Some("loading"), 1100), TabUpdated(7, Some("complete"), 2200),
      GraceFired(0)]).settled == Some(Resolved(Outcome(true, None, 1200, 0, Page)))
  {
  }

  /** A download of 2048000 bytes completing 3400 ms after the start, the page also completing. */
  lemma DownloadScenario()
    ensures Run(Init(7, 1000), [TabUpdated(7, Some("complete"), 1500), DownloadCreated(42),
      GraceFired(0), DownloadChanged(41, Some("complete"), None, 3000),
      DownloadChanged(42, Some("complete"), None, 4400), SearchAnswered([2048000])]).settled
      == Some(Resolved(Outcome(true, None, 3400, 2048000, Download)))
  {
  }

  /** A download interrupted with NETWORK_FAILED 800 ms after the start. */
  lemma InterruptedScenario()
    ensures Run(Init(7, 1000), [DownloadCreated(42), DownloadChanged(42, Some("interrupted"), Some("NETWORK_FAILED"), 1800)]).settled
      == Some(Resolved(Outcome(false, Some("NETWORK_FAILED"), 800, 0, Download)))
  {
  }

  // ---------------------------------------------------------------------------------------
  // The closure, with its variables updated in place by the handlers

  class Detector {
    const tabId: int
    const startTime: int
    var downloadStarted: bool
    var downloadId: Option<int>
    var graces: map<nat, int>
    var nextHandle: nat
    var graceTimer: Option<nat>
    var listening: bool
    var onCreated: bool
    var searching: Option<int>
    var settled: Option<Settlement>

    function Snapshot(): State
      reads this
    {
      State(tabId, startTime, downloadStarted, downloadId, graces, nextHandle, graceTimer,
            listening, onCreated, searching, settled)
    }

    /** `waitForResult(tabId, startTime)`: arm the timeout and add the three listeners. */
    constructor (tabId: int, startTime: int)
      ensures Snapshot() == Init(tabId, startTime)
    {
      this.tabId := tabId;
      this.startTime := startTime;
      downloadStarted := false;
      downloadId := None;
      graces := map[];
      nextHandle := 0;
      graceTimer := None;
      listening := true;
      onCreated := true;
      searching := None;
      settled := None;
    }

    method Cleanup()
      modifies this
      ensures Snapshot() == CleanedUp(old(Snapshot()))
    {
      listening := false;
      if graceTimer.Some? {
        graces := graces - {graceTimer.value};
      }
      onCreated := false;
    }

    method Settle(x: Settlement)
      modifies this
      ensures Snapshot() == SettledWith(old(Snapshot()), x)
    {
      if settled == None {
        settled := Some(x);
      }
    }

    method OnTabUpdated(updatedTabId: int, status: Option<string>, now: int)
      modifies this
      ensures Snapshot() == Step(old(Snapshot()), TabUpdated(updatedTabId, status, now))
    {
      if !listening || updatedTabId != tabId || status != Some("complete") {
        return;
      }
      if downloadStarted {
        return;
      }
      var pageLoadMs := now - startTime;
      graces := graces[nextHandle := pageLoadMs];
      graceTimer := Some(nextHandle);
      nextHandle := nextHandle + 1;
    }

    method OnCreated(id: int)
      modifies this
      ensures Snapshot() == Step(old(Snapshot()), DownloadCreated(id))
    {
      if !onCreated {
        return;
      }
      downloadStarted := true;
      downloadId := Some(id);
      if graceTimer.Some? {
        graces := graces - {graceTimer.value};
        graceTimer := None;
      }
      onCreated := false;
    }

    method OnChanged(id: int, current: Option<string>, error: Option<string>, now: int)
      modifies this
      ensures Snapshot() == Step(old(Snapshot()), DownloadChanged(id, current, error, now))
    {
      if !listening || downloadId != Some(id) || current == None {
        return;
      }
      if current.value == "complete" {
        var dlMs := now - startTime;
        Cleanup();
        searching := Some(dlMs);
      } else if current.value == "interrupted" {
        var dlMs := now - startTime;
        Cleanup();
        Settle(Resolved(InterruptedOutcome(dlMs, error)));
      }
    }

    method OnGraceFired(h: nat)
      modifies this
      ensures Snapshot() == Step(old(Snapshot()), GraceFired(h))
    {
      if h !in graces {
        return;
      }
      var pageLoadMs := graces[h];
      graces := graces - {h};
      if !downloadStarted {
        Cleanup();
        Settle(Resolved(PageOutcome(pageLoadMs)));
      }
    }

    method OnTimeout()
      modifies this
      ensures Snapshot() == Step(old(Snapshot()), TimeoutFired)
    {
      if !listening {
        return;
      }
      Cleanup();
      Settle(Rejected(TIMEOUT_MESSAGE));
    }

    method OnSearchAnswered(sizes: seq<int>)
      modifies this
      ensures Snapshot() == Step(old(Snapshot()), SearchAnswered(sizes))
    {
      if searching.Some? {
        var dlMs := searching.value;
        searching := None;
        Settle(Resolved(DownloadOutcome(dlMs, sizes)));
      }
    }

    /** Route one event to the callback that receives it. */
    method Handle(e: Event)
      modifies this
      ensures Snapshot() == Step(old(Snapshot()), e)
    {
      match e
      case TabUpdated(t, status, now) => OnTabUpdated(t, status, now);
      case DownloadCreated(id) => OnCreated(id);
      case DownloadChanged(id, current, error, now) => OnChanged(id, current, error, now);
      case GraceFired(h) => OnGraceFired(h);
      case TimeoutFired => OnTimeout();
      case SearchAnswered(sizes) => OnSearchAnswered(sizes);
    }
  }
}
