/** The background service worker: the recurring re-arm timer, the single-flight probe runner,
    the capped log, start-up restoration and the message dispatch. Each Chrome callback is one
    atomic step; storage reads and writes complete within the step that issues them, and the only
    wait that spans other events is the one on the probe's race detector. */
module Background {
  import opened Types
  import LogStore
  import RaceDetector

  /** Who awaits a probe in flight: a re-arm timer's callback (which re-arms when the probe is
      over) or a `runNow` message. */
  datatype Caller = TimerCallback | RunNowMessage

  /** The probe in flight: its tab, its start time and who awaits it. */
  datatype Probe = Probe(tabId: int, startTime: int, caller: Caller)

  /** What `chrome.tabs.create` did: opened a tab, or threw (with the clock when the error was caught). */
  datatype TabOpen = Opened(tabId: int) | OpenFailed(message: string, at: int)

  /** How `performFetchAndMeasure` left things: returned at once because a probe was in flight,
      logged its outcome already, or is waiting on the race detector. */
  datatype RunStatus = Skipped | Logged | Waiting

  /** 2^32 and 2^31: `setTimeout` takes its delay as a 32-bit signed integer. */
  const TWO_32: int := 0x1_0000_0000
  const TWO_31: int := 0x8000_0000

  /** The delay `setTimeout` applies for `intervalSeconds * 1000`. An undefined interval (NaN)
      converts to 0. Otherwise the product is first reduced to a 32-bit signed integer (modulo
      2^32, the upper half negative), and a negative result counts as 0. */
  function DelayMs(intervalSeconds: Option<int>): (d: nat)
    ensures d < TWO_31
    ensures intervalSeconds == None ==> d == 0
    ensures intervalSeconds.Some? && 0 <= intervalSeconds.value * 1000 < TWO_31 ==> d == intervalSeconds.value * 1000
    ensures intervalSeconds.Some? && -TWO_31 <= intervalSeconds.value * 1000 < 0 ==> d == 0
    ensures intervalSeconds.Some? && TWO_31 <= intervalSeconds.value * 1000 < TWO_32 ==> d == 0
  {
    match intervalSeconds
    case None => 0
    case Some(v) =>
      var wrapped := (v * 1000) % TWO_32;
      if wrapped >= TWO_31 then 0 else wrapped
  }

  /** An interval of 2147484 s or more (about 24.9 days) overflows the 32-bit delay: 2147484
      seconds wrap to a negative delay, so the timer fires at once. */
  lemma HugeIntervalFiresAtOnce()
    ensures DelayMs(Some(2147484)) == 0
    ensures DelayMs(Some(2147483)) == 2147483000
  {
  }

  /** `!targetUrl`: a missing or empty URL. */
  predicate NoUrl(targetUrl: Option<string>)
  {
    targetUrl == None || targetUrl == Some("")
  }

  /** The entry logged when no URL is configured. */
  function NoUrlOutcome(): Outcome
  {
    Outcome(false, Some(NO_URL_MESSAGE), 0, 0, Dash)
  }

  /** The entry logged for a settled detector: its outcome, or for a rejection a failed '-'
      outcome carrying the message and the time elapsed since the start. */
  function LoggedOutcome(x: RaceDetector.Settlement, startTime: int, now: int): (o: Outcome)
    ensures x.Resolved? ==> o == x.outcome
    ensures x.Rejected? ==>
      !o.success && o.kind == Dash && o.fileSize == 0 && o.error == Some(x.message) && o.durationMs == now - startTime
  {
    match x
    case Resolved(o) => o
    case Rejected(message) => Outcome(false, Some(message), now - startTime, 0, Dash)
  }

  /** Every pending re-arm timer is the one `timerId` holds. */
  predicate OneTimer(timers: map<nat, nat>, timerId: Option<nat>)
  {
    forall h :: h in timers ==> timerId == Some(h)
  }

  /** Hence at most one re-arm timer is ever pending. */
  lemma AtMostOnePending(timers: map<nat, nat>, timerId: Option<nat>)
    requires OneTimer(timers, timerId)
    ensures |timers| <= 1
    ensures timerId == None ==> timers == map[]
  {
    if timerId == None {
      assert timers.Keys == {};
    } else if timerId.value in timers {
      assert timers.Keys == {timerId.value};
    } else {
      assert timers.Keys == {};
    }
  }

  class Worker {
    /** `chrome.storage.local`. */
    var store: Store
    /** The module-level single-flight flag. */
    var isFetching: bool
    /** The module-level `timerId`: the handle of the last re-arm timer armed and not cleared. */
    var timerId: Option<nat>
    /** The re-arm timers that have neither fired nor been cleared: handle -> delay in ms. */
    var timers: map<nat, nat>
    var nextTimer: nat
    /** Whether the 'keepalive' alarm exists. */
    var keepAlive: bool
    /** The background tabs the worker opened and has not closed. */
    var openTabs: set<int>
    /** The probe in flight, if any. */
    var probe: Option<Probe>
    /** The detector of the probe in flight. While no probe is in flight it is a placeholder
        that stands for no `waitForResult` call at all; `Valid` constrains it only while
        `probe` is set. */
    var race: RaceDetector.Detector

    /** At most one re-arm timer, held by `timerId`; handles are positive (truthy) and fresh. */
    ghost predicate TimersOk()
      reads this
    {
      && 0 < nextTimer
      && OneTimer(timers, timerId)
      && (forall h :: h in timers ==> 0 < h < nextTimer)
      && (timerId.Some? ==> 0 < timerId.value < nextTimer)
    }

    /** The worker's invariant: the timers are in order, the single-flight flag is set exactly
        while a probe is in flight, and that probe's detector belongs to it and has not settled. */
    ghost predicate Valid()
      reads this, race
    {
      && TimersOk()
      && (isFetching <==> probe.Some?)
      && (probe.Some? ==>
            && race.tabId == probe.value.tabId && race.startTime == probe.value.startTime
            && race.settled == None && RaceDetector.Inv(race.Snapshot()))
    }

    /** The worker as the module loads: no timer, no probe. */
    constructor (initial: Store)
      ensures Valid()
      ensures store == initial && !isFetching && timerId == None && timers == map[]
      ensures !keepAlive && openTabs == {} && probe == None
    {
      store := initial;
      isFetching := false;
      timerId := None;
      timers := map[];
      nextTimer := 1;
      keepAlive := false;
      openTabs := {};
      probe := None;
      race := new RaceDetector.Detector(0, 0);
    }

    /** `scheduleNext`: clear the pending timer, if any, then arm a new one. Afterwards exactly
        one timer is pending, the new one. */
    method ScheduleNext(intervalSeconds: Option<int>)
      requires TimersOk()
      modifies this
      ensures TimersOk()
      ensures timerId == Some(old(nextTimer)) && old(nextTimer) !in old(timers)
      ensures timers == map[old(nextTimer) := DelayMs(intervalSeconds)]
      ensures store == old(store) && isFetching == old(isFetching) && probe == old(probe)
      ensures race == old(race) && openTabs == old(openTabs) && keepAlive == old(keepAlive)
    {
      AtMostOnePending(timers, timerId);
      if timerId.Some? {
        timers := timers - {timerId.value};
        timerId := None;
      }
      assert timers == map[];
      var h := nextTimer;
      nextTimer := nextTimer + 1;
      timers := timers[h := DelayMs(intervalSeconds)];
      timerId := Some(h);
    }

    /** `startTimer`: persist the running state and the interval, then arm. */
    method StartTimer(intervalSeconds: int)
      requires TimersOk()
      modifies this
      ensures TimersOk()
      ensures store == old(store).(isRunning := Some(true), intervalSeconds := Some(intervalSeconds))
      ensures timerId == Some(old(nextTimer)) && timers == map[old(nextTimer) := DelayMs(Some(intervalSeconds))]
      ensures isFetching == old(isFetching) && probe == old(probe) && race == old(race)
      ensures openTabs == old(openTabs) && keepAlive == old(keepAlive)
    {
      store := store.(isRunning := Some(true), intervalSeconds := Some(intervalSeconds));
      ScheduleNext(Some(intervalSeconds));
    }

    /** `stopTimer`: clear the pending timer and persist `isRunning: false`. No timer is left. */
    method StopTimer()
      requires TimersOk()
      modifies this
      ensures TimersOk()
      ensures timers == map[] && timerId == None
      ensures store == old(store).(isRunning := Some(false))
      ensures isFetching == old(isFetching) && probe == old(probe) && race == old(race)
      ensures openTabs == old(openTabs) && keepAlive == old(keepAlive) && nextTimer == old(nextTimer)
    {
      AtMostOnePending(timers, timerId);
      if timerId.Some? {
        timers := timers - {timerId.value};
        timerId := None;
      }
      store := store.(isRunning := Some(false));
    }

    /** The end of a re-arm timer's callback: re-read the persisted state and re-arm, with the
        persisted interval, only if still running. */
    method ReArm()
      requires TimersOk()
      modifies this
      ensures TimersOk()
      ensures old(store).isRunning == Some(true) ==>
        timerId == Some(old(nextTimer)) && timers == map[old(nextTimer) := DelayMs(old(store).intervalSeconds)]
      ensures old(store).isRunning != Some(true) ==>
        timers == old(timers) && timerId == old(timerId) && nextTimer == old(nextTimer)
      ensures store == old(store) && isFetching == old(isFetching) && probe == old(probe)
      ensures race == old(race) && openTabs == old(openTabs) && keepAlive == old(keepAlive)
    {
      var running := store.isRunning;
      var intervalSeconds := store.intervalSeconds;
      if running == Some(true) {
        ScheduleNext(intervalSeconds);
      }
    }

    /** `appendLog`: stamp the outcome, prepend it to the stored log (a missing log counts as
        empty) and cut the log to MAX_LOG_ENTRIES. */
    method AppendLog(now: int, o: Outcome)
      modifies this
      ensures store == old(store).(timingLogs := Some(LogStore.Appended(old(store).timingLogs, Entry(now, o))))
      ensures isFetching == old(isFetching) && probe == old(probe) && race == old(race) && openTabs == old(openTabs)
      ensures timers == old(timers) && timerId == old(timerId) && nextTimer == old(nextTimer) && keepAlive == old(keepAlive)
    {
      var entry := Entry(now, o);
      var logs := LogStore.Existing(store.timingLogs);
      logs := [entry] + logs;
      if |logs| > MAX_LOG_ENTRIES {
        logs := logs[..MAX_LOG_ENTRIES];
      }
      store := store.(timingLogs := Some(logs));
    }

    /** `chrome.tabs.remove(tabId)` with its failure swallowed: a failed removal leaves the tab. */
    method CloseTab(tabId: int, fails: bool)
      modifies this
      ensures openTabs == if fails then old(openTabs) else old(openTabs) - {tabId}
      ensures store == old(store) && isFetching == old(isFetching) && probe == old(probe) && race == old(race)
      ensures timers == old(timers) && timerId == old(timerId) && nextTimer == old(nextTimer) && keepAlive == old(keepAlive)
    {
      if !fails {
        openTabs := openTabs - {tabId};
      }
    }

    /** `performFetchAndMeasure` up to its wait on the detector. `now` is the clock when it runs;
        `open` is what opening the tab does. */
    method PerformFetchAndMeasure(caller: Caller, now: int, open: TabOpen) returns (status: RunStatus)
      requires Valid()
      modifies this
      ensures Valid()
      ensures old(isFetching) ==>
        status == Skipped && isFetching && store == old(store)
        && openTabs == old(openTabs) && probe == old(probe) && race == old(race)
      ensures !old(isFetching) && NoUrl(old(store).targetUrl) ==>
        status == Logged && !isFetching
        && store == old(store).(timingLogs := Some(LogStore.Appended(old(store).timingLogs, Entry(now, NoUrlOutcome()))))
        && openTabs == old(openTabs) && probe == None
      ensures !old(isFetching) && !NoUrl(old(store).targetUrl) && open.OpenFailed? ==>
        && status == Logged && !isFetching && openTabs == old(openTabs) && probe == None
        && store == old(store).(timingLogs := Some(LogStore.Appended(old(store).timingLogs,
             Entry(open.at, Outcome(false, Some(open.message), open.at - now, 0, Dash)))))
      ensures !old(isFetching) && !NoUrl(old(store).targetUrl) && open.Opened? ==>
        && status == Waiting && isFetching && store == old(store)
        && probe == Some(Probe(open.tabId, now, caller)) && openTabs == old(openTabs) + {open.tabId}
        && fresh(race) && race.Snapshot() == RaceDetector.Init(open.tabId, now)
      ensures timers == old(timers) && timerId == old(timerId) && nextTimer == old(nextTimer) && keepAlive == old(keepAlive)
    {
      if isFetching {
        return Skipped;
      }
      isFetching := true;

      var targetUrl := store.targetUrl;
      if NoUrl(targetUrl) {
        AppendLog(now, NoUrlOutcome());
        isFetching := false;
        return Logged;
      }

      var startTime := now;
      match open
      case OpenFailed(message, at) =>
        // the tab id is still null, so there is nothing to close
        AppendLog(at, Outcome(false, Some(message), at - startTime, 0, Dash));
        isFetching := false;
        status := Logged;
      case Opened(tabId) =>
        openTabs := openTabs + {tabId};
        race := new RaceDetector.Detector(tabId, startTime);
        RaceDetector.InvInit(tabId, startTime);
        probe := Some(Probe(tabId, startTime, caller));
        status := Waiting;
    }

    /** The rest of `performFetchAndMeasure` once the detector settled: close the tab (a
        rejection closes it only when its id is truthy), log the outcome, release the
        single-flight flag; a timer callback then re-arms. */
    method FinishProbe(x: RaceDetector.Settlement, now: int, closeFails: bool)
      requires TimersOk() && probe.Some?
      modifies this
      ensures Valid()
      ensures probe == None && !isFetching
      ensures store.timingLogs == Some(LogStore.Appended(old(store).timingLogs,
        Entry(now, LoggedOutcome(x, old(probe).value.startTime, now))))
      ensures store == old(store).(timingLogs := store.timingLogs)
      ensures openTabs == if closeFails || (x.Rejected? && old(probe).value.tabId == 0) then old(openTabs)
                         else old(openTabs) - {old(probe).value.tabId}
      ensures old(probe).value.caller == RunNowMessage ==>
        timers == old(timers) && timerId == old(timerId) && nextTimer == old(nextTimer)
      ensures old(probe).value.caller == TimerCallback && old(store).isRunning == Some(true) ==>
        timerId == Some(old(nextTimer)) && timers == map[old(nextTimer) := DelayMs(old(store).intervalSeconds)]
      ensures old(probe).value.caller == TimerCallback && old(store).isRunning != Some(true) ==>
        timers == old(timers) && timerId == old(timerId)
      ensures race == old(race) && keepAlive == old(keepAlive)
    {
      var p := probe.value;
      // a resolution closes the tab; a rejection only when the tab id is truthy
      if x.Resolved? || p.tabId != 0 {
        CloseTab(p.tabId, closeFails);
      }
      AppendLog(now, LoggedOutcome(x, p.startTime, now));
      isFetching := false;
      probe := None;
      if p.caller == TimerCallback {
        ReArm();
      }
    }

    /** A tab or download event, or a detector timer firing. Only the detector of the probe in
        flight listens; when the event settles it, the probe finishes at clock `now`. */
    method OnBrowserEvent(e: RaceDetector.Event, now: int, closeFails: bool)
      requires Valid()
      modifies this, race
      ensures Valid()
      ensures old(probe) == None ==> unchanged(this) && unchanged(old(race))
      ensures old(probe).Some? ==> old(race).Snapshot() == RaceDetector.Step(old(race.Snapshot()), e)
      ensures race == old(race) && keepAlive == old(keepAlive)
      ensures old(probe).Some? && old(race).settled == None ==>
        probe == old(probe) && isFetching && store == old(store) && openTabs == old(openTabs)
        && timers == old(timers) && timerId == old(timerId) && nextTimer == old(nextTimer)
      ensures old(probe).Some? && old(race).settled.Some? ==>
        && probe == None && !isFetching
        && store == old(store).(timingLogs := Some(LogStore.Appended(old(store).timingLogs,
             Entry(now, LoggedOutcome(old(race).settled.value, old(probe).value.startTime, now)))))
        && openTabs == (if closeFails || (old(race).settled.value.Rejected? && old(probe).value.tabId == 0)
                        then old(openTabs) else old(openTabs) - {old(probe).value.tabId})
      ensures old(probe).Some? && old(race).settled.Some? && old(probe).value.caller == RunNowMessage ==>
        timers == old(timers) && timerId == old(timerId) && nextTimer == old(nextTimer)
      ensures old(probe).Some? && old(race).settled.Some? && old(probe).value.caller == TimerCallback ==>
        if old(store).isRunning == Some(true)
        then timerId == Some(old(nextTimer)) && timers == map[old(nextTimer) := DelayMs(old(store).intervalSeconds)]
        else timers == old(timers) && timerId == old(timerId)
    {
      if probe == None {
        return;
      }
      race.Handle(e);
      RaceDetector.InvStep(old(race.Snapshot()), e);
      if race.settled.Some? {
        FinishProbe(race.settled.value, now, closeFails);
      }
    }

    /** A re-arm timer firing: a cleared timer never fires. The callback runs a probe; when the
        probe was skipped or logged at once, the callback goes on to re-arm while `isRunning`
        is stored as true; while the probe waits on its detector, no timer is pending. */
    method OnTimerFired(h: nat, now: int, open: TabOpen)
      requires Valid()
      modifies this
      ensures Valid()
      ensures h !in old(timers) ==>
        timers == old(timers) && timerId == old(timerId) && store == old(store) && probe == old(probe)
        && isFetching == old(isFetching) && openTabs == old(openTabs) && race == old(race)
      ensures h in old(timers) && old(isFetching) ==>
        store == old(store) && probe == old(probe) && isFetching && openTabs == old(openTabs) && race == old(race)
      ensures h in old(timers) && !old(isFetching) && NoUrl(old(store).targetUrl) ==>
        probe == None && !isFetching && openTabs == old(openTabs)
        && store == old(store).(timingLogs := Some(LogStore.Appended(old(store).timingLogs, Entry(now, NoUrlOutcome()))))
      ensures h in old(timers) && !old(isFetching) && !NoUrl(old(store).targetUrl) && open.OpenFailed? ==>
        && probe == None && !isFetching
        && store == old(store).(timingLogs := Some(LogStore.Appended(old(store).timingLogs,
             Entry(open.at, Outcome(false, Some(open.message), open.at - now, 0, Dash)))))
        && openTabs == old(openTabs)
      ensures h in old(timers) && !old(isFetching) && !NoUrl(old(store).targetUrl) && open.Opened? ==>
        && probe == Some(Probe(open.tabId, now, TimerCallback)) && isFetching && store == old(store)
        && openTabs == old(openTabs) + {open.tabId} && timers == map[]
        && fresh(race) && race.Snapshot() == RaceDetector.Init(open.tabId, now)
      ensures h in old(timers) && (old(isFetching) || NoUrl(old(store).targetUrl) || open.OpenFailed?) ==>
        if old(store).isRunning == Some(true)
        then timerId == Some(old(nextTimer)) && timers == map[old(nextTimer) := DelayMs(old(store).intervalSeconds)]
        else timers == map[]
      ensures |timers| <= 1
      ensures keepAlive == old(keepAlive)
    {
      if h !in timers {
        AtMostOnePending(timers, timerId);
        return;
      }
      AtMostOnePending(timers, timerId);
      timers := timers - {h};
      assert timers == map[];
      var status := PerformFetchAndMeasure(TimerCallback, now, open);
      if status != Waiting {
        ReArm();
      }
      AtMostOnePending(timers, timerId);
    }

    /** `restoreIfRunning`: arm only if the persisted `isRunning` and `intervalSeconds` are both
        truthy. Any number of calls leaves exactly one timer pending. */
    method RestoreIfRunning()
      requires Valid()
      modifies this
      ensures Valid()
      ensures old(store).isRunning == Some(true) && old(store).intervalSeconds.Some? && old(store).intervalSeconds.value != 0 ==>
        keepAlive && timerId == Some(old(nextTimer))
        && timers == map[old(nextTimer) := DelayMs(old(store).intervalSeconds)]
      ensures !(old(store).isRunning == Some(true) && old(store).intervalSeconds.Some? && old(store).intervalSeconds.value != 0) ==>
        keepAlive == old(keepAlive) && timers == old(timers) && timerId == old(timerId)
      ensures store == old(store) && isFetching == old(isFetching) && probe == old(probe) && openTabs == old(openTabs)
      ensures race == old(race)
    {
      var running := store.isRunning;
      var intervalSeconds := store.intervalSeconds;
      if running == Some(true) && intervalSeconds.Some? && intervalSeconds.value != 0 {
        keepAlive := true;
        ScheduleNext(intervalSeconds);
      }
    }

    /** `onInstalled`: write an empty log when none exists and `isRunning: false` when unset. */
    method OnInstalled()
      requires Valid()
      modifies this
      ensures Valid()
      ensures store == old(store).(
        timingLogs := if old(store).timingLogs == None then Some([]) else old(store).timingLogs,
        isRunning := if old(store).isRunning == None then Some(false) else old(store).isRunning)
      ensures isFetching == old(isFetching) && probe == old(probe) && openTabs == old(openTabs) && race == old(race)
      ensures timers == old(timers) && timerId == old(timerId) && keepAlive == old(keepAlive)
    {
      var timingLogs := store.timingLogs;
      var isRunning := store.isRunning;
      if timingLogs == None {
        store := store.(timingLogs := Some([]));
      }
      if isRunning == None {
        store := store.(isRunning := Some(false));
      }
    }

    /** The `chrome.runtime.onMessage` dispatch on `message.action`. */
    method OnMessage(m: Message, now: int, open: TabOpen)
      requires Valid()
      modifies this
      ensures Valid()
      ensures m.Start? ==>
        keepAlive && timerId == Some(old(nextTimer)) && timers == map[old(nextTimer) := DelayMs(Some(m.intervalSeconds))]
        && store == old(store).(isRunning := Some(true), intervalSeconds := Some(m.intervalSeconds))
      ensures m.Stop? ==>
        !keepAlive && timers == map[] && timerId == None
        && store == old(store).(isRunning := Some(false))
      ensures m.Start? || m.Stop? ==>
        isFetching == old(isFetching) && probe == old(probe) && openTabs == old(openTabs) && race == old(race)
      ensures m.RunNow? ==> timers == old(timers) && timerId == old(timerId) && keepAlive == old(keepAlive)
      ensures m.RunNow? && old(isFetching) ==>
        store == old(store) && openTabs == old(openTabs) && probe == old(probe) && isFetching && race == old(race)
      ensures m.RunNow? && !old(isFetching) && NoUrl(old(store).targetUrl) ==>
        probe == None && !isFetching && openTabs == old(openTabs)
        && store == old(store).(timingLogs := Some(LogStore.Appended(old(store).timingLogs, Entry(now, NoUrlOutcome()))))
      ensures m.RunNow? && !old(isFetching) && !NoUrl(old(store).targetUrl) && open.OpenFailed? ==>
        && probe == None && !isFetching && openTabs == old(openTabs)
        && store == old(store).(timingLogs := Some(LogStore.Appended(old(store).timingLogs,
             Entry(open.at, Outcome(false, Some(open.message), open.at - now, 0, Dash)))))
      ensures m.RunNow? && !old(isFetching) && !NoUrl(old(store).targetUrl) && open.Opened? ==>
        && probe == Some(Probe(open.tabId, now, RunNowMessage)) && isFetching && store == old(store)
        && openTabs == old(openTabs) + {open.tabId} && fresh(race) && race.Snapshot() == RaceDetector.Init(open.tabId, now)
      ensures m.Unknown? ==>
        store == old(store) && timers == old(timers) && timerId == old(timerId) && keepAlive == old(keepAlive)
        && isFetching == old(isFetching) && probe == old(probe) && openTabs == old(openTabs) && race == old(race)
    {
      match m
      case Start(intervalSeconds) =>
        StartTimer(intervalSeconds);
        keepAlive := true;
      case Stop =>
        StopTimer();
        keepAlive := false;
      case RunNow =>
        var _ := PerformFetchAndMeasure(RunNowMessage, now, open);
      case Unknown =>
    }
  }
}
