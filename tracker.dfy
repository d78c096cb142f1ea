/**
 * The time-accrual state machine of the background script, on values.
 *
 * The script keeps one active session in three module-level variables
 * (`currentTabId`, `currentDomain`, `startTime`) and a per-domain ledger
 * `timeData` of milliseconds.  A `Tracker` value is a snapshot of those four
 * variables; each function below is one of the script's operations applied to
 * a snapshot.  The clock (`Date.now()`) is an explicit `now` argument, and the
 * results of the browser's tab queries are arguments too.  The class in
 * background.dfy performs the same operations in place and is proved against
 * these functions.
 */
module Tracker {
  import opened Wrappers
  import opened Domain

  datatype Tracker = Tracker(
    currentTabId: Option<int>,
    currentDomain: Option<string>,
    startTime: Option<int>,
    timeData: map<string, int>)

  /** The state when the script is loaded: no session, empty ledger. */
  const Initial: Tracker := Tracker(None, None, None, map[])

  /** The three session variables are set and cleared together. */
  predicate Consistent(t: Tracker)
  {
    t.currentTabId.Some? == t.currentDomain.Some? == t.startTime.Some?
  }

  /**
   * The guard `currentDomain && startTime` of `stopTracking`: JavaScript
   * truthiness, so an empty domain or a start time of 0 counts as no session.
   */
  predicate Accruing(t: Tracker)
  {
    Resolved(t.currentDomain) && t.startTime.Some? && t.startTime.value != 0
  }

  /** The ledger's value for `d`, with an absent key read as 0. */
  function Entry(ledger: map<string, int>, d: string): int
  {
    if d in ledger then ledger[d] else 0
  }

  /** `stopTracking()` at time `now`. */
  function Stop(t: Tracker, now: int): Tracker
  {
    var ledger :=
      if Accruing(t) then
        var d := t.currentDomain.value;
        t.timeData[d := Entry(t.timeData, d) + (now - t.startTime.value)]
      else
        t.timeData;
    Tracker(None, None, None, ledger)
  }

  /** `startTracking(tabId, domain)` at time `now`. */
  function Start(t: Tracker, tabId: int, domain: string, now: int): Tracker
  {
    var closed := if t.currentTabId.Some? then Stop(t, now) else t;
    Tracker(Some(tabId), Some(domain), Some(now), closed.timeData)
  }

  /**
   * The `chrome.tabs.onActivated` listener: `host` is the hostname of the
   * activated tab's url, or `None` when the url does not parse.
   */
  function OnActivated(t: Tracker, tabId: int, host: Option<string>, now: int): Tracker
  {
    var domain := ExtractDomain(host);
    if Resolved(domain) then Start(Stop(t, now), tabId, domain.value, now) else t
  }

  /**
   * The `changeInfo.url` of an update: absent (or the empty string), or a new
   * url whose parse outcome is `host`.
   */
  datatype UrlChange = NoUrl | NewUrl(host: Option<string>)

  /** The `chrome.tabs.onUpdated` listener. */
  function OnUpdated(t: Tracker, tabId: int, change: UrlChange, now: int): Tracker
  {
    if t.currentTabId == Some(tabId) && change.NewUrl? then
      var domain := ExtractDomain(change.host);
      var stopped := Stop(t, now);
      if Resolved(domain) then Start(stopped, tabId, domain.value, now) else stopped
    else
      t
  }

  /** The first tab of an active-tab query: its id and its url's parse outcome. */
  datatype ActiveTab = ActiveTab(id: int, host: Option<string>)

  /**
   * Track the tab an active-tab query returned (`tabs[0]`, if any): the body
   * shared by the start-up query and the restart at the end of a flush.
   */
  function TrackActiveTab(t: Tracker, active: Option<ActiveTab>, now: int): Tracker
  {
    if active.Some? then
      var domain := ExtractDomain(active.value.host);
      if Resolved(domain) then Start(t, active.value.id, domain.value, now) else t
    else
      t
  }

  /** The request body `sendDataToBackend` builds; the timestamp is opaque. */
  datatype Payload = Payload(timeData: map<string, int>, timestamp: string)

  /**
   * `sendDataToBackend()`: the payload carries the ledger; the ledger is reset
   * to `{}` only when the request promise resolves (`delivered`), and is kept
   * when it rejects.
   */
  function Send(t: Tracker, delivered: bool, timestamp: string): (Payload, Tracker)
  {
    (Payload(t.timeData, timestamp), if delivered then t.(timeData := map[]) else t)
  }

  /** One tick of the five-minute interval, taken as one atomic step. */
  function Flush(t: Tracker, now: int, delivered: bool, timestamp: string, active: Option<ActiveTab>): (Payload, Tracker)
  {
    var sent := Send(Stop(t, now), delivered, timestamp);
    (sent.0, TrackActiveTab(sent.1, active, now))
  }

  // ---------------------------------------------------------------------
  // Properties of single operations

  /**
   * Stopping an accruing session adds exactly `now - startTime` to the
   * current domain's entry, creating it at 0 if absent; no other entry
   * changes, and the session is reset to none.
   */
  lemma StopAccrues(t: Tracker, now: int)
    requires Accruing(t)
    ensures var r := Stop(t, now); var d := t.currentDomain.value;
      && r.timeData.Keys == t.timeData.Keys + {d}
      && r.timeData[d] == Entry(t.timeData, d) + (now - t.startTime.value)
      && (forall k :: k in t.timeData && k != d ==> r.timeData[k] == t.timeData[k])
  {
  }

  /** Whatever the prior state, stopping leaves no session. */
  lemma StopResetsSession(t: Tracker, now: int)
    ensures Stop(t, now).currentTabId == None
    ensures Stop(t, now).currentDomain == None
    ensures Stop(t, now).startTime == None
    ensures Accruing(t) || Stop(t, now).timeData == t.timeData
  {
  }

  /** A second stop is a no-op, at any later time. */
  lemma StopIdempotent(t: Tracker, now: int, later: int)
    ensures Stop(Stop(t, now), later) == Stop(t, now)
  {
  }

  /**
   * Starting closes the open session (accruing its interval at the same
   * instant the new one opens) and then opens `(tabId, domain, now)`.
   */
  lemma StartClosesThenOpens(t: Tracker, tabId: int, domain: string, now: int)
    requires Consistent(t)
    ensures var r := Start(t, tabId, domain, now);
      && r.currentTabId == Some(tabId) && r.currentDomain == Some(domain) && r.startTime == Some(now)
      && r.timeData == Stop(t, now).timeData
  {
  }

  /** The session variables stay set or cleared together. */
  lemma OperationsKeepConsistent(t: Tracker, tabId: int, domain: string, host: Option<string>, change: UrlChange,
                                 active: Option<ActiveTab>, now: int, delivered: bool, timestamp: string)
    requires Consistent(t)
    ensures Consistent(Stop(t, now)) && Consistent(Start(t, tabId, domain, now))
    ensures Consistent(OnActivated(t, tabId, host, now))
    ensures Consistent(OnUpdated(t, tabId, change, now))
    ensures Consistent(TrackActiveTab(t, active, now))
    ensures Consistent(Flush(t, now, delivered, timestamp, active).1)
  {
  }

  /** An activation whose url does not resolve changes nothing. */
  lemma ActivatedUnresolvedIsIgnored(t: Tracker, tabId: int, host: Option<string>, now: int)
    requires !Resolved(ExtractDomain(host))
    ensures OnActivated(t, tabId, host, now) == t
  {
  }

  /**
   * A resolvable activation closes the current session and opens one for the
   * activated tab; the explicit stop and the stop inside `startTracking` do
   * not count the interval twice.
   */
  lemma ActivatedSwitches(t: Tracker, tabId: int, host: Option<string>, now: int)
    requires Consistent(t) && Resolved(ExtractDomain(host))
    ensures OnActivated(t, tabId, host, now)
         == Tracker(Some(tabId), ExtractDomain(host), Some(now), Stop(t, now).timeData)
    ensures OnActivated(t, tabId, host, now) == Start(t, tabId, ExtractDomain(host).value, now)
  {
  }

  /** An update is ignored unless it is for the tracked tab and carries a url. */
  lemma UpdatedIgnoredUnlessTrackedTab(t: Tracker, tabId: int, change: UrlChange, now: int)
    requires t.currentTabId != Some(tabId) || change.NoUrl?
    ensures OnUpdated(t, tabId, change, now) == t
  {
  }

  /**
   * An update for the tracked tab always closes the session; a new one opens
   * only when the new url resolves, otherwise the tracker is left idle.
   */
  lemma UpdatedClosesSession(t: Tracker, host: Option<string>, now: int)
    requires t.currentTabId.Some?
    ensures var r := OnUpdated(t, t.currentTabId.value, NewUrl(host), now);
      && r.timeData == Stop(t, now).timeData
      && (Resolved(ExtractDomain(host)) ==>
            r.currentTabId == t.currentTabId && r.currentDomain == ExtractDomain(host) && r.startTime == Some(now))
      && (!Resolved(ExtractDomain(host)) ==> r == Stop(t, now))
  {
  }

  /** Start-up tracks the active tab when it resolves; otherwise nothing changes. */
  lemma StartupTracksActiveTab(active: Option<ActiveTab>, now: int)
    ensures var r := TrackActiveTab(Initial, active, now);
      && r.timeData == map[]
      && (active.Some? && Resolved(ExtractDomain(active.value.host)) ==>
            r == Tracker(Some(active.value.id), ExtractDomain(active.value.host), Some(now), map[]))
      && (!(active.Some? && Resolved(ExtractDomain(active.value.host))) ==> r == Initial)
  {
  }

  /**
   * Flush stops before the payload is built, so the payload holds the final
   * open interval; a delivered request leaves the ledger empty, a rejected
   * one leaves it as the payload; the session then restarts for the active tab.
   */
  lemma FlushSendsClosedLedger(t: Tracker, now: int, delivered: bool, timestamp: string, active: Option<ActiveTab>)
    ensures var (payload, r) := Flush(t, now, delivered, timestamp, active);
      && payload == Payload(Stop(t, now).timeData, timestamp)
      && r.timeData == (if delivered then map[] else payload.timeData)
      && r == TrackActiveTab(Tracker(None, None, None, r.timeData), active, now)
  {
  }

  /**
   * A switch through `startTracking`: github.com opened at `t0`, facebook.com
   * opened at `t1`; github.com is credited with `t1 - t0` and facebook.com
   * is open from `t1`.  A start time of 0 is falsy, hence `t0 != 0`.
   */
  lemma SwitchScenario(t0: int, t1: int, gh: int, fb: int)
    requires t0 != 0
    ensures Start(Start(Initial, gh, "github.com", t0), fb, "facebook.com", t1)
         == Tracker(Some(fb), Some("facebook.com"), Some(t1), map["github.com" := t1 - t0])
  {
  }

  /**
   * The flush right after that switch, at `t1`: the payload credits
   * github.com with `t1 - t0`, and closing the zero-length facebook.com
   * session also creates a `facebook.com: 0` entry; after delivery the
   * ledger is empty and facebook.com is reopened at `t1`.
   */
  lemma FlushAfterSwitchScenario(t0: int, t1: int, fb: int, timestamp: string)
    requires t1 != 0
    ensures Flush(Tracker(Some(fb), Some("facebook.com"), Some(t1), map["github.com" := t1 - t0]),
                  t1, true, timestamp, Some(ActiveTab(fb, Some("facebook.com"))))
         == (Payload(map["github.com" := t1 - t0, "facebook.com" := 0], timestamp),
             Tracker(Some(fb), Some("facebook.com"), Some(t1), map[]))
  {
    StripKeepsHostWithoutW("facebook.com");
    assert ExtractDomain(Some("facebook.com")) == Some("facebook.com");
    var b := Tracker(Some(fb), Some("facebook.com"), Some(t1), map["github.com" := t1 - t0]);
    var s := Stop(b, t1);
    assert s.timeData == map["github.com" := t1 - t0, "facebook.com" := 0];
  }

  /** The same switch with a session opened at time 0 accrues nothing. */
  lemma ZeroStartIsNotCounted(t1: int, gh: int, fb: int)
    ensures Start(Start(Initial, gh, "github.com", 0), fb, "facebook.com", t1).timeData == map[]
  {
  }

  /**
   * Two delivered flushes in a row, with no activity and no active tab to
   * resume in between, send an empty ledger the second time.
   */
  lemma SecondFlushIsEmpty(t: Tracker, now: int, later: int, ts1: string, ts2: string)
    ensures var (_, r) := Flush(t, now, true, ts1, None);
      Flush(r, later, true, ts2, None).0.timeData == map[]
  {
  }

  /**
   * With a session resumed at `now` (not 0), the next flush at `later`
   * sends exactly that session's interval.
   */
  lemma NextFlushSendsResumedInterval(t: Tracker, now: int, later: int, ts1: string, ts2: string, tab: ActiveTab)
    requires now != 0 && Resolved(ExtractDomain(tab.host))
    ensures var (_, r) := Flush(t, now, true, ts1, Some(tab));
      Flush(r, later, true, ts2, Some(tab)).0.timeData == map[ExtractDomain(tab.host).value := later - now]
  {
  }

  // ---------------------------------------------------------------------
  // Non-negative ledger under a non-decreasing clock

  predicate NonNegative(ledger: map<string, int>)
  {
    forall d :: d in ledger ==> ledger[d] >= 0
  }

  /** The open session did not start after `now`. */
  predicate StartedBy(t: Tracker, now: int)
  {
    t.startTime.Some? ==> t.startTime.value <= now
  }

  /**
   * `elapsed` is not clamped: a stop only adds to the ledger, and keeps it
   * non-negative, when the clock has not run back past the session's start.
   */
  lemma StopOnlyGrowsLedger(t: Tracker, now: int)
    requires StartedBy(t, now)
    ensures t.timeData.Keys <= Stop(t, now).timeData.Keys
    ensures forall d :: d in t.timeData ==> t.timeData[d] <= Stop(t, now).timeData[d]
    ensures NonNegative(t.timeData) ==> NonNegative(Stop(t, now).timeData)
  {
  }

  /** A clock that runs backwards makes the entry negative. */
  lemma BackwardsClockGoesNegative(d: string, start: int, now: int)
    requires d != "" && start != 0 && now < start
    ensures Stop(Tracker(Some(1), Some(d), Some(start), map[]), now).timeData[d] < 0
  {
  }
}
