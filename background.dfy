/**
 * The background script's module-level state and its operations, in place.
 *
 * The four `let` variables of the script become fields of one object; each
 * function of the script and each listener body becomes a method that updates
 * those fields step by step as the script does.  Every method is proved to
 * leave the state the corresponding function of module Tracker gives, so the
 * lemmas of Tracker and Sessions hold of it.
 */
module Background {
  import opened Wrappers
  import opened Domain
  import opened Tracker

  class BackgroundScript {
    var currentTabId: Option<int>
    var currentDomain: Option<string>
    var startTime: Option<int>
    var timeData: map<string, int>

    /** The four variables as a Tracker value. */
    function State(): Tracker
      reads this
    {
      Tracker(currentTabId, currentDomain, startTime, timeData)
    }

    /** The session variables are set and cleared together. */
    ghost predicate Valid()
      reads this
    {
      Consistent(State())
    }

    /** Loading the script: all three session variables null, `timeData = {}`. */
    constructor ()
      ensures Valid() && State() == Initial
    {
      currentTabId := None;
      currentDomain := None;
      startTime := None;
      timeData := map[];
    }

    /** `stopTracking()`, with `Date.now()` read as `now`. */
    method StopTracking(now: int)
      requires Valid()
      modifies this
      ensures Valid() && State() == Stop(old(State()), now)
      ensures currentTabId == None && currentDomain == None && startTime == None
    {
      if currentDomain.Some? && currentDomain.value != "" && startTime.Some? && startTime.value != 0 {
        var domain := currentDomain.value;
        var elapsed := now - startTime.value;
        if domain !in timeData || timeData[domain] == 0 {
          timeData := timeData[domain := 0];
        }
        timeData := timeData[domain := timeData[domain] + elapsed];
      }
      currentTabId := None;
      currentDomain := None;
      startTime := None;
    }

    /** `startTracking(tabId, domain)`, with `Date.now()` read as `now`. */
    method StartTracking(tabId: int, domain: string, now: int)
      requires Valid()
      modifies this
      ensures Valid() && State() == Start(old(State()), tabId, domain, now)
      ensures currentTabId == Some(tabId) && currentDomain == Some(domain) && startTime == Some(now)
    {
      if currentTabId.Some? {
        StopTracking(now);
      }
      currentTabId := Some(tabId);
      currentDomain := Some(domain);
      startTime := Some(now);
    }

    /**
     * The `onActivated` listener, once `chrome.tabs.get` has produced the
     * tab: `host` is its url's hostname, or `None` when the url does not parse.
     */
    method OnTabActivated(tabId: int, host: Option<string>, now: int)
      requires Valid()
      modifies this
      ensures Valid() && State() == OnActivated(old(State()), tabId, host, now)
    {
      var domain := ExtractDomain(host);
      if Resolved(domain) {
        StopTracking(now);
        StartTracking(tabId, domain.value, now);
      }
    }

    /** The `onUpdated` listener. */
    method OnTabUpdated(tabId: int, change: UrlChange, now: int)
      requires Valid()
      modifies this
      ensures Valid() && State() == OnUpdated(old(State()), tabId, change, now)
    {
      if currentTabId == Some(tabId) && change.NewUrl? {
        var domain := ExtractDomain(change.host);
        StopTracking(now);
        if Resolved(domain) {
          StartTracking(tabId, domain.value, now);
        }
      }
    }

    /** The callback of an active-tab query: start-up, and the restart after a flush. */
    method OnActiveTabQueried(active: Option<ActiveTab>, now: int)
      requires Valid()
      modifies this
      ensures Valid() && State() == TrackActiveTab(old(State()), active, now)
    {
      if active.Some? {
        var domain := ExtractDomain(active.value.host);
        if Resolved(domain) {
          StartTracking(active.value.id, domain.value, now);
        }
      }
    }

    /**
     * `sendDataToBackend()`: builds the payload from the ledger, then resets
     * the ledger to `{}` if the request promise resolved (`delivered`).
     */
    method SendDataToBackend(delivered: bool, timestamp: string) returns (payload: Payload)
      requires Valid()
      modifies this
      ensures Valid() && (payload, State()) == Send(old(State()), delivered, timestamp)
      ensures payload.timeData == old(timeData)
      ensures timeData == if delivered then map[] else old(timeData)
    {
      payload := Payload(timeData, timestamp);
      if delivered {
        timeData := map[];
      }
    }

    /**
     * One tick of the five-minute interval: stop, send, then restart on the
     * tab the active-tab query returned.
     */
    method FlushTick(now: int, delivered: bool, timestamp: string, active: Option<ActiveTab>)
      returns (payload: Payload)
      requires Valid()
      modifies this
      ensures Valid() && (payload, State()) == Flush(old(State()), now, delivered, timestamp, active)
    {
      StopTracking(now);
      payload := SendDataToBackend(delivered, timestamp);
      OnActiveTabQueried(active, now);
    }
  }
}
