# Time tracker background script, in Dafny

A model of the background script of a Chrome extension that measures how
long the user spends on each web domain. The script keeps one active
session: the tracked tab, its domain and the instant tracking started. It
also keeps a per-domain ledger of milliseconds. Tab events move the session
from tab to tab. Every time the session closes, its elapsed time is added to
the closed domain's ledger entry. Every five minutes a flush closes the
session, posts the ledger to the backend, clears the ledger once the request
resolves, and restarts tracking on the active tab.

Files:

- `wrappers.dfy`: `Option`, which stands for JavaScript's `null`.
- `domain.dfy`: `extractDomain`. This is the hostname with
  `.replace('www.', '')` applied, so the first `"www."` is removed wherever it
  stands.
- `tracker.dfy`: the state machine, with operations on a `Tracker` value
  holding `currentTabId`, `currentDomain`, `startTime` and `timeData`, plus
  lemmas about one operation or a short scenario.
- `sessions.dfy`: arbitrary sequences of `startTracking` / `stopTracking`
  calls, an independent list of the closed session intervals, and the
  induction lemmas that link the ledger to that list.
- `background.dfy`: the class `BackgroundScript`. It holds the four script
  variables as fields. Its methods update them in place, as the script does,
  and each method is proved to produce the state the matching `Tracker`
  function gives.

Inputs that come from outside the script are parameters:

- the clock (`Date.now()`) is `now`;
- the outcome of `new URL(url).hostname` is an `Option<string>`, with `None`
  meaning that parsing threw;
- the tab that `chrome.tabs.get` or `chrome.tabs.query` returns is an input;
- whether the `fetch` promise resolved is a `bool`;
- the ISO timestamp is an opaque string.

Behaviour of the code that the model keeps as written:

- JavaScript truthiness is modelled explicitly:
  - `stopTracking` accrues only when the domain is not `""` and the start
    time is not `0`;
  - the listeners start a session only for a non-empty domain, so a hostname
    of exactly `"www."` is not tracked.
- `elapsed` is not clamped. A clock that runs backwards makes an entry
  negative (`BackwardsClockGoesNegative`). Non-negativity and growth are
  proved only for a non-decreasing clock.
- The ledger is cleared only when the `fetch` promise resolves. `fetch`
  resolves on any HTTP response, including a 500 from the backend. On a
  network failure the ledger is kept and goes out with the next flush. The
  script therefore does not clear before sending.
- A flush right after a switch also sends the zero-length entry that closing
  the just-opened session creates (`facebook.com: 0` in
  `FlushAfterSwitchScenario`).
- A session opened at clock time `0` is never counted
  (`ZeroStartIsNotCounted`).

## Model

| member | source | states |
|---|---|---|
| Domain.IndexOf | background.js:24 | the search inside `replace`: -1 exactly when the pattern occurs nowhere, otherwise the first index where it occurs |
| Domain.StripWww | background.js:24 | the hostname comes back unchanged exactly when it contains no "www."; otherwise it is four characters shorter |
| Domain.ExtractDomain | background.js:22-29 | null exactly when parsing failed; otherwise the hostname with "www." stripped |
| Domain.StripRemovesFirstOccurrence | background.js:24 | what is removed is the first "www.", at whatever index it occurs, and nothing else |
| Domain.StripLeadingWww | background.js:24 | a leading "www." is removed and the rest is kept |
| Domain.StripKeepsHostWithoutW | background.js:24 | a hostname without "www." (here: without the letter w) is returned unchanged |
| Domain.StripAfterPrefixWithoutW | background.js:24 | an inner "www." after a prefix such as "docs." is removed too, not only a leading one |
| Domain.StripExampleLeading | background.js:24 | "www.github.com" becomes "github.com" |
| Domain.StripExampleAbsent | background.js:24 | "github.com" stays "github.com" |
| Domain.StripExampleTwice | background.js:24 | "www.www.example.org" loses only one "www." |
| Domain.UnresolvedHosts | background.js:22-29 | a parse failure and the hostname "www." both fail the `if (domain)` test |
| Tracker.StopAccrues | background.js:46-51 | stopping an accruing session adds exactly now - startTime to the current domain's entry, creating it at 0 if absent; every other entry is unchanged |
| Tracker.StopResetsSession | background.js:45-57 | after a stop, in any prior state, tab, domain and start are all null; without an accruing session the ledger is unchanged |
| Tracker.StopIdempotent | background.js:45-57 | a second stop, at any time, changes nothing |
| Tracker.StartClosesThenOpens | background.js:35-42 | start first accrues the open session at the same instant, then opens (tabId, domain, now) |
| Tracker.OperationsKeepConsistent | background.js:35-57 | stop, start with any tab and domain, both tab listeners, the active-tab callback and flush all keep the three session variables set or cleared together |
| Tracker.ActivatedUnresolvedIsIgnored | background.js:81-88 | an activation whose domain does not resolve leaves session and ledger unchanged |
| Tracker.ActivatedSwitches | background.js:81-88 | a resolvable activation closes the current session once, not twice, and opens the new tab at now |
| Tracker.UpdatedIgnoredUnlessTrackedTab | background.js:91-99 | an update for another tab, or one without a url, changes nothing |
| Tracker.UpdatedClosesSession | background.js:91-99 | an update of the tracked tab always closes its session; a new one opens only when the new url resolves, otherwise the tracker is idle |
| Tracker.StartupTracksActiveTab | background.js:102-109 | at start-up the active tab is tracked from now when its domain resolves; otherwise the state stays initial |
| Tracker.FlushSendsClosedLedger | background.js:112-124 | the payload is the ledger after the final stop; a resolved send leaves the ledger `{}`, a rejected one keeps it; the session then restarts on the active tab |
| Tracker.SwitchScenario | background.js:35-42 | github.com at t0, then facebook.com at t1, gives `{github.com: t1 - t0}` with facebook.com open from t1 |
| Tracker.FlushAfterSwitchScenario | background.js:112-124 | a flush at t1 right after that switch sends `{github.com: t1 - t0, facebook.com: 0}` and leaves facebook.com open at t1 with an empty ledger |
| Tracker.ZeroStartIsNotCounted | background.js:46 | a session opened at clock time 0 is falsy and accrues nothing |
| Tracker.SecondFlushIsEmpty | background.js:112-124 | two delivered flushes with no activity and no tab to resume send `{}` the second time |
| Tracker.NextFlushSendsResumedInterval | background.js:112-124 | after a flush resumes a tab at now, the next flush sends exactly that tab's domain with later - now |
| Tracker.StopOnlyGrowsLedger | background.js:47-51 | with a clock not earlier than the start, a stop only adds keys, never lowers a value and keeps the ledger non-negative |
| Tracker.BackwardsClockGoesNegative | background.js:47 | elapsed is not clamped, so a clock earlier than the start makes the entry negative |
| Sessions.StepAccounts | background.js:35-57 | one call credits exactly the interval it closes and opens exactly the session the reference opens |
| Sessions.LedgerIsSumOfClosedSessions | background.js:35-57 | after any sequence of start/stop calls, each domain's entry is its old entry plus the sum of its closed session intervals |
| Sessions.RunOnlyGrowsLedger | background.js:35-57 | under a non-decreasing clock, any call sequence only adds ledger keys, never lowers a value and keeps the ledger non-negative |
| Sessions.HandlersAreCalls | background.js:81-124 | each listener is a fixed composition of stop and start calls, so the two lemmas above cover them |
| Domain.Resolved | background.js:84 | the definition of the `if (domain)` test at lines 84, 95, 105 and 119: not null and not the empty string; `UnresolvedHosts` shows both falsy cases |
| Tracker.Accruing | background.js:46 | the definition of the `currentDomain && startTime` guard with JavaScript truthiness; `StopAccrues`, `StopResetsSession` and `ZeroStartIsNotCounted` state what it decides |
| Tracker.Stop | background.js:45-57 | the definition of `stopTracking` on a state value; its properties are `StopAccrues`, `StopResetsSession`, `StopIdempotent` and `StopOnlyGrowsLedger` |
| Tracker.Start | background.js:35-42 | the definition of `startTracking`; its properties are `StartClosesThenOpens`, `SwitchScenario` and `Sessions.StepAccounts` |
| Tracker.OnActivated | background.js:81-88 | the definition of the activation listener; its properties are `ActivatedUnresolvedIsIgnored`, `ActivatedSwitches` and `Sessions.HandlersAreCalls` |
| Tracker.OnUpdated | background.js:91-99 | the definition of the update listener; its properties are `UpdatedIgnoredUnlessTrackedTab`, `UpdatedClosesSession` and `Sessions.HandlersAreCalls` |
| Tracker.TrackActiveTab | background.js:102-109 | the definition of the `tabs[0]` callback shared by start-up and the restart at lines 116-123; its properties are `StartupTracksActiveTab` and `Sessions.HandlersAreCalls` |
| Tracker.Send | background.js:60-78 | the definition of `sendDataToBackend`: payload from the ledger, reset to `{}` only on resolve; its properties are in `FlushSendsClosedLedger` |
| Tracker.Flush | background.js:112-124 | the definition of the interval callback; its properties are `FlushSendsClosedLedger`, `FlushAfterSwitchScenario`, `SecondFlushIsEmpty` and `NextFlushSendsResumedInterval` |
| Sessions.Closed | background.js:35-57 | the reference definition: the intervals a call sequence closes, each ending at the closing call's clock reading; linked to the ledger by `LedgerIsSumOfClosedSessions` |
| Sessions.Total | background.js:46-51 | the reference definition: the time a list of intervals gives one domain; linked to the ledger by `LedgerIsSumOfClosedSessions` |
| Sessions.RunAppend | background.js:81-124 | a history run in two parts equals the whole run, so the per-handler call sequences of `HandlersAreCalls` chain into one sequence for a whole event history |
| Background.BackgroundScript.constructor | background.js:1-3 | the script's initial state: no session and an empty ledger |
| Background.BackgroundScript.StopTracking | background.js:45-57 | the in-place stop, including the `if (!timeData[d]) timeData[d] = 0` step, yields Stop of the old state |
| Background.BackgroundScript.StartTracking | background.js:35-42 | the in-place start yields Start of the old state |
| Background.BackgroundScript.OnTabActivated | background.js:81-88 | the activation listener yields OnActivated of the old state |
| Background.BackgroundScript.OnTabUpdated | background.js:91-99 | the update listener yields OnUpdated of the old state |
| Background.BackgroundScript.OnActiveTabQueried | background.js:102-109 | the active-tab callback, shared by start-up and flush, yields TrackActiveTab of the old state |
| Background.BackgroundScript.SendDataToBackend | background.js:60-78 | the payload carries the ledger; the ledger becomes `{}` only if the request resolved |
| Background.BackgroundScript.FlushTick | background.js:112-124 | the interval callback yields Flush of the old state and its payload |

## Left out

- URL parsing: `new URL(url)` is foreign code, so its outcome is an input.
  The Chrome rules that decide which urls have a hostname are not modelled.
- Chrome APIs: `chrome.tabs.get`, `chrome.tabs.query` and listener
  registration are not modelled. Their results are method inputs.
- Network I/O: `fetch`, `JSON.stringify`, the endpoint URL and
  `console.error` reduce to whether the request promise resolved.
- Timers and clocks: `setInterval` scheduling, `Date.now()` and
  `toISOString()` become the `now` and `timestamp` parameters.
- Asynchrony: each listener runs as one atomic step. So does a whole flush,
  although its send and its tab query resolve later in the script. A flush
  therefore uses one clock reading throughout. An event that slips in between
  the send and its promise resolving is not modelled.
- Clock readings per switch: each call reads the clock once, so a switch
  closes the old session and opens the new one at the same `now`. In the
  script, `stopTracking` reads `Date.now()` (line 47) and `startTracking`
  reads it again (line 41), also when a listener calls them one after the
  other (lines 85-86, 94-96). The second reading can be later, and the gap of
  0-1 ms per switch is credited to no domain. The model does not count that
  gap. `StartClosesThenOpens` and `LedgerIsSumOfClosedSessions` hold exactly
  only under this single reading.
- Identity: the constant user id `"demo-user"` in the payload has no logic,
  so `Payload` omits it.
- Classification: the `productiveWebsites` and `unproductiveWebsites` arrays
  are declared but never read by the script, so nothing models them.
- Object keys: JavaScript object keys that collide with
  `Object.prototype` (a domain named `constructor` reads as truthy and `+=`
  turns it into a string) are not modelled. The ledger is a plain `map`.
- Numbers: millisecond values are unbounded integers, not IEEE doubles.
- The backend server and the dashboard aggregation are not part of this
  model.
