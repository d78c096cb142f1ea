/**
 * Sequences of `startTracking` / `stopTracking` calls, and an independent
 * account of the time they should accrue: the list of closed session
 * intervals.  The ledger the tracker builds is proved to be its starting
 * ledger plus, per domain, the sum of that domain's closed intervals: no
 * interval is lost and none is counted twice.
 */
module Sessions {
  import opened Wrappers
  import opened Domain
  import opened Tracker

  /** One call into the tracker, with the clock reading it sees. */
  datatype Call = StartCall(tabId: int, domain: string, at: int) | StopCall(at: int)

  function Step(t: Tracker, c: Call): Tracker
  {
    match c
    case StartCall(tabId, domain, at) => Start(t, tabId, domain, at)
    case StopCall(at) => Stop(t, at)
  }

  function Run(t: Tracker, calls: seq<Call>): Tracker
    decreases |calls|
  {
    if calls == [] then t else Run(Step(t, calls[0]), calls[1..])
  }

  /** A session that will be counted when it closes: its domain and start. */
  datatype Open = Open(domain: string, from: int)

  /** A closed session: `domain` was active from `from` until `until`. */
  datatype Interval = Interval(domain: string, from: int, until: int)

  /** The counted session a tracker has open, if any. */
  function OpenOf(t: Tracker): Option<Open>
  {
    if Accruing(t) then Some(Open(t.currentDomain.value, t.startTime.value)) else None
  }

  /** Sessions opened with a falsy domain or start time are never counted. */
  function Opened(domain: string, at: int): Option<Open>
  {
    if domain != "" && at != 0 then Some(Open(domain, at)) else None
  }

  function CloseAt(o: Option<Open>, at: int): seq<Interval>
  {
    if o.Some? then [Interval(o.value.domain, o.value.from, at)] else []
  }

  /**
   * The intervals closed by `calls`, starting with `o` open: every call
   * closes the open session at its own instant; a start opens a new one.
   */
  function Closed(o: Option<Open>, calls: seq<Call>): seq<Interval>
    decreases |calls|
  {
    if calls == [] then []
    else
      match calls[0]
      case StartCall(_, domain, at) => CloseAt(o, at) + Closed(Opened(domain, at), calls[1..])
      case StopCall(at) => CloseAt(o, at) + Closed(None, calls[1..])
  }

  /** The time the intervals give to domain `d`. */
  function Total(ivs: seq<Interval>, d: string): int
    decreases |ivs|
  {
    if ivs == [] then 0
    else (if ivs[0].domain == d then ivs[0].until - ivs[0].from else 0) + Total(ivs[1..], d)
  }

  lemma {:induction false} TotalAppend(a: seq<Interval>, b: seq<Interval>, d: string)
    ensures Total(a + b, d) == Total(a, d) + Total(b, d)
    decreases |a|
  {
    if a == [] {
      assert a + b == b;
    } else {
      assert (a + b)[1..] == a[1..] + b;
      TotalAppend(a[1..], b, d);
    }
  }

  /** Running a history in two parts is running it in one. */
  lemma {:induction false} RunAppend(t: Tracker, a: seq<Call>, b: seq<Call>)
    ensures Run(t, a + b) == Run(Run(t, a), b)
    decreases |a|
  {
    if a == [] {
      assert a + b == b;
    } else {
      assert (a + b)[1..] == a[1..] + b;
      RunAppend(Step(t, a[0]), a[1..], b);
    }
  }

  /** One call credits exactly the interval it closes, and opens what `Closed` opens. */
  lemma StepAccounts(t: Tracker, c: Call, d: string)
    requires Consistent(t)
    ensures Consistent(Step(t, c))
    ensures Entry(Step(t, c).timeData, d) == Entry(t.timeData, d) + Total(CloseAt(OpenOf(t), c.at), d)
    ensures OpenOf(Step(t, c)) == if c.StartCall? then Opened(c.domain, c.at) else None
  {
  }

  /**
   * Every domain's ledger entry after any call sequence is its entry before
   * plus the sum of that domain's closed session intervals.
   */
  lemma {:induction false} LedgerIsSumOfClosedSessions(t: Tracker, calls: seq<Call>, d: string)
    requires Consistent(t)
    ensures Entry(Run(t, calls).timeData, d) == Entry(t.timeData, d) + Total(Closed(OpenOf(t), calls), d)
    decreases |calls|
  {
    if calls != [] {
      var c := calls[0];
      var t' := Step(t, c);
      StepAccounts(t, c, d);
      LedgerIsSumOfClosedSessions(t', calls[1..], d);
      TotalAppend(CloseAt(OpenOf(t), c.at), Closed(OpenOf(t'), calls[1..]), d);
    }
  }

  /** The clock readings of `calls` never go back, and none precedes `t`'s open session. */
  predicate ClockNonDecreasing(t: Tracker, calls: seq<Call>)
  {
    && (forall i :: 0 <= i < |calls| ==> StartedBy(t, calls[i].at))
    && (forall i, j :: 0 <= i < j < |calls| ==> calls[i].at <= calls[j].at)
  }

  /**
   * Under a non-decreasing clock, ledger keys are only ever added and values
   * never decrease, and a non-negative ledger stays non-negative.
   */
  lemma {:induction false} RunOnlyGrowsLedger(t: Tracker, calls: seq<Call>)
    requires ClockNonDecreasing(t, calls)
    ensures t.timeData.Keys <= Run(t, calls).timeData.Keys
    ensures forall d :: d in t.timeData ==> t.timeData[d] <= Run(t, calls).timeData[d]
    ensures NonNegative(t.timeData) ==> NonNegative(Run(t, calls).timeData)
    decreases |calls|
  {
    if calls != [] {
      var c := calls[0];
      var t' := Step(t, c);
      var rest := calls[1..];
      assert StartedBy(t, c.at);
      StopOnlyGrowsLedger(t, c.at);
      assert ClockNonDecreasing(t', rest) by {
        forall i | 0 <= i < |rest| ensures StartedBy(t', rest[i].at) {
          assert calls[0].at <= calls[i + 1].at;
        }
      }
      RunOnlyGrowsLedger(t', rest);
    }
  }

  /** The handlers are fixed compositions of the two calls. */
  lemma HandlersAreCalls(t: Tracker, tabId: int, host: Option<string>, change: UrlChange,
                         active: Option<ActiveTab>, now: int)
    ensures OnActivated(t, tabId, host, now)
         == if Resolved(ExtractDomain(host))
            then Run(t, [StopCall(now), StartCall(tabId, ExtractDomain(host).value, now)])
            else t
    ensures OnUpdated(t, tabId, change, now)
         == if t.currentTabId == Some(tabId) && change.NewUrl? then
              if Resolved(ExtractDomain(change.host))
              then Run(t, [StopCall(now), StartCall(tabId, ExtractDomain(change.host).value, now)])
              else Run(t, [StopCall(now)])
            else t
    ensures TrackActiveTab(t, active, now)
         == if active.Some? && Resolved(ExtractDomain(active.value.host))
            then Run(t, [StartCall(active.value.id, ExtractDomain(active.value.host).value, now)])
            else t
  {
    var s := Stop(t, now);
    assert Run(t, [StopCall(now)]) == s;
    forall id, d ensures Run(t, [StopCall(now), StartCall(id, d, now)]) == Start(s, id, d, now) {
      assert [StopCall(now), StartCall(id, d, now)][1..] == [StartCall(id, d, now)];
      assert Run(s, [StartCall(id, d, now)]) == Start(s, id, d, now);
    }
    forall id, d ensures Run(t, [StartCall(id, d, now)]) == Start(t, id, d, now) {
    }
  }
}
