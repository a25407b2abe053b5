/**
 * The change monitor: a page snapshot that starts absent, is set by the first
 * successful fetch without an alert, and raises an alert whenever a later
 * fetch returns different content. Both variants of the bot follow this rule.
 */
module Monitor {
  import opened Wrappers

  /** The alert both variants broadcast, always in Arabic, ending with the monitored URL. */
  function AlertText(url: string): (r: string)
    ensures |r| > |url| && r[|r| - |url|..] == url
  {
    "تنبيه: تم تحديث صفحة التسجيل لمنحة البطالة. ادخل الآن: " + url
  }

  /** The snapshot after one tick, and whether the tick broadcasts an alert. */
  datatype TickResult = TickResult(snapshot: Option<string>, alert: bool)

  /**
   * One pass of the body of `monitor_loop`. `fetched` is the body of the
   * response (`r.text`), or `None` when `requests.get` raised.
   */
  function Tick(last: Option<string>, fetched: Option<string>): (r: TickResult)
    ensures fetched.None? ==> r == TickResult(last, false)
    ensures fetched.Some? ==> r.snapshot == fetched
    ensures r.alert <==> last.Some? && fetched.Some? && fetched.value != last.value
  {
    match fetched
    case None => TickResult(last, false)
    case Some(content) =>
      if last.None? then TickResult(Some(content), false)
      else if content != last.value then TickResult(Some(content), true)
      else TickResult(last, false)
  }

  /** A content fetched twice in a row alerts at most once: the second tick is silent. */
  lemma RepeatedContentIsSilent(last: Option<string>, content: string)
    ensures !Tick(Tick(last, Some(content)).snapshot, Some(content)).alert
  {
  }

  /** The snapshot and the number of alerts after a run of ticks. */
  datatype MonitorRun = MonitorRun(snapshot: Option<string>, alerts: nat)

  /**
   * Successive ticks of `monitor_loop` over a sequence of fetch outcomes:
   * at most one alert per tick, and the snapshot ends as the last content
   * fetched, or as it was when every fetch failed.
   */
  function RunTicks(last: Option<string>, fetches: seq<Option<string>>): (r: MonitorRun)
    ensures r.alerts <= |fetches|
    ensures Successes(fetches) == [] ==> r.snapshot == last
    ensures Successes(fetches) != [] ==> r.snapshot == Some(Successes(fetches)[|Successes(fetches)| - 1])
    decreases |fetches|
  {
    if fetches == [] then MonitorRun(last, 0)
    else
      var t := Tick(last, fetches[0]);
      var rest := RunTicks(t.snapshot, fetches[1..]);
      MonitorRun(rest.snapshot, rest.alerts + if t.alert then 1 else 0)
  }

  /** The contents of the successful fetches, in order. */
  function Successes(fetches: seq<Option<string>>): seq<string>
    decreases |fetches|
  {
    if fetches == [] then []
    else (if fetches[0].Some? then [fetches[0].value] else []) + Successes(fetches[1..])
  }

  /** The number of places where a content differs from the one before it. */
  function Changes(contents: seq<string>): nat
    decreases |contents|
  {
    if |contents| < 2 then 0
    else (if contents[0] != contents[1] then 1 else 0) + Changes(contents[1..])
  }

  /** What a run starts from: the snapshot, if any, followed by the successful contents. */
  function Observed(last: Option<string>, fetches: seq<Option<string>>): seq<string> {
    (if last.Some? then [last.value] else []) + Successes(fetches)
  }

  /**
   * What the first tick takes from a run: the content it compares against
   * when both the snapshot and the fetch are present, and nothing otherwise.
   */
  lemma ObservedAfterTick(last: Option<string>, fetches: seq<Option<string>>)
    requires fetches != []
    ensures Observed(last, fetches)
      == (if last.Some? && fetches[0].Some? then [last.value] else []) + Observed(Tick(last, fetches[0]).snapshot, fetches[1..])
    ensures fetches[0].Some? ==> Observed(Tick(last, fetches[0]).snapshot, fetches[1..])[0] == fetches[0].value
  {
    assert Successes(fetches) == (if fetches[0].Some? then [fetches[0].value] else []) + Successes(fetches[1..]);
  }

  /** Putting one content in front adds one change exactly when it differs from the next, and keeps the last. */
  lemma ChangesCons(c: string, rest: seq<string>)
    requires rest != []
    ensures Changes([c] + rest) == (if c != rest[0] then 1 else 0) + Changes(rest)
    ensures ([c] + rest)[|rest|] == rest[|rest| - 1]
  {
    assert ([c] + rest)[1..] == rest;
  }

  /**
   * Over any run, the monitor alerts exactly once per change between
   * successive successful fetches (counting from the snapshot it starts
   * with), and ends with the last content it fetched: failed fetches and
   * the first fetch never alert.
   */
  lemma {:induction false} AlertsAreChanges(last: Option<string>, fetches: seq<Option<string>>)
    ensures RunTicks(last, fetches).alerts == Changes(Observed(last, fetches))
    ensures Observed(last, fetches) != [] ==> RunTicks(last, fetches).snapshot == Some(Observed(last, fetches)[|Observed(last, fetches)| - 1])
    ensures Observed(last, fetches) == [] ==> RunTicks(last, fetches).snapshot == None
    decreases |fetches|
  {
    if fetches != [] {
      var t := Tick(last, fetches[0]);
      AlertsAreChanges(t.snapshot, fetches[1..]);
      ObservedAfterTick(last, fetches);
      if last.Some? && fetches[0].Some? {
        var rest := Observed(t.snapshot, fetches[1..]);
        ChangesCons(last.value, rest);
        assert Observed(last, fetches) == [last.value] + rest;
      } else {
        assert Observed(last, fetches) == Observed(t.snapshot, fetches[1..]);
      }
    }
  }

  /** A run whose fetches all fail leaves the snapshot alone and never alerts. */
  lemma {:induction false} FailedFetchesChangeNothing(last: Option<string>, fetches: seq<Option<string>>)
    requires forall k | 0 <= k < |fetches| :: fetches[k].None?
    ensures RunTicks(last, fetches) == MonitorRun(last, 0)
    decreases |fetches|
  {
    if fetches != [] {
      FailedFetchesChangeNothing(last, fetches[1..]);
    }
  }
}
