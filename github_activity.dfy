/**
 * The GitHub activity card: the 30-day contribution total, the per-day event
 * map of the last week, the seven-day strip with its 0..4 intensity levels,
 * and the state the card keeps across a refresh, including the error path.
 * Instants are milliseconds since the epoch and a date is a UTC day number.
 */
module GitHubActivity {
  import opened Wrappers
  import opened Collections
  import opened Text

  const DayMs: nat := 86400000

  /** The UTC calendar day of an instant (what `toISOString().split('T')[0]` names). */
  function Day(t: int): int {
    t / DayMs
  }

  datatype Event = Event(eventType: string, createdAt: int)

  // ---------------------------------------------------------------- levels

  /** `count === 0 ? 0 : count <= 2 ? 1 : count <= 4 ? 2 : count <= 6 ? 3 : 4`. */
  function ContributionLevel(count: nat): (level: nat)
    ensures level <= 4
    ensures level == 0 <==> count == 0
  {
    if count == 0 then 0
    else if count <= 2 then 1
    else if count <= 4 then 2
    else if count <= 6 then 3
    else 4
  }

  /** Closed form: pairs of events per level, capped at 4 from seven events on. */
  lemma LevelClosedForm(count: nat)
    ensures ContributionLevel(count) == if count >= 7 then 4 else (count + 1) / 2
  {
  }

  lemma LevelMonotone(a: nat, b: nat)
    requires a <= b
    ensures ContributionLevel(a) <= ContributionLevel(b)
  {
  }

  const NoActivityColor: string := "bg-muted/30"

  /** `getLevelColor`: one class per level; anything else falls back to the level-0 class. */
  function LevelColor(level: int): (c: string)
    ensures c == NoActivityColor <==> !(1 <= level <= 4)
  {
    if level == 1 then "bg-green-200 dark:bg-green-900/50"
    else if level == 2 then "bg-green-300 dark:bg-green-800/70"
    else if level == 3 then "bg-green-400 dark:bg-green-700/80"
    else if level == 4 then "bg-green-500 dark:bg-green-600"
    else NoActivityColor
  }

  /** The five levels are drawn in five different colours. */
  lemma LevelColorsDistinct(a: int, b: int)
    requires 0 <= a <= 4 && 0 <= b <= 4 && LevelColor(a) == LevelColor(b)
    ensures a == b
  {
  }

  // ---------------------------------------------------------------- 30-day total

  const ContributionTypes: seq<string> :=
    ["PushEvent", "CreateEvent", "IssuesEvent", "PullRequestEvent", "CommitCommentEvent"]

  function IsRecentContribution(now: int): Event -> bool {
    (e: Event) => e.createdAt >= now - 30 * DayMs && e.eventType in ContributionTypes
  }

  function RecentContributions(events: seq<Event>, now: int): (n: nat)
    ensures n <= |events|
  {
    Count(events, IsRecentContribution(now))
  }

  /** An event of another type, or older than 30 days, leaves the total unchanged; any other adds one. */
  lemma RecentContributionsStep(events: seq<Event>, e: Event, now: int)
    ensures RecentContributions(events + [e], now)
         == RecentContributions(events, now) + if IsRecentContribution(now)(e) then 1 else 0
  {
    FilterConcat(events, [e], IsRecentContribution(now));
  }

  // ---------------------------------------------------------------- the week strip

  /** An event counts towards the strip when it is no older than seven days. */
  function InLastWeek(now: int): Event -> bool {
    (e: Event) => e.createdAt >= now - 7 * DayMs
  }

  function OnDayInLastWeek(d: int, now: int): Event -> bool {
    (e: Event) => InLastWeek(now)(e) && Day(e.createdAt) == d
  }

  /** The number of events of the last week dated `d`. */
  function CountOnDay(events: seq<Event>, d: int, now: int): nat {
    Count(events, OnDayInLastWeek(d, now))
  }

  /** Each event of the last week adds exactly one to its own day, whatever its type. */
  lemma CountOnDayStep(events: seq<Event>, e: Event, d: int, now: int)
    ensures CountOnDay(events + [e], d, now)
         == CountOnDay(events, d, now) + if InLastWeek(now)(e) && Day(e.createdAt) == d then 1 else 0
  {
    FilterConcat(events, [e], OnDayInLastWeek(d, now));
  }

  /** `contributionMap`: a counter per day, created at its first event. */
  method BuildContributionMap(events: seq<Event>, now: int) returns (m: map<int, nat>)
    ensures forall d :: d in m ==> m[d] == CountOnDay(events, d, now) && m[d] > 0
    ensures forall d :: d !in m ==> CountOnDay(events, d, now) == 0
  {
    m := map[];
    var i := 0;
    while i < |events|
      invariant 0 <= i <= |events|
      invariant forall d :: d in m ==> m[d] == CountOnDay(events[..i], d, now) && m[d] > 0
      invariant forall d :: d !in m ==> CountOnDay(events[..i], d, now) == 0
    {
      var e := events[i];
      assert events[..i + 1] == events[..i] + [e];
      forall d ensures CountOnDay(events[..i + 1], d, now)
                    == CountOnDay(events[..i], d, now) + if InLastWeek(now)(e) && Day(e.createdAt) == d then 1 else 0 {
        CountOnDayStep(events[..i], e, d, now);
      }
      if e.createdAt >= now - 7 * DayMs {
        var key := Day(e.createdAt);
        var old_count := if key in m then m[key] else 0;
        m := m[key := old_count + 1];
      }
      i := i + 1;
    }
    assert events[..i] == events;
  }

  datatype ContributionDay = ContributionDay(day: int, count: nat, level: nat)

  /** The day six days before today, the first of the strip. */
  function FirstShownDay(now: int): int {
    Day(now) - 6
  }

  /** `days`: seven entries, six days ago first and today last, absent days counting 0. */
  method BuildDays(m: map<int, nat>, now: int) returns (days: seq<ContributionDay>)
    ensures |days| == 7
    ensures forall k :: 0 <= k < 7 ==>
      days[k].day == FirstShownDay(now) + k
      && days[k].count == (if days[k].day in m then m[days[k].day] else 0)
      && days[k].level == ContributionLevel(days[k].count)
  {
    days := [];
    var i := 6;
    while i >= 0
      invariant -1 <= i <= 6
      invariant |days| == 6 - i
      invariant forall k :: 0 <= k < |days| ==>
        days[k].day == FirstShownDay(now) + k
        && days[k].count == (if days[k].day in m then m[days[k].day] else 0)
        && days[k].level == ContributionLevel(days[k].count)
    {
      var date := Day(now - i * DayMs);
      assert date == Day(now) - i by {
        DayShift(now, i);
      }
      var count := if date in m then m[date] else 0;
      days := days + [ContributionDay(date, count, ContributionLevel(count))];
      i := i - 1;
    }
  }

  /** Going back `i` whole days moves the day number back by `i`. */
  lemma DayShift(t: int, i: nat)
    ensures Day(t - i * DayMs) == Day(t) - i
  {
    var q, r := t / DayMs, t % DayMs;
    assert t - i * DayMs == (q - i) * DayMs + r;
  }

  /** Every event dated on one of the seven shown days lies in the counting window. */
  lemma ShownDaysInsideWindow(events: seq<Event>, k: nat, now: int)
    requires k < 7
    ensures CountOnDay(events, FirstShownDay(now) + k, now)
         == Count(events, (e: Event) => Day(e.createdAt) == FirstShownDay(now) + k)
  {
    var d := FirstShownDay(now) + k;
    forall e | e in events ensures OnDayInLastWeek(d, now)(e) <==> Day(e.createdAt) == d {
      if Day(e.createdAt) == d {
        var today, day := Day(now), Day(e.createdAt);
        DayStart(e.createdAt);
        DayStart(now);
        assert day * DayMs == (today - 6) * DayMs + k * DayMs;
        assert (today - 6) * DayMs == today * DayMs - 6 * DayMs;
        assert e.createdAt >= today * DayMs - 6 * DayMs;
        assert now - 7 * DayMs < today * DayMs - 6 * DayMs;
        assert InLastWeek(now)(e);
      }
    }
    FilterExtensional(events, OnDayInLastWeek(d, now), (e: Event) => Day(e.createdAt) == d);
  }

  lemma DayStart(t: int)
    ensures Day(t) * DayMs <= t < Day(t) * DayMs + DayMs
  {
  }

  /** The fallback strip: the same seven days, with the random counts `0 .. 9` supplied by the caller. */
  function MockDays(now: int, counts: seq<nat>): (days: seq<ContributionDay>)
    requires |counts| == 7
    ensures |days| == 7
    ensures forall k :: 0 <= k < 7 ==> days[k].day == FirstShownDay(now) + k && days[k].count == counts[k]
    ensures forall k :: 0 <= k < 7 ==> days[k].level == ContributionLevel(days[k].count)
  {
    seq(7, k requires 0 <= k < 7 => ContributionDay(FirstShownDay(now) + k, counts[k], ContributionLevel(counts[k])))
  }

  // ---------------------------------------------------------------- the card

  /** What one run of `fetchGitHubData` meets. */
  datatype FetchOutcome =
    | UserRequestFailed(status: int)
    | EventsRequestFailed(status: int)
    | Threw(message: Option<string>)   // an `Error` with its message, or a non-`Error` value
    | Fetched(publicRepos: int, followers: int, events: seq<Event>)

  const UserErrorPrefix: string := "GitHub API error: "
  const EventsErrorPrefix: string := "GitHub Events API error: "
  const GenericError: string := "Failed to fetch GitHub data"

  /**
   * The error shown: the status of the failed request after its own prefix,
   * a thrown `Error`'s own message, or the generic text for anything else thrown.
   */
  function ErrorMessage(outcome: FetchOutcome): (msg: string)
    requires !outcome.Fetched?
    ensures outcome.UserRequestFailed? ==> msg == UserErrorPrefix + IntToString(outcome.status)
    ensures outcome.EventsRequestFailed? ==> msg == EventsErrorPrefix + IntToString(outcome.status)
    ensures outcome.Threw? && outcome.message.Some? ==> msg == outcome.message.value
    ensures outcome.Threw? && outcome.message.None? ==> msg == GenericError
  {
    match outcome
    case UserRequestFailed(status) => UserErrorPrefix + IntToString(status)
    case EventsRequestFailed(status) => EventsErrorPrefix + IntToString(status)
    case Threw(message) => message.GetOr(GenericError)
  }

  /**
   * The two status messages tell the failed request and its status apart:
   * equal messages come from the same request failing with the same status.
   */
  lemma ErrorMessageNamesStatus(o1: FetchOutcome, o2: FetchOutcome)
    requires o1.UserRequestFailed? || o1.EventsRequestFailed?
    requires o2.UserRequestFailed? || o2.EventsRequestFailed?
    requires ErrorMessage(o1) == ErrorMessage(o2)
    ensures o1 == o2
  {
    var p1 := if o1.UserRequestFailed? then UserErrorPrefix else EventsErrorPrefix;
    var p2 := if o2.UserRequestFailed? then UserErrorPrefix else EventsErrorPrefix;
    PrefixesDiffer();
    PrefixedAt(p1, IntToString(o1.status));
    PrefixedAt(p2, IntToString(o2.status));
    assert o1.UserRequestFailed? == o2.UserRequestFailed?;
    IntToStringInjective(o1.status, o2.status);
  }

  /** The two status prefixes part at their eighth character: `A` of `API` and `E` of `Events`. */
  lemma PrefixesDiffer()
    ensures |UserErrorPrefix| > 7 && |EventsErrorPrefix| > 7
    ensures UserErrorPrefix[7] == 'A' && EventsErrorPrefix[7] == 'E'
  {
  }

  /** A prefixed string shows its prefix's eighth character and, after the prefix, the rest. */
  lemma PrefixedAt(p: string, t: string)
    requires |p| > 7
    ensures (p + t)[7] == p[7]
    ensures (p + t)[|p|..] == t
  {
  }

  class ActivityCard {
    var contributions: int
    var repositories: int
    var followers: int
    var isLoading: bool
    var error: Option<string>
    var days: seq<ContributionDay>

    constructor ()
      ensures contributions == 0 && repositories == 0 && followers == 0
      ensures isLoading && error == None && days == []
    {
      contributions, repositories, followers := 0, 0, 0;
      isLoading := true;
      error := None;
      days := [];
    }

    /**
     * One refresh. An empty user name starts no fetch. A failure keeps the
     * previous counters, ends loading, records the message and shows the mock
     * strip built from `mockCounts`.
     */
    method Refresh(username: string, outcome: FetchOutcome, now: int, mockCounts: seq<nat>)
      requires |mockCounts| == 7
      modifies this
      ensures username == "" ==>
        contributions == old(contributions) && repositories == old(repositories) && followers == old(followers)
        && isLoading == old(isLoading) && error == old(error) && days == old(days)
      ensures username != "" && !outcome.Fetched? ==>
        contributions == old(contributions) && repositories == old(repositories) && followers == old(followers)
        && !isLoading && error == Some(ErrorMessage(outcome)) && days == MockDays(now, mockCounts)
      ensures username != "" && outcome.Fetched? ==>
        contributions == RecentContributions(outcome.events, now)
        && repositories == outcome.publicRepos && followers == outcome.followers
        && !isLoading && error == None
        && |days| == 7
        && forall k :: 0 <= k < 7 ==>
             days[k].day == FirstShownDay(now) + k
             && days[k].count == CountOnDay(outcome.events, days[k].day, now)
             && days[k].level == ContributionLevel(days[k].count)
    {
      if username == "" {
        return;
      }
      isLoading, error := true, None;
      match outcome {
        case Fetched(publicRepos, followerCount, events) =>
          var m := BuildContributionMap(events, now);
          var strip := BuildDays(m, now);
          contributions := RecentContributions(events, now);
          repositories, followers := publicRepos, followerCount;
          isLoading, error := false, None;
          days := strip;
        case _ =>
          isLoading := false;
          error := Some(ErrorMessage(outcome));
          days := MockDays(now, mockCounts);
      }
    }
  }
}
