/**
 The sliding-window rate limiter. Every call with a positive limit records its own timestamp in the
 sorted set of its (user, server) key, denied calls too, and is admitted when the set then holds at
 most as many timestamps as its limit.

 A call carries two clock readings: the stamp from the clock of the caller, which is the score, and
 the time on the Redis server's clock, which governs expiry of the key.
 */
module RateLimit {
  import opened Wrappers
  import opened Keys
  import opened Redis
  import opened Doubles

  const KEY_TTL := RATE_LIMIT_WINDOW + 5 * SECOND

  /** What Allow answers: Count is the number of timestamps recorded in the current window. */
  datatype Outcome = Outcome(allowed: bool, count: int, limit: int) {
    function Remaining(): (r: int)
      ensures r >= 0
      ensures allowed && count <= limit ==> count + r == limit
      ensures count >= limit ==> r == 0
    {
      if limit - count < 0 then 0 else limit - count
    }
  }

  /** A call that reached the script, with the limit its caller applied. */
  datatype Call = Call(stamp: Nanos, at: int, limit: int)

  function Recorded(key: string, c: Call): Command {
    Slide(key, c.stamp, c.stamp - RATE_LIMIT_WINDOW, KEY_TTL, c.at)
  }

  function Script(key: string, calls: seq<Call>): (r: seq<Command>)
    ensures |r| == |calls|
  {
    if calls == [] then [] else Script(key, calls[..|calls| - 1]) + [Recorded(key, Last(calls))]
  }

  /** The window after the script is what the script counts. */
  lemma RecordedWindow(s: Store, key: string, c: Call)
    requires !WrongType(s, key, c.at)
    ensures Window(Exec(s, Recorded(key, c)), key, c.at) ==
      Prune(Window(s, key, c.at), c.stamp - RATE_LIMIT_WINDOW) + {c.stamp}
  {
    var after := Exec(s, Recorded(key, c));
    assert key in after && c.at <= after[key].expires;
  }

  class Limiter {
    const redis: Server

    constructor (redis: Server)
      ensures this.redis == redis
    {
      this.redis := redis;
    }

    method Allow(user: string, server: string, limit: int, stamp: Nanos, at: int, link: Link)
      returns (r: Outcome, failed: bool)
      requires redis.Valid()
      modifies redis
      ensures redis.Valid()
      ensures limit <= 0 ==> r == Outcome(false, 0, limit) && !failed && redis.log == old(redis.log)
      ensures limit > 0 ==>
        redis.log == if link.Refused? then old(redis.log)
          else old(redis.log) + [Recorded(RateLimitKey(user, server), Call(stamp, at, limit))]
      ensures limit > 0 && failed ==> r == Outcome(false, 0, limit)
      ensures limit > 0 ==>
        (failed <==> !link.Healthy? || WrongType(old(redis.store), RateLimitKey(user, server), at))
      ensures limit > 0 && !failed ==>
        var key := RateLimitKey(user, server);
        var stamps := Prune(Window(old(redis.store), key, at), stamp - RATE_LIMIT_WINDOW) + {stamp};
        && Window(redis.store, key, at) == stamps
        && r == Outcome(|stamps| <= limit, |stamps|, limit)
    {
      if limit <= 0 {
        return Outcome(false, 0, limit), false;
      }
      var key := RateLimitKey(user, server);
      var cutoff := stamp - RATE_LIMIT_WINDOW;
      ghost var before, log, call := redis.store, redis.log, Call(stamp, at, limit);
      var reply := redis.SlidingWindow(key, stamp, cutoff, KEY_TTL, at, link);
      if reply.Ok? {
        ExecSnoc(log, Recorded(key, call));
        RecordedWindow(before, key, call);
      }
      match reply
      case Err(_) =>
        return Outcome(false, 0, limit), true;
      case Ok(count) =>
        return Outcome(count <= limit, count, limit), false;
    }
  }

  // ---------------------------------------------------------------- the set a history leaves

  function Last(calls: seq<Call>): Call
    requires calls != []
  {
    calls[|calls| - 1]
  }

  /** Whether the key has been dropped by the time the last call of the history arrives. */
  predicate Dropped(calls: seq<Call>)
    requires calls != []
  {
    |calls| > 1 && calls[|calls| - 2].at + KEY_TTL < Last(calls).at
  }

  /** The members of the sorted set after a history of calls on its key. */
  function Recent(calls: seq<Call>): set<Nanos> {
    if calls == [] then {}
    else
      var before := if Dropped(calls) then {} else Recent(calls[..|calls| - 1]);
      Prune(before, Last(calls).stamp - RATE_LIMIT_WINDOW) + {Last(calls).stamp}
  }

  predicate Admitted(calls: seq<Call>, i: int)
    requires 0 <= i < |calls|
  {
    |Recent(calls[..i + 1])| <= calls[i].limit
  }

  function Left(key: string, calls: seq<Call>): Store {
    if calls == [] then map[] else map[key := Entry(Stamps(Recent(calls)), Last(calls).at + KEY_TTL)]
  }

  lemma RecordedLeaves(key: string, calls: seq<Call>)
    requires calls != []
    ensures Exec(Left(key, calls[..|calls| - 1]), Recorded(key, Last(calls))) == Left(key, calls)
  {
    var s := Left(key, calls[..|calls| - 1]);
    assert !WrongType(s, key, Last(calls).at);
    assert Window(s, key, Last(calls).at) == if Dropped(calls) then {} else Recent(calls[..|calls| - 1]);
  }

  lemma {:induction false} ScriptLeaves(key: string, calls: seq<Call>)
    ensures ExecAll(Script(key, calls)) == Left(key, calls)
  {
    if calls != [] {
      var front, last := calls[..|calls| - 1], Last(calls);
      ScriptLeaves(key, front);
      ExecSnoc(Script(key, front), Recorded(key, last));
      RecordedLeaves(key, calls);
    }
  }

  /**
   In any history of the shared Redis in which only the limiter addresses a key, the key holds
   exactly Recent of the limiter's calls on it: other commands and other keys do not matter, the
   script never meets a key of the wrong type, and the count that Allow compares is |Recent|.
   */
  lemma StoreHoldsRecent(log: seq<Command>, key: string, calls: seq<Call>, at: int)
    requires On(log, key) == Script(key, calls)
    ensures !WrongType(ExecAll(log), key, at)
    ensures calls != [] && at == Last(calls).at ==> Window(ExecAll(log), key, at) == Recent(calls)
  {
    Projection(log, key);
    ScriptLeaves(key, calls);
  }

  // ---------------------------------------------------------------- assumptions on the clocks

  /** The Redis clock does not run backwards. */
  ghost predicate Chronological(calls: seq<Call>) {
    forall i, j :: 0 <= i < j < |calls| ==> calls[i].at <= calls[j].at
  }

  /** No two of these calls carry the same stamp. */
  ghost predicate DistinctAmong(calls: seq<Call>, indices: set<nat>) {
    forall i, j :: i in indices && j in indices && i < j < |calls| ==> calls[i].stamp != calls[j].stamp
  }

  /** A call processed later carries a stamp at most delta earlier. */
  ghost predicate SkewAtMost(calls: seq<Call>, delta: int) {
    forall i, j :: 0 <= i < j < |calls| ==> calls[i].stamp <= calls[j].stamp + delta
  }

  /** Between two calls the Redis clock advances at most slack more than the stamps do. */
  ghost predicate DriftAtMost(calls: seq<Call>, slack: int) {
    forall i, j :: 0 <= i < j < |calls| ==>
      calls[j].at - calls[i].at <= calls[j].stamp - calls[i].stamp + slack
  }

  /**
   The most drift that expiry tolerates: a key that holds a stamp still in the window was touched
   less than this, and the window, ago on the Redis clock.
   */
  const GRACE := KEY_TTL - RATE_LIMIT_WINDOW + 1

  ghost predicate Increasing(calls: seq<Call>) {
    forall i, j :: 0 <= i < j < |calls| ==> calls[i].stamp < calls[j].stamp
  }

  // ---------------------------------------------------------------- bounded admissions

  lemma SurvivesCall(calls: seq<Call>, t: Nanos)
    requires calls != [] && !Dropped(calls) && t in Recent(calls[..|calls| - 1])
    requires Score(t) > Score(Last(calls).stamp - RATE_LIMIT_WINDOW)
    ensures t in Recent(calls)
  {
  }

  lemma NotDropped(calls: seq<Call>, i: int, k: int)
    requires 0 <= i < k < |calls|
    requires Chronological(calls) && calls[k].at - calls[i].at <= KEY_TTL
    ensures !Dropped(calls[..k + 1])
  {
    assert i < k - 1 ==> calls[i].at <= calls[k - 1].at;
  }

  /**
   A recorded stamp stays until a call whose window it has left, as long as the key was touched
   within its expiry.
   */
  lemma {:induction false} Retained(calls: seq<Call>, i: int, k: int)
    requires 0 <= i <= k < |calls|
    requires Chronological(calls) && calls[k].at - calls[i].at <= KEY_TTL
    requires forall j :: i < j <= k ==> Score(calls[i].stamp) > Score(calls[j].stamp - RATE_LIMIT_WINDOW)
    ensures calls[i].stamp in Recent(calls[..k + 1])
  {
    var history := calls[..k + 1];
    if i < k {
      assert calls[k - 1].at <= calls[k].at;
      Retained(calls, i, k - 1);
      assert history[..k] == calls[..k];
      NotDropped(calls, i, k);
      SurvivesCall(history, calls[i].stamp);
    }
  }

  /** Distinct stamps that are all members of a set are at most as many as its members. */
  lemma {:induction false} FitsIn(calls: seq<Call>, indices: set<nat>, stamps: set<Nanos>)
    requires DistinctAmong(calls, indices)
    requires forall i :: i in indices ==> i < |calls| && calls[i].stamp in stamps
    ensures |indices| <= |stamps|
  {
    if |indices| != 0 {
      var i :| i in indices;
      forall k | k in indices - {i} ensures calls[k].stamp in stamps - {calls[i].stamp} {
        assert k < i || i < k;
      }
      FitsIn(calls, indices - {i}, stamps - {calls[i].stamp});
    }
  }

  /** The interval is short enough for the window, under the skew, and for the expiry, under the drift. */
  predicate Narrow(width: int, delta: int, slack: int) {
    width <= RATE_LIMIT_WINDOW - delta - TOLERANCE && width <= KEY_TTL - slack
  }

  lemma StaysRecent(calls: seq<Call>, delta: nat, slack: int, from: int, width: int, i: nat, last: nat)
    requires i <= last < |calls|
    requires Chronological(calls) && SkewAtMost(calls, delta) && DriftAtMost(calls, slack)
    requires Narrow(width, delta, slack)
    requires from < calls[i].stamp && calls[last].stamp <= from + width
    ensures calls[i].stamp in Recent(calls[..last + 1])
  {
    forall j | i < j <= last ensures Score(calls[i].stamp) > Score(calls[j].stamp - RATE_LIMIT_WINDOW) {
      assert j < last ==> calls[j].stamp <= calls[last].stamp + delta;
      ScoreOrder(calls[i].stamp, calls[j].stamp - RATE_LIMIT_WINDOW);
    }
    assert i < last ==> calls[last].at - calls[i].at <= calls[last].stamp - calls[i].stamp + slack;
    Retained(calls, i, last);
  }

  /**
   For every skew and every drift: take any admitted calls with distinct stamps in an interval
   shorter than the window by the skew and the rounding of scores, and than the expiry by the drift.
   There are at most as many as the limit of the one processed last, whatever limits the others had,
   however many calls were denied in between, and although the key may expire.
   */
  lemma AdmissionsBounded(calls: seq<Call>, delta: nat, slack: int, from: int, width: int,
                          admitted: set<nat>, last: nat)
    requires Chronological(calls) && SkewAtMost(calls, delta) && DriftAtMost(calls, slack)
    requires Narrow(width, delta, slack)
    requires DistinctAmong(calls, admitted)
    requires forall i :: i in admitted ==> i < |calls| && Admitted(calls, i)
    requires forall i :: i in admitted ==> from < calls[i].stamp <= from + width
    requires last in admitted && forall i :: i in admitted ==> i <= last
    ensures |admitted| <= calls[last].limit
  {
    var recent := Recent(calls[..last + 1]);
    forall i | i in admitted ensures calls[i].stamp in recent {
      StaysRecent(calls, delta, slack, from, width, i, last);
    }
    FitsIn(calls, admitted, recent);
  }

  /**
   When the Redis clock is never further from a caller's than the skew and five seconds, the interval
   need only be shorter by the skew and the rounding, for every skew.
   */
  lemma WindowLessSkewIsNarrow(delta: nat)
    ensures Narrow(60 * SECOND - delta - 1024, delta, delta + 5 * SECOND)
  {
  }

  /** Calls with one and the same stamp take a single slot, so a limit of one admits both. */
  lemma EqualStampsShareASlot(stamp: Nanos, at: Nanos)
    ensures Admitted([Call(stamp, at, 1), Call(stamp, at, 1)], 1)
  {
    var calls := [Call(stamp, at, 1), Call(stamp, at, 1)];
    assert calls[..2] == calls && calls[..1] == [calls[0]] && calls[..0] == [];
    assert Recent(calls[..1]) == {stamp};
    assert Recent(calls) == {stamp};
  }

  // ---------------------------------------------------------------- expiry is invisible

  /** The set as it would be if keys never expired. */
  function RecentForever(calls: seq<Call>): set<Nanos> {
    if calls == [] then {}
    else
      Prune(RecentForever(calls[..|calls| - 1]), Last(calls).stamp - RATE_LIMIT_WINDOW) + {Last(calls).stamp}
  }

  lemma {:induction false} MembersWereStamped(calls: seq<Call>, t: Nanos) returns (i: nat)
    requires t in RecentForever(calls)
    ensures i < |calls| && calls[i].stamp == t
  {
    if t == Last(calls).stamp {
      i := |calls| - 1;
    } else {
      i := MembersWereStamped(calls[..|calls| - 1], t);
    }
  }

  /** While the drift stays within the grace, a key that expires loses only what the next call would have pruned. */
  lemma {:induction false} ExpiryInvisible(calls: seq<Call>)
    requires Chronological(calls) && DriftAtMost(calls, GRACE)
    ensures Recent(calls) == RecentForever(calls)
  {
    if calls != [] {
      var front := calls[..|calls| - 1];
      ExpiryInvisible(front);
      if Dropped(calls) {
        forall t | t in RecentForever(front) ensures Score(t) <= Score(Last(calls).stamp - RATE_LIMIT_WINDOW) {
          var i := MembersWereStamped(front, t);
          assert calls[i].at <= calls[|calls| - 2].at;
          ScoreMonotone(t, Last(calls).stamp - RATE_LIMIT_WINDOW);
        }
      }
    }
  }

  lemma TwoCalls(a: Call, b: Call)
    ensures Recent([a, b]) ==
      (if a.at + KEY_TTL < b.at then {} else Prune({a.stamp}, b.stamp - RATE_LIMIT_WINDOW)) + {b.stamp}
    ensures RecentForever([a, b]) == Prune({a.stamp}, b.stamp - RATE_LIMIT_WINDOW) + {b.stamp}
  {
    assert [a, b][..1] == [a] && [a][..0] == [];
    assert Recent([a]) == {a.stamp};
    assert RecentForever([a]) == {a.stamp};
  }

  /** With any more drift, a key can expire while its window is open, and a call over its limit is admitted. */
  lemma DriftBreaksExpiry(slack: int)
    requires slack > GRACE
    ensures var calls := [Call(0, 0, 1), Call(RATE_LIMIT_WINDOW - 1, RATE_LIMIT_WINDOW - 1 + slack, 1)];
      && Chronological(calls) && DriftAtMost(calls, slack)
      && |RecentForever(calls)| > calls[1].limit && Admitted(calls, 1)
  {
    var a, b := Call(0, 0, 1), Call(RATE_LIMIT_WINDOW - 1, RATE_LIMIT_WINDOW - 1 + slack, 1);
    TwoCalls(a, b);
    assert [a, b][..2] == [a, b];
    assert Score(0) > Score(0 - 1);
    assert a.stamp in RecentForever([a, b]) && b.stamp in RecentForever([a, b]) && a.stamp != b.stamp;
    assert |{a.stamp, b.stamp}| == 2 && {a.stamp, b.stamp} == RecentForever([a, b]);
  }

  /** The limiter behaves on every history as if keys never expired. */
  ghost predicate ExpiryUnseen(slack: int) {
    forall calls :: Chronological(calls) && DriftAtMost(calls, slack) ==> Recent(calls) == RecentForever(calls)
  }

  /** Expiry is invisible exactly up to the grace: five seconds and a nanosecond of drift. */
  lemma ExpiryUnseenExactly(slack: int)
    ensures ExpiryUnseen(slack) <==> slack <= GRACE
  {
    if slack <= GRACE {
      forall calls | Chronological(calls) && DriftAtMost(calls, slack) ensures Recent(calls) == RecentForever(calls) {
        ExpiryInvisible(calls);
      }
    } else {
      DriftBreaksExpiry(slack);
    }
  }

  // ---------------------------------------------------------------- exactness against the log

  /** The calls of the history that lie less than width before call i, call i included. */
  ghost function Logged(calls: seq<Call>, i: nat, width: int): set<nat>
    requires i < |calls|
  {
    set k: nat | k <= i && calls[k].stamp > calls[i].stamp - width
  }

  /** The calls up to call i whose score lies above the cutoff of call i, as the script compares them. */
  ghost function Scored(calls: seq<Call>, i: nat): set<nat>
    requires i < |calls|
  {
    set k: nat | k <= i && Score(calls[k].stamp) > Score(calls[i].stamp - RATE_LIMIT_WINDOW)
  }

  lemma {:induction false} RecentWasStamped(calls: seq<Call>, t: Nanos) returns (i: nat)
    requires t in Recent(calls)
    ensures i < |calls| && calls[i].stamp == t
    ensures Score(t) > Score(Last(calls).stamp - RATE_LIMIT_WINDOW) && t > Last(calls).stamp - RATE_LIMIT_WINDOW
  {
    ScoreMonotone(t, if t <= Last(calls).stamp - RATE_LIMIT_WINDOW then Last(calls).stamp - RATE_LIMIT_WINDOW else t);
    ScoreOrder(Last(calls).stamp, Last(calls).stamp - RATE_LIMIT_WINDOW);
    if t == Last(calls).stamp {
      i := |calls| - 1;
    } else {
      i := RecentWasStamped(calls[..|calls| - 1], t);
    }
  }

  lemma {:induction false} CoveredBy(calls: seq<Call>, stamps: set<Nanos>, indices: set<nat>)
    requires forall i :: i in indices ==> i < |calls|
    requires forall t :: t in stamps ==> exists i :: i in indices && calls[i].stamp == t
    ensures |stamps| <= |indices|
  {
    if |indices| != 0 {
      var i :| i in indices;
      var rest := stamps - {calls[i].stamp};
      forall t | t in rest ensures exists k :: k in indices - {i} && calls[k].stamp == t {
        var k :| k in indices && calls[k].stamp == t;
        assert k in indices - {i};
      }
      CoveredBy(calls, rest, indices - {i});
      assert stamps <= rest + {calls[i].stamp};
    }
  }

  lemma ScoredStays(calls: seq<Call>, i: nat, k: nat)
    requires k <= i < |calls|
    requires Increasing(calls) && Chronological(calls) && DriftAtMost(calls, GRACE)
    requires Score(calls[k].stamp) > Score(calls[i].stamp - RATE_LIMIT_WINDOW)
    ensures calls[k].stamp in Recent(calls[..i + 1])
  {
    ScoreMonotone(calls[k].stamp, if calls[k].stamp <= calls[i].stamp - RATE_LIMIT_WINDOW
                                  then calls[i].stamp - RATE_LIMIT_WINDOW else calls[k].stamp);
    forall j | k < j <= i ensures Score(calls[k].stamp) > Score(calls[j].stamp - RATE_LIMIT_WINDOW) {
      assert j < i ==> calls[j].stamp < calls[i].stamp;
      ScoreMonotone(calls[j].stamp - RATE_LIMIT_WINDOW, calls[i].stamp - RATE_LIMIT_WINDOW);
    }
    Retained(calls, k, i);
  }

  lemma ScoredAtMostRecent(calls: seq<Call>, i: nat)
    requires i < |calls|
    requires Increasing(calls) && Chronological(calls) && DriftAtMost(calls, GRACE)
    ensures |Scored(calls, i)| <= |Recent(calls[..i + 1])|
  {
    var scored, recent := Scored(calls, i), Recent(calls[..i + 1]);
    forall k | k in scored ensures calls[k].stamp in recent {
      ScoredStays(calls, i, k);
    }
    FitsIn(calls, scored, recent);
  }

  /** The count never exceeds the scored calls, whatever the clocks do. */
  lemma RecentAtMostScored(calls: seq<Call>, i: nat)
    requires i < |calls|
    ensures |Recent(calls[..i + 1])| <= |Scored(calls, i)|
  {
    var scored, recent := Scored(calls, i), Recent(calls[..i + 1]);
    forall t | t in recent ensures exists k :: k in scored && calls[k].stamp == t {
      var k := RecentWasStamped(calls[..i + 1], t);
      assert k in scored && calls[k].stamp == t;
    }
    CoveredBy(calls, recent, scored);
  }

  /**
   With increasing stamps the decision is exact against the full call log, denied calls included: a
   call is admitted if and only if the log holds at most the limit of scores above its cutoff. So a
   client that keeps calling above its limit keeps being denied.
   */
  lemma AdmittedExactly(calls: seq<Call>, i: nat)
    requires i < |calls|
    requires Increasing(calls) && Chronological(calls) && DriftAtMost(calls, GRACE)
    ensures Admitted(calls, i) <==> |Scored(calls, i)| <= calls[i].limit
  {
    ScoredAtMostRecent(calls, i);
    RecentAtMostScored(calls, i);
  }

  /** In nanoseconds: the scored calls lie between the window less the tolerance and the window. */
  lemma ScoredBetween(calls: seq<Call>, i: nat)
    requires i < |calls|
    ensures Logged(calls, i, RATE_LIMIT_WINDOW - TOLERANCE) <= Scored(calls, i) <= Logged(calls, i, RATE_LIMIT_WINDOW)
  {
    var cutoff := calls[i].stamp - RATE_LIMIT_WINDOW;
    forall k: nat | k <= i
      ensures calls[k].stamp > cutoff + TOLERANCE ==> Score(calls[k].stamp) > Score(cutoff)
      ensures Score(calls[k].stamp) > Score(cutoff) ==> calls[k].stamp > cutoff
    {
      if calls[k].stamp > cutoff + TOLERANCE {
        ScoreOrder(calls[k].stamp, cutoff);
      }
      if calls[k].stamp <= cutoff {
        ScoreMonotone(calls[k].stamp, cutoff);
      }
    }
  }

  lemma {:induction false} SubsetSize(a: set<nat>, b: set<nat>)
    requires a <= b
    ensures |a| <= |b|
  {
    assert b == a + (b - a);
  }

  lemma CountAtMostLogged(calls: seq<Call>, i: nat)
    requires i < |calls|
    ensures |Recent(calls[..i + 1])| <= |Logged(calls, i, RATE_LIMIT_WINDOW)|
  {
    RecentAtMostScored(calls, i);
    ScoredBetween(calls, i);
    SubsetSize(Scored(calls, i), Logged(calls, i, RATE_LIMIT_WINDOW));
  }

  /**
   A client that stays within its limit in the last minute is admitted. No assumption on clocks,
   skew, expiry or distinctness is needed.
   */
  lemma WithinLimitIsAdmitted(calls: seq<Call>, i: nat)
    requires i < |calls|
    requires |Logged(calls, i, RATE_LIMIT_WINDOW)| <= calls[i].limit
    ensures Admitted(calls, i)
  {
    CountAtMostLogged(calls, i);
  }

  lemma SilentMinuteIsAdmitted(calls: seq<Call>, i: nat)
    requires i < |calls| && calls[i].limit > 0
    requires forall k :: 0 <= k < i ==> calls[k].stamp <= calls[i].stamp - RATE_LIMIT_WINDOW
    ensures Admitted(calls, i)
  {
    assert Logged(calls, i, RATE_LIMIT_WINDOW) == {i};
    WithinLimitIsAdmitted(calls, i);
  }

  /** Admission implies that the limit held over the window less the tolerance. */
  lemma AdmittedMeansWithinLimit(calls: seq<Call>, i: nat)
    requires i < |calls|
    requires Increasing(calls) && Chronological(calls) && DriftAtMost(calls, GRACE)
    requires Admitted(calls, i)
    ensures |Logged(calls, i, RATE_LIMIT_WINDOW - TOLERANCE)| <= calls[i].limit
  {
    AdmittedExactly(calls, i);
    ScoredBetween(calls, i);
    SubsetSize(Logged(calls, i, RATE_LIMIT_WINDOW - TOLERANCE), Scored(calls, i));
  }

  // ---------------------------------------------------------------- what skew costs

  lemma {:induction false} PruneSize(stamps: set<Nanos>, cutoff: int)
    ensures |Prune(stamps, cutoff)| <= |stamps|
  {
    if stamps != {} {
      var t :| t in stamps;
      PruneSize(stamps - {t}, cutoff);
      assert Prune(stamps, cutoff) <= Prune(stamps - {t}, cutoff) + {t};
      assert Prune(stamps, cutoff) - {t} == Prune(stamps - {t}, cutoff);
    }
  }

  lemma GrowsByOne(calls: seq<Call>)
    requires calls != []
    ensures |Recent(calls)| <= |Recent(calls[..|calls| - 1])| + 1
  {
    var before := if Dropped(calls) then {} else Recent(calls[..|calls| - 1]);
    PruneSize(before, Last(calls).stamp - RATE_LIMIT_WINDOW);
  }

  lemma PrunesAll(calls: seq<Call>)
    requires calls != []
    requires forall k :: 0 <= k < |calls| - 1 ==> Score(calls[k].stamp) <= Score(Last(calls).stamp - RATE_LIMIT_WINDOW)
    ensures |Recent(calls)| <= 1
  {
    forall t | t in Recent(calls) ensures t == Last(calls).stamp {
      var k := RecentWasStamped(calls, t);
    }
    assert Recent(calls) == {Last(calls).stamp};
  }

  /** A call stamped a window ahead of all earlier ones, as scores compare, empties the set for the calls after it. */
  lemma AheadEmptiesWindow(calls: seq<Call>, ahead: nat, i: nat)
    requires ahead <= i < |calls|
    requires forall k :: 0 <= k < ahead ==> Score(calls[k].stamp) <= Score(calls[ahead].stamp - RATE_LIMIT_WINDOW)
    requires i - ahead + 1 <= calls[i].limit
    ensures Admitted(calls, i)
  {
    AheadBoundsCount(calls, ahead, i);
  }

  lemma {:induction false} AheadBoundsCount(calls: seq<Call>, ahead: nat, i: nat)
    requires ahead <= i < |calls|
    requires forall k :: 0 <= k < ahead ==> Score(calls[k].stamp) <= Score(calls[ahead].stamp - RATE_LIMIT_WINDOW)
    ensures |Recent(calls[..i + 1])| <= i - ahead + 1
  {
    var history := calls[..i + 1];
    if i == ahead {
      PrunesAll(history);
    } else {
      AheadBoundsCount(calls, ahead, i - 1);
      assert history[..i] == calls[..i];
      GrowsByOne(history);
    }
  }

  /** The score of last has left the window of a call stamped gap later. */
  predicate Leaves(limit: nat, delta: nat, last: Nanos, gap: nat) {
    && 1 <= limit <= last + 1 && delta < gap && last + gap + limit < INT64_BOUND
    && Score(last) <= Score(last + gap - RATE_LIMIT_WINDOW)
  }

  /**
   Calls on a key from two callers, one in time with Redis and one delta ahead of it: a burst of limit
   calls of the first ending at last, a single call of the second stamped gap later, and right after
   it limit - 1 more calls of the first.
   */
  function Straddling(limit: nat, delta: nat, last: Nanos, gap: nat): (calls: seq<Call>)
    requires Leaves(limit, delta, last, gap)
    ensures |calls| == 2 * limit
  {
    seq(2 * limit, i requires 0 <= i < 2 * limit =>
      if i < limit then Call(last - limit + 1 + i, last - limit + 1 + i, limit)
      else if i == limit then Call(last + gap, last + gap - delta, limit)
      else Call(last + gap - delta + i - limit - 1, last + gap - delta + i - limit - 1, limit))
  }

  /** Its skew and drift are at most delta, and the stamps of the first caller are distinct. */
  lemma StraddlingClocks(limit: nat, delta: nat, last: Nanos, gap: nat, indices: set<nat>)
    requires Leaves(limit, delta, last, gap)
    requires limit !in indices && forall i :: i in indices ==> i < 2 * limit
    ensures var calls := Straddling(limit, delta, last, gap);
      Chronological(calls) && SkewAtMost(calls, delta) && DriftAtMost(calls, delta) && DistinctAmong(calls, indices)
  {
  }

  /**
   Every call of that history is admitted, and all but the one ahead, almost twice the limit of them,
   lie in an interval longer than the gap less the skew by two nanoseconds for each call of the limit
   but one.
   */
  lemma StraddlingAdmitted(limit: nat, delta: nat, last: Nanos, gap: nat, i: nat)
    requires Leaves(limit, delta, last, gap) && i < 2 * limit
    ensures var calls := Straddling(limit, delta, last, gap);
      && calls[i].limit == limit && Admitted(calls, i)
      && (i != limit ==> last - limit < calls[i].stamp <= last - limit + gap - delta + 2 * (limit - 1))
  {
    var calls := Straddling(limit, delta, last, gap);
    if i >= limit {
      forall k | 0 <= k < limit ensures Score(calls[k].stamp) <= Score(calls[limit].stamp - RATE_LIMIT_WINDOW) {
        ScoreMonotone(calls[k].stamp, last);
      }
    }
    AheadEmptiesWindow(calls, if i < limit then 0 else limit, i);
  }

  /** At every instant a gap of a whole window serves: the loss of the skew is real for every skew. */
  lemma SkewLossIsReal(limit: nat, delta: nat, last: Nanos)
    requires 1 <= limit <= last + 1 && delta < RATE_LIMIT_WINDOW && last + RATE_LIMIT_WINDOW + limit < INT64_BOUND
    ensures Leaves(limit, delta, last, RATE_LIMIT_WINDOW)
  {
  }

  /**
   Late in the range a gap of the window less the tolerance serves: the rounding of scores is lost
   besides the skew, and no wider interval could be promised, but for those few nanoseconds.
   */
  lemma RoundingLossIsReal(limit: nat, delta: nat)
    requires 1 <= limit < 0x8000_0000 && delta < RATE_LIMIT_WINDOW - TOLERANCE
    ensures Leaves(limit, delta, COARSE + 512, RATE_LIMIT_WINDOW - TOLERANCE)
  {
    ToleranceIsExact();
  }

  /** Without skew the bound is exact: one nanosecond more, and a limit of one admits two calls. */
  lemma NarrowIsExact()
    ensures var from, width := COARSE + 511, RATE_LIMIT_WINDOW - TOLERANCE;
      var calls := [Call(from + 1, from + 1, 1), Call(from + width + 1, from + width + 1, 1)];
      && Narrow(width, 0, 0)
      && Chronological(calls) && SkewAtMost(calls, 0) && DriftAtMost(calls, 0) && Increasing(calls)
      && Admitted(calls, 0) && Admitted(calls, 1)
      && from < calls[0].stamp < calls[1].stamp <= from + width + 1
  {
    var from, width := COARSE + 511, RATE_LIMIT_WINDOW - TOLERANCE;
    var calls := [Call(from + 1, from + 1, 1), Call(from + width + 1, from + width + 1, 1)];
    ToleranceIsExact();
    AheadEmptiesWindow(calls, 0, 0);
    AheadEmptiesWindow(calls, 1, 1);
  }
}
