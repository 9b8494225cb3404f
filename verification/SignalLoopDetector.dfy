/** The throttle on signals that keep being rejected, against the whole history of outcomes. */
module LoopDetection {
  import opened Prelude

  datatype Streak = Streak(count: int, reason: string, lastAt: int)

  datatype Event =
    | Recorded(key: string, reason: Option<string>, at: int)  // reason None: the submission succeeded
    | Asked(key: string, at: int)
    | Cleared(at: int)

  datatype Config = Config(maxRepeats: int, forgetAfterMs: int)

  // ----- what the detector keeps -----

  predicate Expired(c: Config, s: Streak, now: int) {
    now - s.lastAt >= c.forgetAfterMs
  }

  function Pruned(c: Config, m: map<string, Streak>, now: int): map<string, Streak> {
    map k | k in m && !Expired(c, m[k], now) :: m[k]
  }

  function Noted(c: Config, m: map<string, Streak>, key: string, reason: Option<string>, now: int): map<string, Streak> {
    if reason == None then m - {key}
    else
      var live := Pruned(c, m, now);
      if key !in live || live[key].reason != reason.value || Expired(c, live[key], now)
      then live[key := Streak(1, reason.value, now)]
      else live[key := Streak(live[key].count + 1, reason.value, now)]
  }

  /** A query forgets an expired streak. */
  function Forgotten(c: Config, m: map<string, Streak>, key: string, now: int): map<string, Streak> {
    if key in m && Expired(c, m[key], now) then m - {key} else m
  }

  predicate Suppressed(c: Config, m: map<string, Streak>, key: string, now: int) {
    key in m && !Expired(c, m[key], now) && m[key].count >= c.maxRepeats
  }

  function Kept(c: Config, log: seq<Event>): map<string, Streak> {
    if log == [] then map[]
    else
      var m := Kept(c, log[..|log| - 1]);
      match log[|log| - 1]
      case Recorded(key, reason, at) => Noted(c, m, key, reason, at)
      case Asked(key, at) => Forgotten(c, m, key, at)
      case Cleared(at) => map[]
  }

  // ----- the whole history -----

  datatype Outcome = Outcome(reason: Option<string>, at: int)

  /** Every outcome ever recorded for the key; clearing the detector counts as a success of every key. */
  function History(log: seq<Event>, key: string): seq<Outcome> {
    if log == [] then []
    else
      var rest := History(log[..|log| - 1], key);
      match log[|log| - 1]
      case Recorded(k, reason, at) => if k == key then rest + [Outcome(reason, at)] else rest
      case Asked(_, _) => rest
      case Cleared(at) => rest + [Outcome(None, at)]
  }

  /** Consecutive rejections for one reason, each soon enough after the one before. */
  ghost predicate IsStreak(c: Config, h: seq<Outcome>) {
    && (forall i :: 0 <= i < |h| ==> h[i].reason.Some?)
    && (forall i :: 0 < i < |h| ==> h[i].reason == h[i - 1].reason && h[i].at - h[i - 1].at < c.forgetAfterMs)
  }

  /** The detector's documented answer: the last maxRepeats outcomes form a streak that has not aged out. */
  ghost predicate Loops(c: Config, h: seq<Outcome>, now: int)
    requires c.maxRepeats >= 1
  {
    && |h| >= c.maxRepeats
    && IsStreak(c, h[|h| - c.maxRepeats..])
    && now - h[|h| - 1].at < c.forgetAfterMs
  }

  /** Length of the longest streak at the end of the history. */
  function Trailing(c: Config, h: seq<Outcome>): nat {
    if h == [] || h[|h| - 1].reason == None then 0
    else if |h| == 1 || h[|h| - 2].reason != h[|h| - 1].reason || h[|h| - 1].at - h[|h| - 2].at >= c.forgetAfterMs then 1
    else 1 + Trailing(c, h[..|h| - 1])
  }

  lemma StreakGrows(c: Config, h: seq<Outcome>, o: Outcome)
    requires h != []
    ensures IsStreak(c, h + [o]) <==>
      IsStreak(c, h) && o.reason.Some? && o.reason == h[|h| - 1].reason && o.at - h[|h| - 1].at < c.forgetAfterMs
  {
    var r := h + [o];
    assert forall i :: 0 <= i < |h| ==> r[i] == h[i];
    assert r[|h|] == o;
  }

  predicate Continues(c: Config, h: seq<Outcome>)
    requires |h| >= 2
  {
    var o, before := h[|h| - 1], h[|h| - 2];
    o.reason.Some? && o.reason == before.reason && o.at - before.at < c.forgetAfterMs
  }

  lemma SuffixGrows(c: Config, h: seq<Outcome>, n: nat)
    requires 1 < n <= |h|
    ensures IsStreak(c, h[|h| - n..]) <==>
      IsStreak(c, h[..|h| - 1][|h| - n..]) && Continues(c, h)
  {
    var last := |h| - 1;
    var short := h[..last][|h| - n..];
    assert h[|h| - n..] == short + [h[last]] && short[|short| - 1] == h[last - 1];
    StreakGrows(c, short, h[last]);
  }

  lemma LastStreak(c: Config, h: seq<Outcome>)
    requires h != []
    ensures IsStreak(c, h[|h| - 1..]) <==> h[|h| - 1].reason.Some?
  {
    assert h[|h| - 1..] == [h[|h| - 1]];
  }

  lemma {:induction false} TrailingIsLongest(c: Config, h: seq<Outcome>, n: nat)
    requires n >= 1
    ensures Trailing(c, h) >= n <==> n <= |h| && IsStreak(c, h[|h| - n..])
  {
    hide IsStreak;
    if h != [] {
      LastStreak(c, h);
      if n > 1 {
        TrailingIsLongest(c, h[..|h| - 1], n - 1);
        if n <= |h| {
          SuffixGrows(c, h, n);
        }
      }
    }
  }

  ghost predicate Monotone(log: seq<Event>) {
    forall i, j :: 0 <= i < j < |log| ==> log[i].at <= log[j].at
  }

  /** A kept streak is the trailing streak; a key without one has none that is still young at time now. */
  ghost predicate Faithful(c: Config, m: map<string, Streak>, key: string, h: seq<Outcome>, now: int) {
    if key in m then
      && h != [] && h[|h| - 1] == Outcome(Some(m[key].reason), m[key].lastAt)
      && m[key].lastAt <= now && m[key].count == Trailing(c, h)
    else
      h == [] || h[|h| - 1].reason == None || now - h[|h| - 1].at >= c.forgetAfterMs
  }

  lemma FaithfulLater(c: Config, m: map<string, Streak>, key: string, h: seq<Outcome>, now: int, t: int)
    requires Faithful(c, m, key, h, now) && now <= t
    ensures Faithful(c, m, key, h, t)
  {
  }

  lemma NotedIsFaithful(c: Config, m: map<string, Streak>, key: string, reason: Option<string>, at: int, k: string, h: seq<Outcome>)
    requires Faithful(c, m, k, h, at)
    ensures Faithful(c, Noted(c, m, key, reason, at), k, if k == key then h + [Outcome(reason, at)] else h, at)
  {
    if k == key && reason.Some? && h != [] {
      var longer := h + [Outcome(reason, at)];
      assert longer[..|h|] == h;
    }
  }

  lemma {:induction false} KeptIsFaithful(c: Config, log: seq<Event>, key: string, now: int)
    requires Monotone(log) && (log != [] ==> log[|log| - 1].at <= now)
    ensures Faithful(c, Kept(c, log), key, History(log, key), now)
  {
    if log != [] {
      var n := |log| - 1;
      KeptIsFaithful(c, log[..n], key, log[n].at);
      if log[n].Recorded? {
        NotedIsFaithful(c, Kept(c, log[..n]), log[n].key, log[n].reason, log[n].at, key, History(log[..n], key));
      }
      FaithfulLater(c, Kept(c, log), key, History(log, key), log[n].at, now);
    }
  }

  /** The bounded detector answers as a function of the unbounded history: neither pruning on writes nor
      deleting on reads ever changes an answer. */
  lemma AnswerIsTheHistory(c: Config, log: seq<Event>, key: string, now: int)
    requires c.maxRepeats >= 1 && Monotone(log) && (log != [] ==> log[|log| - 1].at <= now)
    ensures Suppressed(c, Kept(c, log), key, now) <==> Loops(c, History(log, key), now)
  {
    hide Kept, History, IsStreak;
    KeptIsFaithful(c, log, key, now);
    TrailingIsLongest(c, History(log, key), c.maxRepeats);
  }

  /** A suppression always lifts by itself: forgetAfterMs after this key's last outcome it is gone, whatever
      has been recorded or asked about other keys meanwhile. */
  lemma SuppressionExpires(c: Config, log: seq<Event>, key: string, now: int)
    requires Monotone(log) && (log != [] ==> log[|log| - 1].at <= now)
    requires var h := History(log, key); h == [] || h[|h| - 1].at + c.forgetAfterMs <= now
    ensures !Suppressed(c, Kept(c, log), key, now)
  {
    KeptIsFaithful(c, log, key, now);
  }

  /** Memory stays bounded: after a rejection is recorded only streaks that are still young are tracked. */
  lemma OnlyYoungTracked(c: Config, m: map<string, Streak>, key: string, reason: string, now: int)
    ensures var r := Noted(c, m, key, Some(reason), now); forall k :: k in r && k != key ==> !Expired(c, r[k], now)
  {
  }

  // ----- the detector -----

  class SignalLoopDetector {
    const config: Config
    var repeats: map<string, Streak>

    constructor (maxRepeats: int, forgetAfterMs: int)
      ensures config == Config(maxRepeats, forgetAfterMs) && repeats == map[]
    {
      config := Config(maxRepeats, forgetAfterMs);
      repeats := map[];
    }

    method IsLooping(key: string, now: int) returns (r: bool)
      modifies this
      ensures r == Suppressed(config, old(repeats), key, now)
      ensures repeats == Forgotten(config, old(repeats), key, now)
    {
      if key !in repeats {
        return false;
      }
      if now - repeats[key].lastAt >= config.forgetAfterMs {
        repeats := repeats - {key};
        return false;
      }
      r := repeats[key].count >= config.maxRepeats;
    }

    /** The count and reason the caller is shown, when the signal is suppressed. */
    method ReasonFor(key: string, now: int) returns (r: Option<(int, string)>)
      modifies this
      ensures r.Some? <==> Suppressed(config, old(repeats), key, now)
      ensures r.Some? ==> r.value == (old(repeats)[key].count, old(repeats)[key].reason)
      ensures repeats == Forgotten(config, old(repeats), key, now)
    {
      var looping := IsLooping(key, now);
      r := if looping then Some((repeats[key].count, repeats[key].reason)) else None;
    }

    method Record(key: string, reason: Option<string>, now: int)
      modifies this
      ensures repeats == Noted(config, old(repeats), key, reason, now)
    {
      if reason == None {
        repeats := repeats - {key};
        return;
      }
      PruneExpired(now);
      if key !in repeats || repeats[key].reason != reason.value || now - repeats[key].lastAt >= config.forgetAfterMs {
        repeats := repeats[key := Streak(1, reason.value, now)];
        return;
      }
      var entry := repeats[key];
      repeats := repeats[key := entry.(count := entry.count + 1, lastAt := now)];
    }

    method PruneExpired(now: int)
      modifies this
      ensures repeats == Pruned(config, old(repeats), now)
    {
      var todo := repeats.Keys;
      while todo != {}
        invariant todo <= repeats.Keys <= old(repeats).Keys
        invariant forall k :: k in repeats ==> repeats[k] == old(repeats)[k]
        invariant forall k :: k in repeats && k !in todo ==> !Expired(config, repeats[k], now)
        invariant forall k :: k in old(repeats) && k !in repeats ==> Expired(config, old(repeats)[k], now)
        decreases |todo|
      {
        var k :| k in todo;
        if now - repeats[k].lastAt >= config.forgetAfterMs {
          repeats := repeats - {k};
        }
        todo := todo - {k};
      }
    }

    method Size() returns (n: nat)
      ensures n == |repeats|
    {
      n := |repeats|;
    }

    method Reset()
      modifies this
      ensures repeats == map[]
    {
      repeats := map[];
    }
  }
}
