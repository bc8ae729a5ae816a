/** The fixed-window request limiter (internal/hub/rate_limit.go) and the purge of its
    table (internal/hub/worker.go). Times are nanoseconds; all Hub replicas share the table
    and time does not run backwards. */
module RateLimit {
  import opened Options
  import opened Sizes

  /** A request is counted under its scope, the digest of its key and its window. */
  datatype Key = Key(scope: string, digest: string, start: int)

  datatype Counter = Counter(count: nat, expires: int)

  const SECOND := 1_000_000_000

  /** time.Truncate: the start of the aligned window. */
  function Truncate(now: int, window: int): (start: int)
    requires window > 0
    ensures start <= now < start + window
  {
    now - now % window
  }

  /** The limit and the window of a scope. */
  datatype Rule = Rule(limit: nat, window: int)
  type Rules = string -> Rule

  ghost predicate Proper(rules: Rules) {
    forall s :: rules(s).window > 0
  }

  class Limiter {
    const rules: Rules
    var counters: map<Key, Counter>

    /** A counter has counted, and it is kept for two windows. */
    ghost predicate Valid()
      reads this
    {
      && Proper(rules)
      && forall k :: k in counters ==> counters[k].count > 0 && counters[k].expires == k.start + 2 * rules(k.scope).window
    }

    constructor (rules: Rules)
      requires Proper(rules)
      ensures this.rules == rules && counters == map[] && Valid()
    {
      this.rules, counters := rules, map[];
    }

    /** rateLimit: whether the request passes, and otherwise the Retry-After seconds.
        `answered` is the time of the refusal. */
    method Admit(scope: string, digest: string, now: int, answered: int) returns (retryAfter: Option<int>)
      requires Valid() && now <= answered
      modifies this
      ensures Valid()
      ensures var rule := rules(scope);
        var key := Key(scope, digest, Truncate(now, rule.window));
        && counters == Counted(old(counters), key, rule.window)
        && (retryAfter.None? <==> counters[key].count <= rule.limit)
        && (retryAfter.Some? ==> retryAfter.value >= 1 && answered + retryAfter.value * SECOND > key.start + rule.window)
        && (retryAfter.Some? ==> retryAfter.value == 1 || answered + (retryAfter.value - 1) * SECOND <= key.start + rule.window)
        && (var n := if key in old(counters) then old(counters)[key].count else 0; counters[key].count == n + 1)
    {
      var limit, window := rules(scope).limit, rules(scope).window;
      var start := Truncate(now, window);
      var key := Key(scope, digest, start);
      if key in counters {
        counters := counters[key := counters[key].(count := counters[key].count + 1)];
      } else {
        counters := counters[key := Counter(1, start + 2 * window)];
      }
      if counters[key].count > limit {
        var left := start + window - answered;
        var seconds := if left >= 0 then left / SECOND else -((-left) / SECOND);
        retryAfter := Some(if seconds + 1 < 1 then 1 else seconds + 1);
        return;
      }
      return None;
    }

    /** A counter goes exactly when its window and the one after it are over, and the
        others are left as they are. */
    method Purge(now: int)
      requires Valid()
      modifies this
      ensures Valid()
      ensures forall k :: k in counters <==> k in old(counters) && now <= k.start + 2 * rules(k.scope).window
      ensures forall k :: k in counters ==> counters[k] == old(counters)[k]
      ensures counters == Purged(old(counters), now)
    {
      counters := map k | k in counters && counters[k].expires >= now :: counters[k];
    }
  }

  function Counted(counters: map<Key, Counter>, key: Key, window: int): (next: map<Key, Counter>)
    ensures key in next
  {
    counters[key := if key in counters then counters[key].(count := counters[key].count + 1) else Counter(1, key.start + 2 * window)]
  }

  function Purged(counters: map<Key, Counter>, now: int): map<Key, Counter> {
    map k | k in counters && counters[k].expires >= now :: counters[k]
  }

  // ----- Runs -----

  datatype Event = Request(scope: string, digest: string, now: int) | Purge(now: int)

  ghost predicate Ordered(events: seq<Event>) {
    forall i, j :: 0 <= i < j < |events| ==> events[i].now <= events[j].now
  }

  function KeyOf(rules: Rules, e: Event): Key
    requires e.Request? && rules(e.scope).window > 0
  {
    Key(e.scope, e.digest, Truncate(e.now, rules(e.scope).window))
  }

  ghost function Counters(rules: Rules, events: seq<Event>): map<Key, Counter>
    requires Proper(rules)
  {
    if events == [] then map[]
    else
      var before, last := Counters(rules, events[..|events| - 1]), events[|events| - 1];
      if last.Purge? then Purged(before, last.now) else Counted(before, KeyOf(rules, last), rules(last.scope).window)
  }

  ghost predicate Accepted(rules: Rules, events: seq<Event>, i: nat)
    requires Proper(rules) && i < |events|
  {
    events[i].Request?
    && var after := Counters(rules, events[..i + 1]);
       KeyOf(rules, events[i]) in after && after[KeyOf(rules, events[i])].count <= rules(events[i].scope).limit
  }

  predicate Same(e: Event, scope: string, digest: string) {
    e.Request? && e.scope == scope && e.digest == digest
  }

  /** The accepted requests of one scope and key between two times. */
  ghost function AcceptedIn(rules: Rules, events: seq<Event>, scope: string, digest: string, from: int, to: int): set<nat>
    requires Proper(rules)
  {
    set i | 0 <= i < |events| && Same(events[i], scope, digest) && from <= events[i].now < to && Accepted(rules, events, i)
  }

  /** All the requests of one counter so far. */
  ghost function RequestsOf(rules: Rules, events: seq<Event>, key: Key): nat
    requires Proper(rules)
  {
    if events == [] then 0
    else
      var last := events[|events| - 1];
      RequestsOf(rules, events[..|events| - 1], key) + (if last.Request? && KeyOf(rules, last) == key then 1 else 0)
  }

  /** Until two windows after its start a counter holds the number of its requests. */
  ghost predicate Exact(rules: Rules, events: seq<Event>, key: Key)
    requires Proper(rules)
  {
    var c := Counters(rules, events);
    && (key in c <==> RequestsOf(rules, events, key) > 0)
    && (key in c ==> c[key] == Counter(RequestsOf(rules, events, key), key.start + 2 * rules(key.scope).window))
  }

  lemma {:induction false} CounterExact(rules: Rules, events: seq<Event>, key: Key)
    requires Proper(rules) && Ordered(events)
    requires events != [] ==> events[|events| - 1].now <= key.start + 2 * rules(key.scope).window
    ensures Exact(rules, events, key)
  {
    if events == [] {
    } else {
      CounterExact(rules, events[..|events| - 1], key);
    }
  }

  /** A request passes exactly when fewer than `limit` requests came before it with the
      same scope and key in the same window, whatever other keys did and however often the
      table was purged. */
  lemma AcceptedIff(rules: Rules, events: seq<Event>, i: nat)
    requires Proper(rules) && Ordered(events) && i < |events| && events[i].Request?
    ensures Accepted(rules, events, i) <==> RequestsOf(rules, events[..i], KeyOf(rules, events[i])) < rules(events[i].scope).limit
  {
    var key := KeyOf(rules, events[i]);
    assert events[..i + 1][..i] == events[..i];
    CounterExact(rules, events[..i + 1], key);
  }

  ghost function AcceptedOf(rules: Rules, events: seq<Event>, key: Key): set<nat>
    requires Proper(rules)
  {
    set i | 0 <= i < |events| && events[i].Request? && KeyOf(rules, events[i]) == key && Accepted(rules, events, i)
  }

  function Min(a: nat, b: nat): nat { if a < b then a else b }

  lemma AcceptedPrefix(rules: Rules, events: seq<Event>, i: nat)
    requires Proper(rules) && i < |events| - 1
    ensures Accepted(rules, events, i) <==> Accepted(rules, events[..|events| - 1], i)
  {
    assert events[..|events| - 1][..i + 1] == events[..i + 1];
  }

  lemma AcceptedStep(rules: Rules, events: seq<Event>, key: Key)
    requires Proper(rules) && events != []
    ensures var k := |events| - 1;
      && k !in AcceptedOf(rules, events[..k], key)
      && AcceptedOf(rules, events, key) == AcceptedOf(rules, events[..k], key)
           + (if events[k].Request? && KeyOf(rules, events[k]) == key && Accepted(rules, events, k) then {k} else {})
  {
    hide Accepted, KeyOf;
    var k := |events| - 1;
    forall i | 0 <= i < k ensures Accepted(rules, events, i) <==> Accepted(rules, events[..k], i) { AcceptedPrefix(rules, events, i); }
  }

  /** Of the requests of one aligned window exactly the first `limit` are accepted. */
  lemma {:induction false} WindowLimit(rules: Rules, events: seq<Event>, key: Key)
    requires Proper(rules) && Ordered(events)
    ensures |AcceptedOf(rules, events, key)| == Min(RequestsOf(rules, events, key), rules(key.scope).limit)
  {
    hide Accepted, KeyOf, AcceptedOf;
    if events == [] {
      NoneAccepted(rules, key);
    } else {
      var k := |events| - 1;
      WindowLimit(rules, events[..k], key);
      AcceptedStep(rules, events, key);
      if events[k].Request? && KeyOf(rules, events[k]) == key {
        AcceptedIff(rules, events, k);
        SameScope(rules, events[k], key);
      }
    }
  }

  lemma NoneAccepted(rules: Rules, key: Key)
    requires Proper(rules)
    ensures AcceptedOf(rules, [], key) == {}
  {
  }

  lemma SameScope(rules: Rules, e: Event, key: Key)
    requires e.Request? && rules(e.scope).window > 0 && KeyOf(rules, e) == key
    ensures e.scope == key.scope
  {
  }

  lemma InTwoWindows(rules: Rules, events: seq<Event>, scope: string, digest: string, from: int, i: nat)
    requires Proper(rules) && i in AcceptedIn(rules, events, scope, digest, from, from + rules(scope).window)
    ensures var first := Key(scope, digest, Truncate(from, rules(scope).window));
      i in AcceptedOf(rules, events, first) || i in AcceptedOf(rules, events, first.(start := first.start + rules(scope).window))
  {
    hide Truncate, Accepted;
    TwoWindows(from, events[i].now, rules(scope).window);
  }

  /** In any interval as long as the window at most twice the limit is accepted. */
  lemma IntervalLimit(rules: Rules, events: seq<Event>, scope: string, digest: string, from: int)
    requires Proper(rules) && Ordered(events)
    ensures |AcceptedIn(rules, events, scope, digest, from, from + rules(scope).window)| <= 2 * rules(scope).limit
  {
    hide Accepted, AcceptedIn, AcceptedOf, Truncate, RequestsOf, Ordered;
    var window := rules(scope).window;
    var first := Key(scope, digest, Truncate(from, window));
    var second := first.(start := first.start + window);
    var a, b := AcceptedOf(rules, events, first), AcceptedOf(rules, events, second);
    var all := AcceptedIn(rules, events, scope, digest, from, from + window);
    forall i | i in all
      ensures i in a + b
    {
      InTwoWindows(rules, events, scope, digest, from, i);
    }
    WindowLimit(rules, events, first);
    WindowLimit(rules, events, second);
    SizeOfUnion(all, a, b);
  }

  lemma TwoWindows(from: int, now: int, window: int)
    requires window > 0 && from <= now < from + window
    ensures Truncate(now, window) == Truncate(from, window) || Truncate(now, window) == Truncate(from, window) + window
  {
    Aligned(from, window);
    Aligned(now, window);
    var d := now / window - from / window;
    assert Truncate(now, window) - Truncate(from, window) == window * d by {
      assert window * (now / window) - window * (from / window) == window * d;
    }
    if d <= -1 { Multiples(window, d, -1); }
    if d >= 2 { Multiples(window, 2, d); }
  }

  lemma Aligned(t: int, window: int)
    requires window > 0
    ensures Truncate(t, window) == window * (t / window)
  {
  }

  lemma Multiples(window: int, a: int, b: int)
    requires window > 0 && a <= b
    ensures window * a <= window * b
  {
  }
}
