/** Rule cooldowns: canTriggerRule, recordRuleTrigger and the trigger totals of buildRuleView
    (internal/core/service.go). Times are nanoseconds since Go's zero time. */
module Cooldown {
  import opened Model
  import opened Text

  const ZERO_TIME := 0
  const SECOND := 1_000_000_000
  const MAX_INT64 := 0x7FFF_FFFF_FFFF_FFFF
  const MIN_INT64 := -0x8000_0000_0000_0000

  const NUL := '\0'

  /** int64 multiplication wraps around. */
  function Wrap64(x: int): int {
    (x - MIN_INT64) % 0x1_0000_0000_0000_0000 + MIN_INT64
  }

  /** time.Time.Sub saturates. */
  function Sub(a: int, b: int): int {
    if a - b > MAX_INT64 then MAX_INT64 else if a - b < MIN_INT64 then MIN_INT64 else a - b
  }

  datatype RuleState = RuleState(count: int, last: int)

  type RuleStates = map<string, RuleState>

  function Key(rule: ID, device: ID): string {
    rule + [NUL] + device
  }

  function StateAt(states: RuleStates, key: string): RuleState {
    if key in states then states[key] else RuleState(0, ZERO_TIME)
  }

  /** The cooldown test against the time a rule last fired. */
  predicate Elapsed(cooldownSeconds: int, last: int, at: int) {
    last == ZERO_TIME || Sub(at, last) >= Wrap64(cooldownSeconds * SECOND)
  }

  predicate CanTrigger(states: RuleStates, rule: ID, device: ID, cooldownSeconds: int, at: int) {
    cooldownSeconds <= 0 || Elapsed(cooldownSeconds, StateAt(states, Key(rule, device)).last, at)
  }

  function Recorded(states: RuleStates, rule: ID, device: ID, at: int): RuleStates {
    var key := Key(rule, device);
    states[key := RuleState(StateAt(states, key).count + 1, at)]
  }

  // ---------------------------------------------------------------- the test itself

  lemma WrapIdentity(x: int)
    ensures MIN_INT64 <= Wrap64(x) <= MAX_INT64
    ensures MIN_INT64 <= x <= MAX_INT64 ==> Wrap64(x) == x
  {
  }

  /** The test keeps any two firings a full cooldown apart exactly when the cooldown, in
      nanoseconds, fits a 64-bit duration. */
  lemma HonouredIff(cooldownSeconds: int)
    requires cooldownSeconds > 0
    ensures (forall last, at :: last != ZERO_TIME && Elapsed(cooldownSeconds, last, at) ==> at - last >= cooldownSeconds * SECOND)
       <==> cooldownSeconds * SECOND <= MAX_INT64
  {
    WrapIdentity(cooldownSeconds * SECOND);
    if cooldownSeconds * SECOND > MAX_INT64 {
      var last, at := 1, 1 + MAX_INT64;
      assert last != ZERO_TIME && Elapsed(cooldownSeconds, last, at) && at - last < cooldownSeconds * SECOND;
    }
  }

  // ---------------------------------------------------------------- keys

  predicate NulFree(id: ID) {
    NUL !in id
  }

  /** A key starts with a rule's prefix exactly when it is that rule's. */
  lemma PrefixIff(rule: ID, other: ID, device: ID)
    requires NulFree(rule) && NulFree(other)
    ensures HasPrefix(Key(other, device), rule + [NUL]) <==> rule == other
  {
    var key, prefix := Key(other, device), rule + [NUL];
    assert key[|other|] == NUL && prefix[|rule|] == NUL;
    if rule == other {
      assert key[..|prefix|] == prefix;
    } else if |prefix| <= |key| {
      if |rule| < |other| {
        assert other[|rule|] in other;
        assert key[..|prefix|][|rule|] == other[|rule|];
      } else if |rule| > |other| {
        assert rule[|other|] in rule;
        assert key[..|prefix|][|other|] == NUL;
      } else {
        var i :| 0 <= i < |rule| && rule[i] != other[i];
        assert key[..|prefix|][i] == other[i];
      }
    }
  }

  lemma KeyInjective(rule: ID, device: ID, rule': ID, device': ID)
    requires NulFree(rule) && NulFree(rule') && Key(rule, device) == Key(rule', device')
    ensures rule == rule' && device == device'
  {
    var key := Key(rule, device);
    assert key[..|rule| + 1] == rule + [NUL];
    PrefixIff(rule, rule', device');
    assert key[|rule| + 1..] == device && Key(rule', device')[|rule'| + 1..] == device';
  }

  // ---------------------------------------------------------------- firings

  datatype Firing = Firing(rule: ID, device: ID, at: int)

  /** The times at which a rule fired for a device. */
  function Times(log: seq<Firing>, rule: ID, device: ID): seq<int> {
    if log == [] then []
    else
      var f := log[|log| - 1];
      Times(log[..|log| - 1], rule, device) + (if f.rule == rule && f.device == device then [f.at] else [])
  }

  /** Consecutive times at least `gap` apart. */
  predicate Spaced(times: seq<int>, gap: int) {
    forall i :: 0 <= i < |times| - 1 ==> times[i + 1] - times[i] >= gap
  }

  /** Every rule id is NUL-free, no firing carries the zero time, and the states remember each
      pair's number of firings and its last one. */
  ghost predicate Remembers(states: RuleStates, log: seq<Firing>) {
    && (forall i :: 0 <= i < |log| ==> NulFree(log[i].rule) && log[i].at != ZERO_TIME)
    && (forall r, d {:trigger Times(log, r, d)} :: NulFree(r) ==>
          var times := Times(log, r, d);
          StateAt(states, Key(r, d)) == RuleState(|times|, if times == [] then ZERO_TIME else times[|times| - 1]))
  }

  lemma RecordRemembers(states: RuleStates, log: seq<Firing>, rule: ID, device: ID, at: int)
    requires Remembers(states, log) && NulFree(rule) && at != ZERO_TIME
    ensures Remembers(Recorded(states, rule, device, at), log + [Firing(rule, device, at)])
  {
    var log' := log + [Firing(rule, device, at)];
    assert log'[..|log|] == log;
    forall r, d | NulFree(r)
      ensures var times := Times(log', r, d);
              StateAt(Recorded(states, rule, device, at), Key(r, d))
              == RuleState(|times|, if times == [] then ZERO_TIME else times[|times| - 1])
    {
      assert Times(log', r, d) == Times(log, r, d) + (if r == rule && d == device then [at] else []);
      if Key(r, d) == Key(rule, device) {
        KeyInjective(r, d, rule, device);
      }
    }
  }

  /** A firing the test let through keeps the pair's times a cooldown apart. */
  lemma RecordSpaced(states: RuleStates, log: seq<Firing>, rule: ID, device: ID, cooldownSeconds: int, at: int, r: ID, d: ID, gap: int)
    requires Remembers(states, log) && NulFree(rule)
    requires CanTrigger(states, rule, device, cooldownSeconds, at)
    requires 0 < cooldownSeconds && cooldownSeconds * SECOND <= MAX_INT64
    requires rule == r ==> gap == cooldownSeconds * SECOND
    requires Spaced(Times(log, r, d), gap)
    ensures Spaced(Times(log + [Firing(rule, device, at)], r, d), gap)
  {
    var log' := log + [Firing(rule, device, at)];
    assert log'[..|log|] == log;
    var times := Times(log, r, d);
    if r == rule && d == device && times != [] {
      LastTimeNonZero(log, r, d);
      HonouredIff(cooldownSeconds);
      assert Times(log', r, d) == times + [at];
    }
  }

  lemma {:induction false} LastTimeNonZero(log: seq<Firing>, r: ID, d: ID)
    requires forall i :: 0 <= i < |log| ==> log[i].at != ZERO_TIME
    ensures var times := Times(log, r, d); times != [] ==> times[|times| - 1] != ZERO_TIME
  {
    if log != [] {
      LastTimeNonZero(log[..|log| - 1], r, d);
    }
  }

  // ---------------------------------------------------------------- windows

  /** How many times fall in the closed window of length w that starts at a. */
  function InWindow(times: seq<int>, a: int, w: int): nat {
    if times == [] then 0
    else InWindow(times[..|times| - 1], a, w) + (if a <= times[|times| - 1] <= a + w then 1 else 0)
  }

  lemma {:induction false} SpacedApart(times: seq<int>, gap: nat, i: nat, j: nat)
    requires Spaced(times, gap) && i <= j < |times|
    ensures times[j] - times[i] >= (j - i) * gap
  {
    if i < j {
      SpacedApart(times, gap, i, j - 1);
      assert times[j - 1 + 1] - times[j - 1] >= gap;
      assert (j - i) * gap == (j - 1 - i) * gap + gap;
    }
  }

  /** There is a last time in the window, and it is at least n - 1 gaps after the window's start. */
  ghost predicate CountedBack(times: seq<int>, gap: nat, a: int, w: nat, n: int) {
    exists last: nat :: last < |times| && BackFrom(times, gap, a, w, n, last)
  }

  predicate BackFrom(times: seq<int>, gap: nat, a: int, w: nat, n: int, last: nat)
    requires last < |times|
  {
    a <= times[last] <= a + w && times[last] - (n - 1) * gap >= a
  }

  lemma {:induction false} WindowFromLast(times: seq<int>, gap: nat, a: int, w: nat)
    requires Spaced(times, gap) && gap > 0
    ensures InWindow(times, a, w) > 0 ==> CountedBack(times, gap, a, w, InWindow(times, a, w))
  {
    if times != [] {
      var init := times[..|times| - 1];
      assert Spaced(init, gap) by {
        forall i | 0 <= i < |init| - 1 ensures init[i + 1] - init[i] >= gap { assert times[i + 1] - times[i] >= gap; }
      }
      WindowFromLast(init, gap, a, w);
      WindowStep(times, gap, a, w);
    }
  }

  lemma WindowStep(times: seq<int>, gap: nat, a: int, w: nat)
    requires times != [] && Spaced(times, gap) && gap > 0
    requires var init := times[..|times| - 1]; InWindow(init, a, w) > 0 ==> CountedBack(init, gap, a, w, InWindow(init, a, w))
    ensures InWindow(times, a, w) > 0 ==> CountedBack(times, gap, a, w, InWindow(times, a, w))
  {
    var init, end := times[..|times| - 1], |times| - 1;
    var n := InWindow(init, a, w);
    if n > 0 {
      var last: nat :| last < |init| && BackFrom(init, gap, a, w, n, last);
      assert times[last] == init[last];
      if a <= times[end] <= a + w {
        SpacedApart(times, gap, last, end);
        Scale(end - last, gap);
        assert n * gap == (n - 1) * gap + gap;
        assert BackFrom(times, gap, a, w, n + 1, end);
      } else {
        assert BackFrom(times, gap, a, w, n, last);
      }
    } else if a <= times[end] <= a + w {
      assert BackFrom(times, gap, a, w, 1, end);
    }
  }

  lemma Scale(k: nat, gap: nat)
    requires k >= 1
    ensures k * gap >= gap
  {
    assert k * gap == gap + (k - 1) * gap;
  }

  /** Rate limit: a window of length w holds at most w / gap + 1 firings. */
  lemma WindowBound(times: seq<int>, gap: nat, a: int, w: nat)
    requires Spaced(times, gap) && gap > 0
    ensures InWindow(times, a, w) <= w / gap + 1
  {
    var n := InWindow(times, a, w);
    if n > 0 {
      WindowFromLast(times, gap, a, w);
      var last: nat :| last < |times| && BackFrom(times, gap, a, w, n, last);
      assert (n - 1) * gap <= w;
      DivideBound(n - 1, gap, w);
    }
  }

  lemma DivideBound(k: nat, gap: nat, w: nat)
    requires gap > 0 && k * gap <= w
    ensures k <= w / gap
  {
    var q := w / gap;
    assert w == q * gap + w % gap;
    if k > q {
      assert k * gap >= (q + 1) * gap by { MultiplyMonotone(q + 1, k, gap); }
    }
  }

  lemma MultiplyMonotone(a: nat, b: nat, g: nat)
    requires a <= b
    ensures a * g <= b * g
  {
  }

  // ---------------------------------------------------------------- totals of a rule's view

  /** The sum of the counts under the keys with the prefix. */
  ghost function Total(states: RuleStates, keys: set<string>, prefix: string): int
    requires keys <= states.Keys
  {
    if keys == {} then 0
    else
      var k :| k in keys;
      Total(states, keys - {k}, prefix) + (if HasPrefix(k, prefix) then states[k].count else 0)
  }

  lemma {:induction false} TotalPick(states: RuleStates, keys: set<string>, prefix: string, k: string)
    requires keys <= states.Keys && k in keys
    ensures Total(states, keys, prefix)
         == Total(states, keys - {k}, prefix) + (if HasPrefix(k, prefix) then states[k].count else 0)
    decreases keys
  {
    var p :| p in keys && Total(states, keys, prefix)
      == Total(states, keys - {p}, prefix) + (if HasPrefix(p, prefix) then states[p].count else 0);
    if p != k {
      TotalPick(states, keys - {p}, prefix, k);
      TotalPick(states, keys - {k}, prefix, p);
      assert keys - {p} - {k} == keys - {k} - {p};
    }
  }

  lemma {:induction false} TotalSame(a: RuleStates, b: RuleStates, keys: set<string>, prefix: string)
    requires keys <= a.Keys && keys <= b.Keys && forall k :: k in keys ==> a[k] == b[k]
    ensures Total(a, keys, prefix) == Total(b, keys, prefix)
    decreases keys
  {
    if keys != {} {
      var k :| k in keys;
      TotalPick(a, keys, prefix, k);
      TotalPick(b, keys, prefix, k);
      TotalSame(a, b, keys - {k}, prefix);
    }
  }

  /** Firing a rule adds one to its own total and to no other rule's. */
  lemma TotalAfterRecord(states: RuleStates, rule: ID, device: ID, at: int, r: ID)
    requires NulFree(rule) && NulFree(r)
    ensures var next := Recorded(states, rule, device, at);
            Total(next, next.Keys, r + [NUL]) == Total(states, states.Keys, r + [NUL]) + (if r == rule then 1 else 0)
  {
    var key := Key(rule, device);
    var prefix := r + [NUL];
    var next := Recorded(states, rule, device, at);
    PrefixIff(r, rule, device);
    TotalPick(next, next.Keys, prefix, key);
    TotalSame(next, states, next.Keys - {key}, prefix);
    assert next.Keys - {key} == states.Keys - {key};
    if key in states {
      TotalPick(states, states.Keys, prefix, key);
    } else {
      assert states.Keys - {key} == states.Keys;
    }
  }

  function FiredBy(log: seq<Firing>, rule: ID): nat {
    if log == [] then 0 else FiredBy(log[..|log| - 1], rule) + (if log[|log| - 1].rule == rule then 1 else 0)
  }

  /** The loop of buildRuleView over all rule states. */
  method ViewTotals(states: RuleStates, rule: ID) returns (triggered: int, last: Option<int>)
    ensures triggered == Total(states, states.Keys, rule + [NUL])
    ensures last.Some? ==> exists k :: k in states && HasPrefix(k, rule + [NUL]) && states[k].last == last.value && last.value != ZERO_TIME
    ensures forall k :: k in states && HasPrefix(k, rule + [NUL]) && states[k].last != ZERO_TIME ==>
              last.Some? && states[k].last <= last.value
  {
    var prefix := rule + [NUL];
    triggered, last := 0, None;
    var todo := states.Keys;
    while todo != {}
      invariant todo <= states.Keys
      invariant triggered + Total(states, todo, prefix) == Total(states, states.Keys, prefix)
      invariant last.Some? ==> exists k :: k in states && HasPrefix(k, prefix) && states[k].last == last.value && last.value != ZERO_TIME
      invariant forall k :: k in states && k !in todo && HasPrefix(k, prefix) && states[k].last != ZERO_TIME ==>
                  last.Some? && states[k].last <= last.value
      decreases todo
    {
      var k :| k in todo;
      TotalPick(states, todo, prefix, k);
      todo := todo - {k};
      if HasPrefix(k, prefix) {
        triggered := triggered + states[k].count;
        if states[k].last != ZERO_TIME {
          if last.None? || states[k].last > last.value {
            last := Some(states[k].last);
          }
        }
      }
    }
  }
}
