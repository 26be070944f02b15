/** The alert manager: rules with a cooldown, checked in order, and the history of what they raised.
    Times and durations are integers (nanoseconds). */
module Alerts {
  import opened RoundRobin

  datatype AlertRule = AlertRule(name: string, message: string, level: int, cooldown: int, lastAlert: int)

  datatype Alert = Alert(rule: string, level: int, message: string, timestamp: int, nodeId: string, nodeType: string)

  /** `origins[h]` is the index of the rule that raised `history[h]`: names need not be unique. */
  datatype State = State(rules: seq<AlertRule>, history: seq<Alert>, origins: seq<nat>)

  const EMPTY := State([], [], [])

  function AddRule(s: State, rule: AlertRule): State {
    s.(rules := s.rules + [rule])
  }

  predicate Fires(rule: AlertRule, now: int, condition: bool) {
    !(now - rule.lastAlert < rule.cooldown) && condition
  }

  function Raise(s: State, i: nat, now: int, nodeId: string, nodeType: string): State
    requires i < |s.rules|
  {
    var rule := s.rules[i];
    State(s.rules[i := rule.(lastAlert := now)],
          s.history + [Alert(rule.name, rule.level, rule.message, now, nodeId, nodeType)],
          s.origins + [i])
  }

  /** The checks from rule i on; `conditions(j)` is what the condition of rule j answers. */
  function CheckFrom(s: State, i: nat, now: int, conditions: nat -> bool, nodeId: string, nodeType: string): State
    requires i <= |s.rules|
    decreases |s.rules| - i
  {
    if i == |s.rules| then s
    else
      var s' := if Fires(s.rules[i], now, conditions(i)) then Raise(s, i, now, nodeId, nodeType) else s;
      CheckFrom(s', i + 1, now, conditions, nodeId, nodeType)
  }

  // ---------------------------------------------------------------- the manager

  class AlertManager {
    var rules: seq<AlertRule>
    var history: seq<Alert>
    ghost var origins: seq<nat>

    ghost function View(): State
      reads this
    {
      State(rules, history, origins)
    }

    constructor ()
      ensures View() == EMPTY
    {
      rules, history, origins := [], [], [];
    }

    method AddRuleTo(rule: AlertRule)
      modifies this
      ensures View() == AddRule(old(View()), rule)
      ensures rules == old(rules) + [rule] && history == old(history)
    {
      rules := rules + [rule];
    }

    method CheckRules(now: int, conditions: nat -> bool, nodeId: string, nodeType: string)
      modifies this
      ensures View() == CheckFrom(old(View()), 0, now, conditions, nodeId, nodeType)
    {
      var all := rules;
      for i := 0 to |all|
        invariant |rules| == |all| && forall j :: i <= j < |all| ==> rules[j] == all[j]
        invariant CheckFrom(old(View()), 0, now, conditions, nodeId, nodeType)
                  == CheckFrom(View(), i, now, conditions, nodeId, nodeType)
      {
        var rule := all[i];
        if !(now - rule.lastAlert < rule.cooldown) && conditions(i) {
          history := history + [Alert(rule.name, rule.level, rule.message, now, nodeId, nodeType)];
          origins := origins + [i];
          rules := rules[i := rule.(lastAlert := now)];
        }
      }
    }

    /** A negative limit is out of range for the slice expression of the Go code. */
    method GetRecentAlerts(limit: nat) returns (recent: seq<Alert>)
      ensures |recent| == if |history| <= limit then |history| else limit
      ensures recent == history[|history| - |recent|..]
    {
      recent := if |history| <= limit then history else history[|history| - limit..];
    }
  }

  // ---------------------------------------------------------------- runs

  datatype Event =
    | Add(rule: AlertRule)
    | CheckAt(now: int, conditions: nat -> bool, nodeId: string, nodeType: string)

  function Step(s: State, e: Event): State {
    match e
    case Add(rule) => AddRule(s, rule)
    case CheckAt(now, conditions, nodeId, nodeType) => CheckFrom(s, 0, now, conditions, nodeId, nodeType)
  }

  function Run(s: State, es: seq<Event>): State
    decreases |es|
  {
    if es == [] then s else Run(Step(s, es[0]), es[1..])
  }

  /** The clock never goes back. */
  predicate Ordered(es: seq<Event>, from: int)
    decreases |es|
  {
    es == []
    || (match es[0]
        case Add(_) => Ordered(es[1..], from)
        case CheckAt(now, _, _, _) => from <= now && Ordered(es[1..], now))
  }

  // ---------------------------------------------------------------- the invariant

  /** The history is in order up to `clock`; each alert names its rule, which has not alerted since its
      `lastAlert`; two alerts of one rule are its cooldown apart. */
  ghost predicate Spaced(s: State, clock: int) {
    && |s.origins| == |s.history|
    && (forall h :: 0 <= h < |s.history| ==>
          && s.history[h].timestamp <= clock
          && s.origins[h] < |s.rules|
          && s.history[h].rule == s.rules[s.origins[h]].name
          && s.history[h].timestamp <= s.rules[s.origins[h]].lastAlert)
    && (forall g, h :: 0 <= g < h < |s.history| ==> s.history[g].timestamp <= s.history[h].timestamp)
    && (forall g, h :: 0 <= g < h < |s.history| && s.origins[g] == s.origins[h] ==>
          s.history[h].timestamp - s.history[g].timestamp >= s.rules[s.origins[h]].cooldown)
  }

  lemma RaiseSpaced(s: State, i: nat, now: int, condition: bool, nodeId: string, nodeType: string)
    requires Spaced(s, now) && i < |s.rules| && Fires(s.rules[i], now, condition)
    ensures Spaced(Raise(s, i, now, nodeId, nodeType), now)
  {
  }

  lemma {:induction false} CheckSpaced(s: State, i: nat, now: int, conditions: nat -> bool, nodeId: string, nodeType: string)
    requires Spaced(s, now) && i <= |s.rules|
    ensures var t := CheckFrom(s, i, now, conditions, nodeId, nodeType);
            Spaced(t, now) && SameRules(s, t)
    decreases |s.rules| - i
  {
    if i < |s.rules| {
      if Fires(s.rules[i], now, conditions(i)) {
        RaiseSpaced(s, i, now, conditions(i), nodeId, nodeType);
        CheckSpaced(Raise(s, i, now, nodeId, nodeType), i + 1, now, conditions, nodeId, nodeType);
      } else {
        CheckSpaced(s, i + 1, now, conditions, nodeId, nodeType);
      }
    }
  }

  /** Only `lastAlert` of the rules has changed, and rules may have been added. */
  ghost predicate SameRules(s: State, t: State) {
    |s.rules| <= |t.rules|
    && forall i :: 0 <= i < |s.rules| ==>
         t.rules[i].name == s.rules[i].name && t.rules[i].cooldown == s.rules[i].cooldown
  }

  /** The clock after a run. */
  function Clock(es: seq<Event>, from: int): int
    decreases |es|
  {
    if es == [] then from
    else Clock(es[1..], match es[0] case Add(_) => from case CheckAt(now, _, _, _) => now)
  }

  lemma {:induction false} RunSpaced(s: State, es: seq<Event>, from: int)
    requires Spaced(s, from) && Ordered(es, from)
    ensures Spaced(Run(s, es), Clock(es, from))
    decreases |es|
  {
    if es != [] {
      match es[0]
      case Add(rule) =>
        RunSpaced(AddRule(s, rule), es[1..], from);
      case CheckAt(now, conditions, nodeId, nodeType) =>
        CheckSpaced(s, 0, now, conditions, nodeId, nodeType);
        RunSpaced(Step(s, es[0]), es[1..], now);
    }
  }

  // ---------------------------------------------------------------- one check, exactly

  /** The rules from i on that are due: out of their cooldown, and their condition holds. */
  function Due(rules: seq<AlertRule>, i: nat, now: int, conditions: nat -> bool): seq<nat>
    requires i <= |rules|
    decreases |rules| - i
  {
    if i == |rules| then []
    else (if Fires(rules[i], now, conditions(i)) then [i] else []) + Due(rules, i + 1, now, conditions)
  }

  lemma {:induction false} DueMembers(rules: seq<AlertRule>, i: nat, now: int, conditions: nat -> bool)
    requires i <= |rules|
    ensures var due := Due(rules, i, now, conditions);
            && (forall k :: k in due <==> i <= k < |rules| && Fires(rules[k], now, conditions(k)))
            && (forall g, h :: 0 <= g < h < |due| ==> due[g] < due[h])
    decreases |rules| - i
  {
    if i < |rules| {
      DueMembers(rules, i + 1, now, conditions);
      hide Fires;
      var rest := Due(rules, i + 1, now, conditions);
      forall h | 0 <= h < |rest| ensures i < rest[h] {
        assert rest[h] in rest;
      }
    }
  }

  lemma {:induction false} DueLater(a: seq<AlertRule>, b: seq<AlertRule>, i: nat, now: int, conditions: nat -> bool)
    requires |a| == |b| && i <= |a| && a[i..] == b[i..]
    ensures Due(a, i, now, conditions) == Due(b, i, now, conditions)
    decreases |a| - i
  {
    if i < |a| {
      assert a[i] == a[i..][0] && b[i] == b[i..][0];
      assert a[i + 1..] == a[i..][1..] && b[i + 1..] == b[i..][1..];
      DueLater(a, b, i + 1, now, conditions);
    }
  }

  /** What a rule has become when the check has passed it. */
  function Passed(rule: AlertRule, now: int, condition: bool): AlertRule {
    if Fires(rule, now, condition) then rule.(lastAlert := now) else rule
  }

  lemma {:induction false} CheckFromRules(s: State, i: nat, now: int, conditions: nat -> bool,
                                          nodeId: string, nodeType: string)
    requires i <= |s.rules|
    ensures var t := CheckFrom(s, i, now, conditions, nodeId, nodeType);
            && |t.rules| == |s.rules|
            && (forall k :: 0 <= k < |s.rules| ==>
                  t.rules[k] == if i <= k then Passed(s.rules[k], now, conditions(k)) else s.rules[k])
    decreases |s.rules| - i
  {
    if i < |s.rules| {
      var s' := if Fires(s.rules[i], now, conditions(i)) then Raise(s, i, now, nodeId, nodeType) else s;
      CheckFromRules(s', i + 1, now, conditions, nodeId, nodeType);
    }
  }

  lemma {:induction false} CheckFromOrigins(s: State, i: nat, now: int, conditions: nat -> bool,
                                            nodeId: string, nodeType: string)
    requires i <= |s.rules| && |s.origins| == |s.history|
    ensures var t := CheckFrom(s, i, now, conditions, nodeId, nodeType);
            t.origins == s.origins + Due(s.rules, i, now, conditions) && |t.history| == |t.origins|
    decreases |s.rules| - i
  {
    if i < |s.rules| {
      var rest := Due(s.rules, i + 1, now, conditions);
      if Fires(s.rules[i], now, conditions(i)) {
        var s' := Raise(s, i, now, nodeId, nodeType);
        DueLater(s.rules, s'.rules, i + 1, now, conditions);
        CheckFromOrigins(s', i + 1, now, conditions, nodeId, nodeType);
        assert (s.origins + [i]) + rest == s.origins + ([i] + rest);
      } else {
        CheckFromOrigins(s, i + 1, now, conditions, nodeId, nodeType);
      }
    }
  }

  /** `alert` is what a rule that `rules` has at position i raises. */
  predicate Describes(alert: Alert, rules: seq<AlertRule>, i: nat, now: int, nodeId: string, nodeType: string) {
    i < |rules| && alert == Alert(rules[i].name, rules[i].level, rules[i].message, now, nodeId, nodeType)
  }

  lemma {:induction false} CheckFromAlerts(s: State, i: nat, now: int, conditions: nat -> bool,
                                           nodeId: string, nodeType: string)
    requires i <= |s.rules| && |s.origins| == |s.history|
    ensures var t := CheckFrom(s, i, now, conditions, nodeId, nodeType);
            && |s.history| <= |t.history| == |t.origins| && t.history[..|s.history|] == s.history
            && t.origins[..|s.history|] == s.origins
            && forall h :: |s.history| <= h < |t.history| ==>
                 Describes(t.history[h], s.rules, t.origins[h], now, nodeId, nodeType)
    decreases |s.rules| - i
  {
    if i < |s.rules| {
      if Fires(s.rules[i], now, conditions(i)) {
        var s' := Raise(s, i, now, nodeId, nodeType);
        var n := |s.history|;
        CheckFromAlerts(s', i + 1, now, conditions, nodeId, nodeType);
        var t := CheckFrom(s', i + 1, now, conditions, nodeId, nodeType);
        assert t.history[..n] == t.history[..n + 1][..n] && t.origins[..n] == t.origins[..n + 1][..n];
        assert t.history[n] == t.history[..n + 1][n] && t.origins[n] == t.origins[..n + 1][n];
        forall h | n <= h < |t.history| ensures Describes(t.history[h], s.rules, t.origins[h], now, nodeId, nodeType) {
          assert h > n ==> Describes(t.history[h], s'.rules, t.origins[h], now, nodeId, nodeType);
        }
      } else {
        CheckFromAlerts(s, i + 1, now, conditions, nodeId, nodeType);
      }
    }
  }

  // ---------------------------------------------------------------- main results

  /** A check raises one alert for each rule that is due, in the order of the rules, and none for any other;
      it stamps exactly those rules and changes nothing else. */
  lemma CheckExact(s: State, now: int, conditions: nat -> bool, nodeId: string, nodeType: string)
    requires |s.origins| == |s.history|
    ensures var t := CheckFrom(s, 0, now, conditions, nodeId, nodeType);
            var n := |s.history|;
            && n <= |t.history| == |t.origins| && t.history[..n] == s.history && t.origins[..n] == s.origins
            && (forall k :: k in t.origins[n..] <==>
                  0 <= k < |s.rules| && now - s.rules[k].lastAlert >= s.rules[k].cooldown && conditions(k))
            && (forall g, h :: n <= g < h < |t.origins| ==> t.origins[g] < t.origins[h])
            && (forall h :: n <= h < |t.history| ==>
                  Describes(t.history[h], s.rules, t.origins[h], now, nodeId, nodeType))
            && |t.rules| == |s.rules|
            && (forall k :: 0 <= k < |s.rules| ==>
                  t.rules[k] == s.rules[k].(lastAlert := if k in t.origins[n..] then now else s.rules[k].lastAlert))
  {
    CheckFromRules(s, 0, now, conditions, nodeId, nodeType);
    CheckFromOrigins(s, 0, now, conditions, nodeId, nodeType);
    CheckFromAlerts(s, 0, now, conditions, nodeId, nodeType);
    DueMembers(s.rules, 0, now, conditions);
    var t := CheckFrom(s, 0, now, conditions, nodeId, nodeType);
    var due := Due(s.rules, 0, now, conditions);
    assert t.origins[|s.history|..] == due;
    assert forall h :: |s.history| <= h < |t.origins| ==> t.origins[h] == due[h - |s.history|];
  }

  /** The history is in the order of its timestamps, and alerts of one rule are at least its cooldown apart. */
  lemma CooldownKept(es: seq<Event>, from: int, g: nat, h: nat)
    requires Ordered(es, from) && g < h < |Run(EMPTY, es).history|
    ensures var s := Run(EMPTY, es);
            && s.history[g].timestamp <= s.history[h].timestamp
            && h < |s.origins| && s.origins[h] < |s.rules| && s.history[h].rule == s.rules[s.origins[h]].name
            && (s.origins[g] == s.origins[h] ==>
                  s.history[h].timestamp - s.history[g].timestamp >= s.rules[s.origins[h]].cooldown)
  {
    RunSpaced(EMPTY, es, from);
  }

  /** A rule that has been added takes part from the next check on: due, it alerts; otherwise it does not. */
  lemma AddedRuleChecked(s: State, rule: AlertRule, now: int, conditions: nat -> bool, nodeId: string, nodeType: string)
    requires |s.origins| == |s.history|
    ensures var added, i := AddRule(s, rule), |s.rules|;
            var t := CheckFrom(added, 0, now, conditions, nodeId, nodeType);
            && |s.history| <= |t.origins|
            && (i in t.origins[|s.history|..] <==> now - rule.lastAlert >= rule.cooldown && conditions(i))
  {
    CheckExact(AddRule(s, rule), now, conditions, nodeId, nodeType);
  }

  lemma FirstIsMember(xs: seq<nat>)
    requires xs != []
    ensures exists k :: k in xs
  {
    assert xs[0] in xs;
  }

  /** When no condition holds, a check changes nothing. */
  lemma QuietCheck(s: State, now: int, conditions: nat -> bool, nodeId: string, nodeType: string)
    requires |s.origins| == |s.history| && forall i :: 0 <= i < |s.rules| ==> !conditions(i)
    ensures CheckFrom(s, 0, now, conditions, nodeId, nodeType) == s
  {
    CheckExact(s, now, conditions, nodeId, nodeType);
    var t := CheckFrom(s, 0, now, conditions, nodeId, nodeType);
    if t.origins[|s.history|..] != [] {
      FirstIsMember(t.origins[|s.history|..]);
    }
    assert t.rules == s.rules;
  }

  /** When rule names are unique, the name in an alert identifies its rule. */
  lemma CooldownByName(es: seq<Event>, from: int, g: nat, h: nat, i: nat)
    requires Ordered(es, from) && g < h < |Run(EMPTY, es).history| && i < |Run(EMPTY, es).rules|
    requires var s := Run(EMPTY, es);
             && (forall j, k :: 0 <= j < k < |s.rules| ==> s.rules[j].name != s.rules[k].name)
             && s.history[g].rule == s.history[h].rule == s.rules[i].name
    ensures var s := Run(EMPTY, es);
            s.history[h].timestamp - s.history[g].timestamp >= s.rules[i].cooldown
  {
    RunSpaced(EMPTY, es, from);
  }

  /** The timestamps in [a, z] of the first n alerts that rule i raised. */
  function Times(s: State, n: nat, i: nat, a: int, z: int): seq<int>
    requires n <= |s.history| == |s.origins|
  {
    if n == 0 then []
    else
      Times(s, n - 1, i, a, z)
      + if s.origins[n - 1] == i && a <= s.history[n - 1].timestamp <= z then [s.history[n - 1].timestamp] else []
  }

  /** Alert g is one of the first n, raised by rule i at time t. */
  ghost predicate RaisedAt(s: State, g: nat, n: nat, i: nat, t: int)
    requires |s.history| == |s.origins|
  {
    g < n <= |s.history| && s.origins[g] == i && s.history[g].timestamp == t
  }

  ghost predicate RaisedBefore(s: State, n: nat, i: nat, t: int)
    requires |s.history| == |s.origins|
  {
    exists g: nat :: RaisedAt(s, g, n, i, t)
  }

  lemma {:induction false} TimesSpaced(s: State, clock: int, n: nat, i: nat, a: int, z: int)
    requires Spaced(s, clock) && n <= |s.history| && i < |s.rules| && s.rules[i].cooldown > 0
    ensures var ts := Times(s, n, i, a, z);
            ts != [] ==>
              && a + s.rules[i].cooldown * (|ts| - 1) <= ts[|ts| - 1] <= z
              && RaisedBefore(s, n, i, ts[|ts| - 1])
  {
    if n > 0 {
      TimesSpaced(s, clock, n - 1, i, a, z);
      var before, ts := Times(s, n - 1, i, a, z), Times(s, n, i, a, z);
      if before == ts {
        if ts != [] {
          var g: nat :| RaisedAt(s, g, n - 1, i, ts[|ts| - 1]);
          assert RaisedAt(s, g, n, i, ts[|ts| - 1]);
        }
      } else {
        assert RaisedAt(s, n - 1, n, i, ts[|ts| - 1]);
        if before != [] {
          var g: nat :| RaisedAt(s, g, n - 1, i, before[|before| - 1]);
          NextSlot(s.rules[i].cooldown, |before|);
        }
      }
    }
  }

  lemma NextSlot(c: int, k: int)
    ensures c * k == c * (k - 1) + c
  {
  }

  lemma QuotientBound(n: nat, w: nat, c: int)
    requires c > 0 && c * n <= w
    ensures n <= w / c
  {
    if w / c < n {
      ProductGap(c, w / c, n);
    }
  }

  lemma WindowBound(s: State, clock: int, i: nat, a: int, w: nat)
    requires Spaced(s, clock) && i < |s.rules| && s.rules[i].cooldown > 0
    ensures |Times(s, |s.history|, i, a, a + w)| <= 1 + w / s.rules[i].cooldown
  {
    var ts := Times(s, |s.history|, i, a, a + w);
    TimesSpaced(s, clock, |s.history|, i, a, a + w);
    var q := w / s.rules[i].cooldown;
    if ts != [] {
      QuotientBound(|ts| - 1, w, s.rules[i].cooldown);
    } else {
      assert q >= 0;
    }
  }

  /** Any closed window of length w holds at most 1 + floor(w / cooldown) alerts of one rule. */
  lemma AlertsPerWindow(es: seq<Event>, from: int, i: nat, a: int, w: nat)
    requires Ordered(es, from) && i < |Run(EMPTY, es).rules| && Run(EMPTY, es).rules[i].cooldown > 0
    ensures var s := Run(EMPTY, es);
            && |s.history| == |s.origins|
            && |Times(s, |s.history|, i, a, a + w)| <= 1 + w / s.rules[i].cooldown
  {
    RunSpaced(EMPTY, es, from);
    WindowBound(Run(EMPTY, es), Clock(es, from), i, a, w);
  }
}
