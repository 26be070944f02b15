/** Publishing through several NSQ producers: round robin with failover. */
module Nsq {
  import opened Wrappers
  import opened RoundRobin

  datatype Message = Message(topic: string, data: string)

  /** A producer to one nsqd. `up` is what it answers when it is next asked. */
  class Producer {
    var up: bool
    var accepted: seq<Message>
    var attempts: nat

    constructor (up: bool)
      ensures this.up == up && accepted == [] && attempts == 0
    {
      this.up := up;
      accepted, attempts := [], 0;
    }

    method Publish(m: Message) returns (ok: bool)
      modifies this`accepted, this`attempts
      ensures ok == up
      ensures accepted == old(accepted) + if ok then [m] else []
      ensures attempts == old(attempts) + 1
    {
      attempts := attempts + 1;
      ok := up;
      if ok {
        accepted := accepted + [m];
      }
    }
  }

  ghost predicate Distinct(producers: seq<Producer>) {
    forall i, j :: 0 <= i < j < |producers| ==> producers[i] != producers[j]
  }

  /** Who takes a message whose turn falls on `first`. */
  function Winner(ups: seq<bool>, failover: bool, first: nat): (w: Option<nat>)
    requires first < |ups|
    ensures w.Some? ==> w.value < |ups| && ups[w.value]
    ensures w.Some? && w.value != first ==> failover && !ups[first] && forall i :: 0 <= i < w.value ==> !ups[i]
    ensures w.None? <==> if failover then forall i :: 0 <= i < |ups| ==> !ups[i] else !ups[first]
    ensures ups[first] ==> w == Some(first)
  {
    if ups[first] then Some(first) else if failover then FirstUp(ups, 0) else None
  }

  function FirstUp(ups: seq<bool>, from: nat): (w: Option<nat>)
    requires from <= |ups|
    ensures w.Some? ==> from <= w.value < |ups| && ups[w.value] && forall i :: from <= i < w.value ==> !ups[i]
    ensures w.None? <==> forall i :: from <= i < |ups| ==> !ups[i]
    decreases |ups| - from
  {
    if from == |ups| then None else if ups[from] then Some(from) else FirstUp(ups, from + 1)
  }

  /** Who is asked: the producer whose turn it is, and if that fails the others up to the first that accepts. */
  predicate Asked(ups: seq<bool>, failover: bool, first: nat, i: nat)
    requires first < |ups| && i < |ups|
  {
    i == first || (failover && !ups[first] && forall j :: 0 <= j < i ==> !ups[j])
  }

  /** Whoever is asked and up takes the message, and nobody else does. */
  lemma AskedTakes(ups: seq<bool>, failover: bool, first: nat, i: nat)
    requires first < |ups| && i < |ups|
    ensures Asked(ups, failover, first, i) && ups[i] <==> Winner(ups, failover, first) == Some(i)
  {
  }

  /** Without success everyone has been asked, if there is failover, and else the one in turn alone. */
  lemma AskedInVain(ups: seq<bool>, failover: bool, first: nat, i: nat)
    requires first < |ups| && i < |ups| && Winner(ups, failover, first).None?
    ensures Asked(ups, failover, first, i) <==> failover || i == first
  {
  }

  /** Whose turn it is. */
  function Turn(counter: nat, n: nat): (first: nat)
    requires n > 0
    ensures first < n
  {
    counter % n
  }

  /** The turn, and what each producer has been asked and has taken. */
  datatype Cluster = Cluster(counter: nat, attempts: seq<nat>, accepted: seq<seq<Message>>)

  predicate Sized(c: Cluster, n: nat) {
    |c.attempts| == |c.accepted| == n > 0
  }

  /** One load-balanced publish; `ups` are the producers' answers. No producer is asked twice, so it has one. */
  function Published(c: Cluster, ups: seq<bool>, failover: bool, m: Message): Cluster
    requires Sized(c, |ups|)
  {
    var n := |ups|;
    var first := Turn(c.counter, n);
    Cluster(c.counter + 1,
      seq(n, i requires 0 <= i < n => c.attempts[i] + if Asked(ups, failover, first, i) then 1 else 0),
      seq(n, i requires 0 <= i < n => c.accepted[i] + if Winner(ups, failover, first) == Some(i) then [m] else []))
  }

  lemma PublishedIs(c: Cluster, d: Cluster, ups: seq<bool>, failover: bool, m: Message)
    requires Sized(c, |ups|) && Sized(d, |ups|) && d.counter == c.counter + 1
    requires var first := Turn(c.counter, |ups|);
             forall i :: 0 <= i < |ups| ==>
               && d.attempts[i] == c.attempts[i] + (if Asked(ups, failover, first, i) then 1 else 0)
               && d.accepted[i] == c.accepted[i] + if Winner(ups, failover, first) == Some(i) then [m] else []
    ensures d == Published(c, ups, failover, m)
  {
    hide Asked, Winner, Turn;
    assert d.attempts == Published(c, ups, failover, m).attempts;
    assert d.accepted == Published(c, ups, failover, m).accepted;
  }

  class NSQManager {
    var producers: seq<Producer>
    var producer: Producer
    var cluster: bool
    var loadBalancing: bool
    var failoverEnabled: bool
    var currentProducer: nat

    constructor (producers: seq<Producer>, cluster: bool, loadBalancing: bool, failoverEnabled: bool)
      requires producers != []
      ensures this.producers == producers && producer == producers[0] && currentProducer == 0
    {
      this.producers := producers;
      producer := producers[0];
      this.cluster, this.loadBalancing, this.failoverEnabled := cluster, loadBalancing, failoverEnabled;
      currentProducer := 0;
    }

    function Ups(): (ups: seq<bool>)
      reads this`producers, producers
      ensures |ups| == |producers| && forall i :: 0 <= i < |ups| ==> ups[i] == producers[i].up
    {
      var all := producers;
      seq(|all|, i requires 0 <= i < |all| reads all => all[i].up)
    }

    /** The failover loop: every producer but the failed one is asked until one accepts. */
    method Failover(m: Message, first: nat) returns (ok: bool, winner: nat)
      requires first < |producers| && Distinct(producers) && !producers[first].up
      modifies producers
      ensures Ups() == old(Ups()) && winner <= |producers|
      ensures forall i :: 0 <= i < winner ==> !producers[i].up
      ensures ok ==> winner < |producers| && producers[winner].up
      ensures !ok ==> winner == |producers|
      ensures forall i :: 0 <= i < |producers| ==>
                producers[i].attempts == old(producers[i].attempts) + if i <= winner && i != first then 1 else 0
      ensures forall i :: 0 <= i < |producers| ==>
                producers[i].accepted == old(producers[i].accepted) + if i == winner then [m] else []
    {
      winner := 0;
      while winner < |producers|
        invariant winner <= |producers|
        invariant forall j :: 0 <= j < |producers| ==>
                    producers[j].up == old(producers[j].up) && producers[j].accepted == old(producers[j].accepted)
        invariant forall j :: 0 <= j < |producers| ==>
                    producers[j].attempts == old(producers[j].attempts) + if j < winner && j != first then 1 else 0
        invariant forall j :: 0 <= j < winner ==> !producers[j].up
      {
        if producers[winner] != producers[first] {
          ok := producers[winner].Publish(m);
          if ok {
            return;
          }
        }
        winner := winner + 1;
      }
      ok := false;
    }

    ghost function View(): (c: Cluster)
      reads this, producers
      ensures c.counter == currentProducer && |c.attempts| == |c.accepted| == |producers|
      ensures forall i :: 0 <= i < |producers| ==> c.attempts[i] == producers[i].attempts
      ensures forall i :: 0 <= i < |producers| ==> c.accepted[i] == producers[i].accepted
    {
      var all := producers;
      Cluster(currentProducer,
        seq(|all|, i requires 0 <= i < |all| reads all => all[i].attempts),
        seq(|all|, i requires 0 <= i < |all| reads all => all[i].accepted))
    }

    /** The producer whose turn it is, and the others if that fails. */
    method AskFrom(first: nat, m: Message) returns (ok: bool)
      requires first < |producers| && |producers| > 1 && Distinct(producers)
      modifies producers
      ensures Ups() == old(Ups()) && ok == Winner(Ups(), failoverEnabled, first).Some?
      ensures forall i :: 0 <= i < |producers| ==>
                producers[i].attempts
                == old(producers[i].attempts) + if Asked(Ups(), failoverEnabled, first, i) then 1 else 0
      ensures forall i :: 0 <= i < |producers| ==>
                producers[i].accepted
                == old(producers[i].accepted) + if Winner(Ups(), failoverEnabled, first) == Some(i) then [m] else []
      ensures producers[first].attempts == old(producers[first].attempts) + 1
      ensures forall i :: 0 <= i < |producers| ==> producers[i].attempts <= old(producers[i].attempts) + 1
    {
      ok := producers[first].Publish(m);
      if !ok && failoverEnabled && |producers| > 1 {
        var winner: nat;
        ok, winner := Failover(m, first);
      }
    }

    /** With failover, the publish succeeds iff some producer is up; without, iff the one whose turn it is. That
        one is asked in any case, once, and no producer is asked twice. On success exactly one producer has
        the message, the one whose turn it is if it is up and else the earliest that is; on failure none has. */
    method PublishWithLoadBalancing(m: Message) returns (ok: bool)
      requires |producers| > 1 && Distinct(producers)
      modifies this`currentProducer, producers
      ensures Ups() == old(Ups()) && View() == Published(old(View()), Ups(), failoverEnabled, m)
      ensures ok == Winner(Ups(), failoverEnabled, Turn(old(currentProducer), |producers|)).Some?
      ensures var first := producers[Turn(old(currentProducer), |producers|)]; first.attempts == old(first.attempts) + 1
      ensures forall i :: 0 <= i < |producers| ==> producers[i].attempts <= old(producers[i].attempts) + 1
    {
      hide Asked, Winner, Turn, View, Published;
      ghost var before := View();
      var first := Turn(currentProducer, |producers|);
      currentProducer := currentProducer + 1;
      ok := AskFrom(first, m);
      PublishedIs(before, View(), Ups(), failoverEnabled, m);
    }

    /** Outside of a load-balanced cluster the main producer alone is used. */
    method Publish(m: Message) returns (ok: bool)
      requires |producers| > 0 && Distinct(producers) && producer in producers
      modifies this`currentProducer, producers
      ensures Ups() == old(Ups())
      ensures cluster && loadBalancing && |producers| > 1 ==>
                && View() == Published(old(View()), Ups(), failoverEnabled, m)
                && ok == Winner(Ups(), failoverEnabled, Turn(old(currentProducer), |producers|)).Some?
      ensures !(cluster && loadBalancing && |producers| > 1) ==>
                && ok == producer.up && producer.accepted == old(producer.accepted) + (if ok then [m] else [])
                && currentProducer == old(currentProducer)
                && forall p :: p in producers && p != producer ==>
                     p.accepted == old(p.accepted) && p.attempts == old(p.attempts)
    {
      if cluster && loadBalancing && |producers| > 1 {
        ok := PublishWithLoadBalancing(m);
        return;
      }
      ok := producer.Publish(m);
    }
  }

  // ---------------------------------------------------------------- runs of publishes

  /** A message and what each producer answers if it is asked for it. */
  datatype Call = Call(m: Message, ups: seq<bool>)

  predicate Answered(calls: seq<Call>, n: nat) {
    forall i :: 0 <= i < |calls| ==> |calls[i].ups| == n
  }

  function Run(c: Cluster, calls: seq<Call>, failover: bool, n: nat): (d: Cluster)
    requires Sized(c, n) && Answered(calls, n)
    ensures Sized(d, n) && d.counter == c.counter + |calls|
    decreases |calls|
  {
    if calls == [] then c
    else
      var last := calls[|calls| - 1];
      Published(Run(c, calls[..|calls| - 1], failover, n), last.ups, failover, last.m)
  }

  /** Every producer is up at every call. */
  predicate AllUp(calls: seq<Call>) {
    forall i :: 0 <= i < |calls| ==> AllTrue(calls[i].ups)
  }

  predicate AllTrue(ups: seq<bool>) {
    forall p :: 0 <= p < |ups| ==> ups[p]
  }

  lemma PublishedAt(c: Cluster, ups: seq<bool>, failover: bool, m: Message, p: nat)
    requires Sized(c, |ups|) && p < |ups|
    ensures var d, turn := Published(c, ups, failover, m), if Turn(c.counter, |ups|) == p then 1 else 0;
            && d.attempts[p] >= c.attempts[p] + turn
            && (!failover || AllTrue(ups) ==> d.attempts[p] == c.attempts[p] + turn)
            && (AllTrue(ups) ==> |d.accepted[p]| == |c.accepted[p]| + turn)
  {
    var first := Turn(c.counter, |ups|);
    if AllTrue(ups) {
      assert ups[first] && Winner(ups, failover, first) == Some(first);
      assert |c.accepted[p] + [m]| == |c.accepted[p]| + 1;
    }
  }

  /** A producer has been asked at least once for each of its turns; exactly that often when there is no
      failover or no need for it, and then it has taken all of them if it was up. */
  lemma {:induction false} Turns(c: Cluster, calls: seq<Call>, failover: bool, n: nat, p: nat)
    requires Sized(c, n) && Answered(calls, n) && p < n
    ensures var d, turns := Run(c, calls, failover, n), multiset(Cycle(c.counter, |calls|, n))[p];
            && d.attempts[p] >= c.attempts[p] + turns
            && (!failover || AllUp(calls) ==> d.attempts[p] == c.attempts[p] + turns)
            && (AllUp(calls) ==> |d.accepted[p]| == |c.accepted[p]| + turns)
    decreases |calls|
  {
    var k := |calls|;
    if k > 0 {
      var rest, last := calls[..k - 1], calls[k - 1];
      Turns(c, rest, failover, n, p);
      PublishedAt(Run(c, rest, failover, n), last.ups, failover, last.m, p);
      CycleOneMore(c.counter, k, n, p);
      hide Published, Asked, Winner, AllTrue, Cycle;
      assert AllUp(calls) ==> AllUp(rest) && AllTrue(last.ups);
    }
  }

  /** k load-balanced publishes ask each of n producers at least floor(k/n) times. Without failover, or when all
      are up, each is asked at most ceil(k/n) times; when all are up it takes that many messages. */
  lemma PublishingFair(c: Cluster, calls: seq<Call>, failover: bool, n: nat, p: nat)
    requires Sized(c, n) && Answered(calls, n) && p < n
    ensures var d, k := Run(c, calls, failover, n), |calls|;
            && d.attempts[p] - c.attempts[p] >= k / n
            && (!failover || AllUp(calls) ==> d.attempts[p] - c.attempts[p] <= (k + n - 1) / n)
            && (AllUp(calls) ==> k / n <= |d.accepted[p]| - |c.accepted[p]| <= (k + n - 1) / n)
  {
    Turns(c, calls, failover, n, p);
    CycleFair(c.counter, |calls|, n, p);
  }

  function Total(logs: seq<seq<Message>>): nat {
    if logs == [] then 0 else |logs[0]| + Total(logs[1..])
  }

  /** How many of the calls, the first with the given turn, succeed. */
  function Successes(counter: nat, calls: seq<Call>, failover: bool, n: nat): nat
    requires n > 0 && Answered(calls, n)
    decreases |calls|
  {
    if calls == [] then 0
    else
      var k := |calls| - 1;
      Successes(counter, calls[..k], failover, n)
      + if Winner(calls[k].ups, failover, Turn(counter + k, n)).Some? then 1 else 0
  }

  lemma {:induction false} TotalKept(a: seq<seq<Message>>, b: seq<seq<Message>>, w: Option<nat>)
    requires |a| == |b| && (w.Some? ==> w.value < |a|)
    requires forall i :: 0 <= i < |a| ==> |b[i]| == |a[i]| + if w == Some(i) then 1 else 0
    ensures Total(b) == Total(a) + if w.Some? then 1 else 0
    decreases |a|
  {
    if a != [] {
      var v := if w.Some? && w.value > 0 then Some(w.value - 1) else None;
      TotalKept(a[1..], b[1..], v);
    }
  }

  lemma PublishedLengths(c: Cluster, ups: seq<bool>, failover: bool, m: Message)
    requires Sized(c, |ups|)
    ensures var d := Published(c, ups, failover, m);
            forall i :: 0 <= i < |ups| ==>
              |d.accepted[i]| == |c.accepted[i]| + if Winner(ups, failover, Turn(c.counter, |ups|)) == Some(i) then 1 else 0
  {
    hide Winner;
  }

  lemma DeliveredOnce(c: Cluster, call: Call, failover: bool, n: nat)
    requires Sized(c, n) && |call.ups| == n
    ensures Total(Published(c, call.ups, failover, call.m).accepted)
            == Total(c.accepted) + if Winner(call.ups, failover, Turn(c.counter, n)).Some? then 1 else 0
  {
    PublishedLengths(c, call.ups, failover, call.m);
    hide Published, Winner;
    TotalKept(c.accepted, Published(c, call.ups, failover, call.m).accepted, Winner(call.ups, failover, Turn(c.counter, n)));
  }

  /** The producers together have exactly one message more for each publish that answered with success. */
  lemma {:induction false} Delivered(c: Cluster, calls: seq<Call>, failover: bool, n: nat)
    requires Sized(c, n) && Answered(calls, n)
    ensures Total(Run(c, calls, failover, n).accepted) == Total(c.accepted) + Successes(c.counter, calls, failover, n)
    decreases |calls|
  {
    if calls != [] {
      var k := |calls| - 1;
      Delivered(c, calls[..k], failover, n);
      DeliveredOnce(Run(c, calls[..k], failover, n), calls[k], failover, n);
      hide Published, Winner, Total, Answered;
    }
  }
}
