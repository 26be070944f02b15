/** Service discovery: the two load balancers, and a cache that several fetchers fill from a registry that
    keeps changing. */
module Discovery {
  import opened Wrappers
  import opened RoundRobin

  /** The largest int of a 64-bit platform. */
  const MAX_INT := 0x7FFF_FFFF_FFFF_FFFF

  datatype ServiceInfo = ServiceInfo(nodeId: string, nodeType: string, address: string, port: int, load: int, status: string)

  type Services = seq<ServiceInfo>

  // ---------------------------------------------------------------- the weighted balancer

  predicate Eligible(s: ServiceInfo) {
    s.status == "online" && s.load < MAX_INT
  }

  /** The earliest of the least loaded eligible services; the first service if none is eligible. */
  ghost predicate WeightedChoice(services: Services, choice: Option<ServiceInfo>) {
    if services == [] then choice.None?
    else if forall i :: 0 <= i < |services| ==> !Eligible(services[i]) then choice == Some(services[0])
    else exists i :: 0 <= i < |services| && choice == Some(services[i]) && Best(services, i)
  }

  ghost predicate Best(services: Services, i: nat)
    requires i < |services|
  {
    && Eligible(services[i])
    && (forall j :: 0 <= j < |services| && Eligible(services[j]) ==> services[i].load <= services[j].load)
    && (forall j :: 0 <= j < i && Eligible(services[j]) ==> services[i].load < services[j].load)
  }

  /** What is chosen: if any service is online with a load below the largest int, one of those, none of them less
      loaded, and in the list before all others with its load; otherwise the first of the list. */
  lemma WeightedChoiceMeans(services: Services, choice: Option<ServiceInfo>)
    requires WeightedChoice(services, choice)
    ensures choice.None? <==> services == []
    ensures forall j :: 0 <= j < |services| && services[j].status == "online" && services[j].load < 9223372036854775807 ==>
              choice.value.status == "online" && choice.value.load <= services[j].load
    ensures choice.Some? && choice != Some(services[0]) ==>
              && choice.value.status == "online" && choice.value.load < 9223372036854775807
              && exists i :: 0 < i < |services| && choice == Some(services[i])
                   && forall j :: 0 <= j < i ==> services[j].status != "online" || services[j].load > services[i].load
  {
  }

  /** The choice is determined. */
  lemma WeightedChoiceUnique(services: Services, a: Option<ServiceInfo>, b: Option<ServiceInfo>)
    requires WeightedChoice(services, a) && WeightedChoice(services, b)
    ensures a == b
  {
    if services != [] && exists k :: 0 <= k < |services| && Eligible(services[k]) {
      var i :| 0 <= i < |services| && a == Some(services[i]) && Best(services, i);
      var j :| 0 <= j < |services| && b == Some(services[j]) && Best(services, j);
      assert services[i].load == services[j].load && i == j;
    }
  }

  class WeightedLoadBalancer {
    constructor () {}

    method Select(services: Services) returns (selected: Option<ServiceInfo>)
      ensures WeightedChoice(services, selected)
    {
      if |services| == 0 {
        return None;
      }
      selected := None;
      var minLoad := MAX_INT;
      ghost var best := 0;
      for i := 0 to |services|
        invariant selected.None? ==> minLoad == MAX_INT && forall j :: 0 <= j < i ==> !Eligible(services[j])
        invariant selected.Some? ==>
                    && 0 <= best < i && selected == Some(services[best]) && minLoad == services[best].load < MAX_INT
                    && services[best].status == "online"
                    && (forall j :: 0 <= j < i && Eligible(services[j]) ==> minLoad <= services[j].load)
                    && (forall j :: 0 <= j < best && Eligible(services[j]) ==> minLoad < services[j].load)
      {
        if services[i].status == "online" && services[i].load < minLoad {
          minLoad := services[i].load;
          selected := Some(services[i]);
          best := i;
        }
      }
      if selected.None? {
        selected := Some(services[0]);
      } else {
        assert Best(services, best);
      }
    }
  }

  // ---------------------------------------------------------------- the round-robin balancer

  function CounterOf(counters: map<string, nat>, nodeType: string): nat {
    if nodeType in counters then counters[nodeType] else 0
  }

  class RoundRobinLoadBalancer {
    var counters: map<string, nat>

    constructor ()
      ensures counters == map[]
    {
      counters := map[];
    }

    method Select(services: Services) returns (selected: Option<ServiceInfo>)
      modifies this
      ensures services == [] ==> selected.None? && counters == old(counters)
      ensures services != [] ==>
                var c := CounterOf(old(counters), services[0].nodeType);
                selected == Some(services[c % |services|]) && counters == AfterCall(old(counters), services)
    {
      if |services| == 0 {
        return None;
      }
      var nodeType := services[0].nodeType;
      var counter := if nodeType in counters then counters[nodeType] else 0;
      selected := Some(services[counter % |services|]);
      counters := counters[nodeType := counter + 1];
    }
  }

  function AfterCall(counters: map<string, nat>, services: Services): map<string, nat> {
    if services == [] then counters
    else counters[services[0].nodeType := CounterOf(counters, services[0].nodeType) + 1]
  }

  /** The positions that a sequence of Select calls picks for one node type. */
  function Picks(counters: map<string, nat>, calls: seq<Services>, nodeType: string): seq<nat>
    decreases |calls|
  {
    if calls == [] then []
    else
      var s := calls[0];
      (if s != [] && s[0].nodeType == nodeType then [CounterOf(counters, nodeType) % |s|] else [])
      + Picks(AfterCall(counters, s), calls[1..], nodeType)
  }

  /** Every call for the node type passes a list of n services. */
  predicate StableSize(calls: seq<Services>, nodeType: string, n: nat) {
    forall i :: 0 <= i < |calls| && calls[i] != [] && calls[i][0].nodeType == nodeType ==> |calls[i]| == n
  }

  lemma {:induction false} PicksCycle(counters: map<string, nat>, calls: seq<Services>, nodeType: string, n: nat)
    requires n > 0 && StableSize(calls, nodeType, n)
    ensures var picks := Picks(counters, calls, nodeType);
            picks == Cycle(CounterOf(counters, nodeType), |picks|, n)
    decreases |calls|
  {
    if calls != [] {
      assert forall i :: 0 <= i < |calls[1..]| ==> calls[1..][i] == calls[i + 1];
      PicksCycle(AfterCall(counters, calls[0]), calls[1..], nodeType, n);
    }
  }

  /** Over a list that keeps its size, the selections for a node type are spread evenly, from any counter
      and whatever calls for other types come in between. */
  lemma RoundRobinFair(counters: map<string, nat>, calls: seq<Services>, nodeType: string, n: nat, p: nat)
    requires p < n && StableSize(calls, nodeType, n)
    ensures var picks := Picks(counters, calls, nodeType);
            |picks| / n <= multiset(picks)[p] <= (|picks| + n - 1) / n
  {
    PicksCycle(counters, calls, nodeType, n);
    CycleFair(CounterOf(counters, nodeType), |Picks(counters, calls, nodeType)|, n, p);
  }

  // ---------------------------------------------------------------- the discovery object

  type Cache = map<string, Services>

  class ServiceDiscovery {
    var serviceCache: Cache
    const loadBalancer: WeightedLoadBalancer

    constructor ()
      ensures serviceCache == map[]
    {
      serviceCache := map[];
      loadBalancer := new WeightedLoadBalancer();
    }

    /** `fetched` is the registry's answer if it is asked, None for an error. */
    method GetService(nodeType: string, fetched: Option<Services>) returns (result: Option<ServiceInfo>)
      modifies this
      ensures var miss := nodeType !in old(serviceCache) || old(serviceCache)[nodeType] == [];
              && (!miss ==> serviceCache == old(serviceCache) && WeightedChoice(serviceCache[nodeType], result))
              && (miss && fetched.None? ==> serviceCache == old(serviceCache) && result.None?)
              && (miss && fetched.Some? ==>
                    serviceCache == old(serviceCache)[nodeType := fetched.value] && WeightedChoice(fetched.value, result))
    {
      var services := if nodeType in serviceCache then serviceCache[nodeType] else [];
      if |services| == 0 {
        if fetched.None? {
          return None;
        }
        serviceCache := serviceCache[nodeType := fetched.value];
        services := fetched.value;
      }
      result := loadBalancer.Select(services);
    }

    /** Unlike GetService, a cached empty list is an answer here. */
    method GetAllServices(nodeType: string, fetched: Option<Services>) returns (result: Option<Services>)
      modifies this
      ensures result == if nodeType in old(serviceCache) then Some(old(serviceCache)[nodeType]) else fetched
      ensures serviceCache == if nodeType !in old(serviceCache) && fetched.Some?
                              then old(serviceCache)[nodeType := fetched.value] else old(serviceCache)
    {
      if nodeType in serviceCache {
        return Some(serviceCache[nodeType]);
      }
      if fetched.Some? {
        serviceCache := serviceCache[nodeType := fetched.value];
      }
      result := fetched;
    }

    /** One tick of the refresh loop, uninterrupted; `fetched` holds the registry's answers, and no entry
        where it fails. */
    method RefreshCache(fetched: map<string, Services>)
      modifies this
      ensures serviceCache == map t | t in old(serviceCache) :: if t in fetched then fetched[t] else old(serviceCache)[t]
    {
      var nodeTypes := serviceCache.Keys;
      ghost var before := serviceCache;
      while nodeTypes != {}
        invariant nodeTypes <= before.Keys && serviceCache.Keys == before.Keys
        invariant forall t :: t in before ==>
                    serviceCache[t] == if t in fetched && t !in nodeTypes then fetched[t] else before[t]
        decreases |nodeTypes|
      {
        var t :| t in nodeTypes;
        if t in fetched {
          serviceCache := serviceCache[t := fetched[t]];
        }
        nodeTypes := nodeTypes - {t};
      }
    }
  }
}
