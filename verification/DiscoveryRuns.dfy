/** The cache under concurrent fetches. The refresh loop, the watch and a miss all fetch the same way: they
    read the registry and later write what they read; anything may happen in between. */
module DiscoveryRuns {
  import opened Wrappers
  import opened Discovery

  /** A list read for a node type, not yet written to the cache. */
  datatype Fetch = Fetch(nodeType: string, services: Services)

  /** `history` holds every state of the registry so far, the current one last; `answers` the lists that
      lookups chose from. Fetches are numbered as they read. */
  datatype World = World(
    history: seq<Cache>,
    cache: Cache,
    nextFetch: nat,
    fetches: map<nat, Fetch>,
    answers: seq<Fetch>)

  datatype Label =
    | Change(nodeType: string, services: Services)
    | Read(nodeType: string)
    | Fails(f: nat)
    | Write(f: nat, answering: bool)
    | Lookup(nodeType: string)

  function ListOf(registry: Cache, nodeType: string): Services {
    if nodeType in registry then registry[nodeType] else []
  }

  function Current(w: World): Cache {
    if w.history == [] then map[] else w.history[|w.history| - 1]
  }

  const INITIAL := World([map[]], map[], 0, map[], [])

  predicate Enabled(w: World, l: Label) {
    match l
    case Change(_, _) => true
    case Read(_) => true
    case Fails(f) => f in w.fetches
    case Write(f, _) => f in w.fetches
    // A lookup that finds no cached entry, or an empty one, goes through Read and an answering Write.
    case Lookup(t) => t in w.cache && w.cache[t] != []
  }

  function Next(w: World, l: Label): World {
    if !Enabled(w, l) then w else
    match l
    case Change(t, services) => w.(history := w.history + [Current(w)[t := services]])
    case Read(t) =>
      w.(fetches := w.fetches[w.nextFetch := Fetch(t, ListOf(Current(w), t))], nextFetch := w.nextFetch + 1)
    case Fails(f) => w.(fetches := w.fetches - {f})
    case Write(f, answering) =>
      w.(cache := w.cache[w.fetches[f].nodeType := w.fetches[f].services], fetches := w.fetches - {f},
         answers := w.answers + if answering then [w.fetches[f]] else [])
    case Lookup(t) => w.(answers := w.answers + [Fetch(t, w.cache[t])])
  }

  function Run(w: World, ls: seq<Label>): World
    decreases |ls|
  {
    if ls == [] then w else Run(Next(w, ls[0]), ls[1..])
  }

  // ---------------------------------------------------------------- nothing is invented

  /** The registry held this list for the node type at some time. */
  ghost predicate Held(w: World, nodeType: string, services: Services) {
    exists i :: 0 <= i < |w.history| && ListOf(w.history[i], nodeType) == services
  }

  ghost predicate Genuine(w: World) {
    && w.history != []
    && (forall t :: t in w.cache ==> Held(w, t, w.cache[t]))
    && (forall f :: f in w.fetches ==> f < w.nextFetch && Held(w, w.fetches[f].nodeType, w.fetches[f].services))
    && (forall i :: 0 <= i < |w.answers| ==> Held(w, w.answers[i].nodeType, w.answers[i].services))
  }

  lemma HeldLater(w: World, w': World, t: string, services: Services)
    requires Held(w, t, services) && w.history <= w'.history
    ensures Held(w', t, services)
  {
    var i :| 0 <= i < |w.history| && ListOf(w.history[i], t) == services;
    assert ListOf(w'.history[i], t) == services;
  }

  lemma NextGenuine(w: World, l: Label)
    requires Genuine(w)
    ensures Genuine(Next(w, l))
  {
    var w' := Next(w, l);
    if Enabled(w, l) {
      var t := if l.Read? then l.nodeType else "";
      assert ListOf(w.history[|w.history| - 1], t) == ListOf(Current(w), t);
      forall u, services | Held(w, u, services) ensures Held(w', u, services) {
        HeldLater(w, w', u, services);
      }
    }
  }

  lemma {:induction false} RunGenuine(w: World, ls: seq<Label>)
    requires Genuine(w)
    ensures Genuine(Run(w, ls))
    decreases |ls|
  {
    if ls != [] {
      NextGenuine(w, ls[0]);
      RunGenuine(Next(w, ls[0]), ls[1..]);
    }
  }

  /** In every interleaving a cached list, and a list any lookup chose from, is one the registry has held. */
  lemma CacheIsGenuine(ls: seq<Label>, t: string)
    ensures var w := Run(INITIAL, ls);
            && (t in w.cache ==> Held(w, t, w.cache[t]))
            && forall i :: 0 <= i < |w.answers| ==> Held(w, w.answers[i].nodeType, w.answers[i].services)
  {
    RunGenuine(INITIAL, ls);
  }

  // ---------------------------------------------------------------- convergence

  /** No label of the run changes the registry's list for the node type. */
  predicate Quiet(ls: seq<Label>, t: string) {
    forall i :: 0 <= i < |ls| ==> !(ls[i].Change? && ls[i].nodeType == t)
  }

  /** Fetches for the type numbered from `cut` on carry the registry's list. */
  ghost predicate FreshFrom(w: World, t: string, cut: nat) {
    && w.history != []
    && (forall f :: f in w.fetches ==> f < w.nextFetch)
    && forall f :: f in w.fetches && f >= cut && w.fetches[f].nodeType == t ==>
         w.fetches[f].services == ListOf(Current(w), t)
  }

  lemma {:induction false} QuietFresh(w: World, ls: seq<Label>, t: string, cut: nat)
    requires FreshFrom(w, t, cut) && Quiet(ls, t)
    ensures FreshFrom(Run(w, ls), t, cut) && ListOf(Current(Run(w, ls)), t) == ListOf(Current(w), t)
    decreases |ls|
  {
    if ls != [] {
      assert !(ls[0].Change? && ls[0].nodeType == t);
      assert forall i :: 0 <= i < |ls[1..]| ==> ls[1..][i] == ls[i + 1];
      QuietFresh(Next(w, ls[0]), ls[1..], t, cut);
    }
  }

  ghost predicate UpToDate(w: World, t: string) {
    && FreshFrom(w, t, 0)
    && t in w.cache && w.cache[t] == ListOf(Current(w), t)
  }

  lemma {:induction false} UpToDateStays(w: World, ls: seq<Label>, t: string)
    requires UpToDate(w, t) && Quiet(ls, t)
    ensures UpToDate(Run(w, ls), t)
    decreases |ls|
  {
    if ls != [] {
      assert !(ls[0].Change? && ls[0].nodeType == t);
      assert forall i :: 0 <= i < |ls[1..]| ==> ls[1..][i] == ls[i + 1];
      UpToDateStays(Next(w, ls[0]), ls[1..], t);
    }
  }

  /** Once the registry's list stops changing (in the run `before` so far) and the fetches that were under way
      then have landed, the next write brings the cache up to date, and it stays so as long as the list does. */
  lemma CacheConverges(w: World, before: seq<Label>, f: nat, answering: bool, after: seq<Label>, t: string)
    requires Genuine(w) && Quiet(before, t) && Quiet(after, t)
    requires forall g :: g in Run(w, before).fetches && Run(w, before).fetches[g].nodeType == t ==> g >= w.nextFetch
    requires f in Run(w, before).fetches && Run(w, before).fetches[f].nodeType == t
    ensures var end := Run(Next(Run(w, before), Write(f, answering)), after);
            t in end.cache && end.cache[t] == ListOf(Current(w), t) == ListOf(Current(end), t)
  {
    QuietFresh(w, before, t, w.nextFetch);
    var mid := Next(Run(w, before), Write(f, answering));
    assert UpToDate(mid, t);
    UpToDateStays(mid, after, t);
    QuietFresh(mid, after, t, 0);
  }

  /** The cache holds the registry's list and keeps it through whatever fetches and lookups follow, iff it holds
      it now and no fetch under way carries another. */
  lemma CacheExact(w: World, t: string)
    requires Genuine(w)
    ensures (forall ls :: Quiet(ls, t) ==>
               var end := Run(w, ls); t in end.cache && end.cache[t] == ListOf(Current(w), t))
            <==> UpToDate(w, t)
  {
    if UpToDate(w, t) {
      forall ls | Quiet(ls, t) ensures t in Run(w, ls).cache && Run(w, ls).cache[t] == ListOf(Current(w), t) {
        UpToDateStays(w, ls, t);
        QuietFresh(w, ls, t, 0);
      }
    } else if t in w.cache && w.cache[t] == ListOf(Current(w), t) {
      var f :| f in w.fetches && w.fetches[f].nodeType == t && w.fetches[f].services != ListOf(Current(w), t);
      var ls := [Write(f, false)];
      assert Run(w, ls) == Run(Next(w, ls[0]), []);
      assert Quiet(ls, t);
    } else {
      assert Run(w, []) == w && Quiet([], t);
    }
  }

  /** Landing is needed: an older fetch that writes last leaves a list the registry no longer holds. */
  lemma StaleWriteWins(t: string, a: Services, b: Services)
    requires a != b
    ensures var ls := [Change(t, a), Read(t), Change(t, b), Read(t), Write(1, false), Write(0, false)];
            var w := Run(INITIAL, ls);
            t in w.cache && w.cache[t] == a && ListOf(Current(w), t) == b
  {
    var w1 := Next(INITIAL, Change(t, a));
    var w2 := Next(w1, Read(t));
    var w3 := Next(w2, Change(t, b));
    var w4 := Next(w3, Read(t));
    var w5 := Next(w4, Write(1, false));
    var w6 := Next(w5, Write(0, false));
    var ls := [Change(t, a), Read(t), Change(t, b), Read(t), Write(1, false), Write(0, false)];
    assert ls[1..] == [Read(t), Change(t, b), Read(t), Write(1, false), Write(0, false)];
    assert ls[1..][1..] == [Change(t, b), Read(t), Write(1, false), Write(0, false)];
    assert ls[1..][1..][1..] == [Read(t), Write(1, false), Write(0, false)];
    assert Run(w6, []) == w6;
    assert Run(w5, [Write(0, false)]) == w6;
    assert Run(w4, [Write(1, false), Write(0, false)]) == w6;
    assert Run(w3, [Read(t), Write(1, false), Write(0, false)]) == w6;
    assert Run(w2, ls[1..][1..]) == w6;
    assert Run(w1, ls[1..]) == w6;
  }

  // ---------------------------------------------------------------- GetService, uninterrupted

  function GetServiceSteps(w: World, t: string, answered: bool): World {
    if t in w.cache && w.cache[t] != [] then Next(w, Lookup(t))
    else
      var read := Next(w, Read(t));
      if answered then Next(read, Write(w.nextFetch, true)) else Next(read, Fails(w.nextFetch))
  }

  /** A call of GetService with the cache and the registry of w, and nothing in between, makes the cache that
      the steps make: a lookup, or a read followed by a write or a failure. What it returns is the weighted
      choice from the list those steps answer with, and nothing if the registry fails. */
  method CallGetService(sd: ServiceDiscovery, w: World, t: string, answered: bool) returns (result: Option<ServiceInfo>)
    requires sd.serviceCache == w.cache && w.nextFetch !in w.fetches
    modifies sd
    ensures var w' := GetServiceSteps(w, t, answered);
            && sd.serviceCache == w'.cache && w'.fetches == w.fetches && w'.history == w.history
            && if w'.answers == w.answers then result.None?
               else |w'.answers| == |w.answers| + 1 && w'.answers[..|w.answers|] == w.answers
                    && w'.answers[|w.answers|].nodeType == t
                    && WeightedChoice(w'.answers[|w.answers|].services, result)
  {
    assert w.fetches[w.nextFetch := Fetch(t, ListOf(Current(w), t))] - {w.nextFetch} == w.fetches;
    result := sd.GetService(t, if answered then Some(ListOf(Current(w), t)) else None);
  }
}
