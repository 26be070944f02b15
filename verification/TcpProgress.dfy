/** While the server runs its loops live; and once Stop waits, nothing is stuck: from wherever the goroutines
    are, some run brings them all to their end. */
module TcpProgress {
  import opened Wrappers
  import opened TcpServer
  import opened TcpInvariant

  // ---------------------------------------------------------------- the loops live

  /** The accept loop lives as long as the server runs, the sweeper until the context is cancelled. */
  predicate LoopsLive<T>(s: Server<T>) {
    && (s.running ==> !s.accept.Dead?)
    && (s.running && !s.cancelled ==> !s.sweep.Off?)
    && (!s.stop.NoStop? ==> !s.running && s.cancelled)
  }

  lemma AcceptLive<T>(s: Server<T>, l: AcceptLabel<T>)
    requires LoopsLive(s)
    ensures LoopsLive(AcceptNext(s, l))
  {
  }

  lemma HandlerLive<T>(s: Server<T>, k: nat, l: HandlerLabel)
    requires LoopsLive(s)
    ensures LoopsLive(HandlerNext(s, k, l))
  {
  }

  lemma SweepLive<T>(s: Server<T>, l: SweepLabel)
    requires LoopsLive(s)
    ensures LoopsLive(SweepNext(s, l))
  {
  }

  lemma ControlLive<T>(s: Server<T>, l: ControlLabel)
    requires LoopsLive(s)
    ensures LoopsLive(ControlNext(s, l))
  {
  }

  lemma {:induction false} RunLive<T>(s: Server<T>, ls: seq<ServerLabel<T>>)
    requires LoopsLive(s)
    ensures LoopsLive(Run(s, ls))
    decreases |ls|
  {
    hide LoopsLive, AcceptNext, HandlerNext, SweepNext, ControlNext;
    if ls != [] {
      match ls[0] {
        case Accepting(a) => AcceptLive(s, a);
        case Handling(k, h) => HandlerLive(s, k, h);
        case Sweeping(w) => SweepLive(s, w);
        case Controlling(c) => ControlLive(s, c);
      }
      RunLive(Next(s, ls[0]), ls[1..]);
    }
  }

  /** In every run: while the server runs the accept loop has not ended, and before the first Stop neither has
      the sweeper; a Stop that has not returned has ended `running`. */
  lemma LoopsLiveWhileRunning<T>(maxConns: nat, ls: seq<ServerLabel<T>>)
    ensures var s := Run(Init<T>(maxConns), ls);
            && (s.running ==> !s.accept.Dead?)
            && (s.running && !s.cancelled ==> !s.sweep.Off?)
            && (!s.stop.NoStop? ==> !s.running && s.cancelled)
  {
    RunLive(Init<T>(maxConns), ls);
  }

  // ---------------------------------------------------------------- the way out

  /** Stop is in its Wait. */
  ghost predicate Draining<T>(s: Server<T>) {
    Inv(s) && s.stop.WaitingForAll? && !s.running && s.cancelled
  }

  lemma AcceptKeepsStop<T>(s: Server<T>, l: AcceptLabel<T>)
    ensures var t := AcceptNext(s, l); t.stop == s.stop && t.running == s.running && t.cancelled == s.cancelled
  {
  }

  lemma HandlerKeepsStop<T>(s: Server<T>, k: nat, l: HandlerLabel)
    ensures var t := HandlerNext(s, k, l); t.stop == s.stop && t.running == s.running && t.cancelled == s.cancelled
  {
  }

  lemma SweepKeepsStop<T>(s: Server<T>, l: SweepLabel)
    ensures var t := SweepNext(s, l); t.stop == s.stop && t.running == s.running && t.cancelled == s.cancelled
  {
  }

  lemma DrainingStep<T>(s: Server<T>, l: ServerLabel<T>)
    requires Draining(s) && !l.Controlling?
    ensures Draining(Next(s, l))
  {
    NextInv(s, l);
    hide Inv, AcceptNext, HandlerNext, SweepNext;
    match l
    case Accepting(a) => AcceptKeepsStop(s, a);
    case Handling(k, h) => HandlerKeepsStop(s, k, h);
    case Sweeping(w) => SweepKeepsStop(s, w);
  }

  lemma FreshObject(used: set<nat>) returns (obj: nat)
    ensures obj !in used && forall o :: o in used ==> o < obj
    decreases used
  {
    if used == {} {
      obj := 0;
    } else {
      var o :| o in used;
      var rest := FreshObject(used - {o});
      obj := if o < rest then rest else o + 1;
      assert forall x :: x in used ==> x == o || x in used - {o};
    }
  }

  /** How far the accept loop is from its end; the next Accept fails, as the listener is closed. */
  function AcceptRank(a: AcceptPhase<nat>): nat {
    match a
    case Dead => 0
    case Head => 1
    case Blocked => 2
    case Accepted(_) => 2
    case Added(_, _) => 2
    case Stored(_, _) => 3
    case Bound(_, _) => 4
    case Holding(_, _, _) => 5
    case Queueing(_, _) => 6
    case Missing(_, _) => 7
    case Getting(_, _) => 8
    case UnderCap(_) => 9
    case Counting(_, start, visited) => 10 + |start - visited|
  }

  lemma VisitRank(start: set<nat>, visited: set<nat>, k: nat)
    requires k in start && k !in visited
    ensures |start - (visited + {k})| < |start - visited|
  {
    assert start - visited == (start - (visited + {k})) + {k};
  }

  lemma CountSteps(s: Server<nat>)
    requires s.accept.Counting?
    ensures forall k :: AcceptEnabled(s, Visit(k)) ==>
              AcceptNext(s, Visit(k)).accept == Counting(s.accept.sock, s.accept.start, s.accept.visited + {k})
    ensures AcceptEnabled(s, EndCount) ==>
              var a := AcceptNext(s, EndCount).accept; a == Head || a == UnderCap(s.accept.sock)
  {
  }

  lemma CountingStep(s: Server<nat>) returns (l: AcceptLabel<nat>)
    requires s.accept.Counting?
    ensures AcceptEnabled(s, l) && AcceptRank(AcceptNext(s, l).accept) < AcceptRank(s.accept)
  {
    CountSteps(s);
    hide AcceptNext;
    if k :| k in s.accept.start && k !in s.accept.visited {
      l := Visit(k);
      VisitRank(s.accept.start, s.accept.visited, k);
    } else {
      l := EndCount;
    }
  }

  lemma GettingStep(s: Server<nat>) returns (l: AcceptLabel<nat>)
    requires s.accept.Getting? || s.accept.Missing? || s.accept.Queueing?
    ensures AcceptEnabled(s, l) && AcceptRank(AcceptNext(s, l).accept) < AcceptRank(s.accept)
  {
    var obj := FreshObject(s.heap.Keys);
    PoolSteps(s);
    MakeSteps(s, obj);
    l := if s.accept.Missing? then if s.pool.created < s.pool.maxSize then Create(obj) else Refuse
         else if s.pool.free != [] then TakeIdle
         else if s.accept.Getting? then Miss else Expire(obj);
    if !l.TakeIdle? {
      hide AcceptNext;
    }
  }

  lemma AcceptStep(s: Server<nat>) returns (l: AcceptLabel<nat>)
    requires !s.accept.Dead? && !s.running && s.wg > 0
    ensures AcceptEnabled(s, l) && AcceptRank(AcceptNext(s, l).accept) < AcceptRank(s.accept)
  {
    match s.accept
    case Counting(_, _, _) => l := CountingStep(s);
    case Getting(_, _) => l := GettingStep(s);
    case Missing(_, _) => l := GettingStep(s);
    case Queueing(_, _) => l := GettingStep(s);
    case Head => l := Leave;
    case Blocked => l := Fail;
    case Accepted(_) => l := Limit;
    case UnderCap(_) => l := Number;
    case Holding(_, _, _) => l := Bind(0);
    case Bound(_, _) => l := Store;
    case Stored(_, _) => l := Add;
    case Added(_, _) => l := Spawn;
  }

  lemma {:induction false} AcceptEnds(s: Server<nat>, t: Server<nat>) returns (u: Server<nat>)
    requires Leads(s, t) && Draining(t)
    ensures Leads(s, u) && Draining(u) && u.accept.Dead?
    decreases AcceptRank(t.accept)
  {
    if t.accept.Dead? {
      u := t;
    } else {
      assert t.wg > 0 by { assert WaitCount(t); }
      var l := AcceptStep(t);
      Follow(s, t, Accepting(l));
      DrainingStep(t, Accepting(l));
      hide Leads, Draining, AcceptNext, AcceptRank;
      u := AcceptEnds(s, AcceptNext(t, l));
    }
  }

  function SweepRank(w: SweepPhase<nat>): nat {
    match w
    case Off => 0
    case Idle => 1
    case Kicking(expired) => 2 + 2 * |expired|
    case Loaded(_, _, expired) => 3 + 2 * |expired|
    case Scanning(_, expired) => 3 + 2 * |expired|
    case Looking(_, expired, _, _) => 6 + 2 * |expired|
  }

  lemma SweepStep(s: Server<nat>) returns (l: SweepLabel)
    requires !s.sweep.Off? && s.cancelled && s.wg > 0 && Tracking(s)
    ensures SweepEnabled(s, l) && SweepRank(SweepNext(s, l).sweep) < SweepRank(s.sweep)
    ensures SweepNext(s, l).accept == s.accept
  {
    match s.sweep
    case Idle => l := Exit;
    case Kicking(expired) => l := if expired == [] then EndKick else KickLoad;
    case Loaded(_, _, _) => l := KickClose;
    case Scanning(_, _) => l := EndScan;
    case Looking(_, _, _, _) => l := Inspect;
  }

  lemma {:induction false} SweepEnds(s: Server<nat>, t: Server<nat>) returns (u: Server<nat>)
    requires Leads(s, t) && Draining(t) && t.accept.Dead?
    ensures Leads(s, u) && Draining(u) && u.accept.Dead? && u.sweep.Off?
    decreases SweepRank(t.sweep)
  {
    if t.sweep.Off? {
      u := t;
    } else {
      assert t.wg > 0 && Tracking(t) by { assert WaitCount(t); }
      var l := SweepStep(t);
      Follow(s, t, Sweeping(l));
      DrainingStep(t, Sweeping(l));
      hide Leads, Draining, SweepNext, SweepRank;
      u := SweepEnds(s, SweepNext(t, l));
    }
  }

  function HandlerRank(h: HandlerPhase): nat {
    match h
    case Serving => 7
    case Closed => 6
    case Deleted => 5
    case Counted => 4
    case Cleared => 3
    case Returned => 2
  }

  /** What is left to do for the handlers of the ids up to n. */
  function HandlersRank(handlers: map<nat, Handler<nat>>, n: nat): nat {
    if n == 0 then 0
    else HandlersRank(handlers, n - 1) + if n in handlers then HandlerRank(handlers[n].phase) else 0
  }

  lemma {:induction false} RankFalls(a: map<nat, Handler<nat>>, b: map<nat, Handler<nat>>, k: nat, n: nat)
    requires k in a && forall j :: j != k ==> (j in b <==> j in a) && (j in b ==> b[j] == a[j])
    requires k !in b || HandlerRank(b[k].phase) < HandlerRank(a[k].phase)
    ensures HandlersRank(b, n) <= HandlersRank(a, n) && (1 <= k <= n ==> HandlersRank(b, n) < HandlersRank(a, n))
    decreases n
  {
    if n > 0 {
      RankFalls(a, b, k, n - 1);
    }
  }

  lemma HandlerStep(s: Server<nat>, k: nat) returns (l: HandlerLabel)
    requires k in s.handlers && (Owns(s, k) ==> Live(s, k)) && s.wg > 0
    ensures HandlerEnabled(s, k, l)
    ensures var t := HandlerNext(s, k, l);
            && t.accept == s.accept && t.sweep == s.sweep && t.connCounter == s.connCounter
            && (forall j :: j != k ==>
                  (j in t.handlers <==> j in s.handlers) && (j in t.handlers ==> t.handlers[j] == s.handlers[j]))
            && (k !in t.handlers || HandlerRank(t.handlers[k].phase) < HandlerRank(s.handlers[k].phase))
  {
    if s.handlers[k].phase == Returned {
      l := Done;
      assert HandlerNext(s, k, l) == Finished(s, k);
    } else {
      HandlerSteps(s, k);
      l := match s.handlers[k].phase
           case Serving => Close
           case Closed => Delete
           case Deleted => PutCount
           case Counted => PutReset
           case _ => PutOffer;
    }
    hide HandlerNext;
  }

  lemma OneHandler<T>(s: Server<T>, k: nat)
    requires Inv(s) && k in s.handlers
    ensures (Owns(s, k) ==> Live(s, k)) && s.wg > 0 && 1 <= k <= s.connCounter
  {
    assert k in s.handlers.Keys;
    assert |s.handlers| > 0;
  }

  lemma HandlersStep(s: Server<nat>) returns (k: nat, l: HandlerLabel)
    requires Inv(s) && s.handlers != map[]
    ensures var t := HandlerNext(s, k, l);
            && t.accept == s.accept && t.sweep == s.sweep
            && HandlersRank(t.handlers, t.connCounter) < HandlersRank(s.handlers, s.connCounter)
  {
    k :| k in s.handlers;
    OneHandler(s, k);
    hide Inv;
    l := HandlerStep(s, k);
    hide HandlerNext;
    RankFalls(s.handlers, HandlerNext(s, k, l).handlers, k, s.connCounter);
  }

  lemma {:induction false} HandlersEnd(s: Server<nat>, t: Server<nat>) returns (u: Server<nat>)
    requires Leads(s, t) && Draining(t) && t.accept.Dead? && t.sweep.Off?
    ensures Leads(s, u) && Draining(u) && u.accept.Dead? && u.sweep.Off? && u.handlers == map[]
    decreases HandlersRank(t.handlers, t.connCounter)
  {
    hide Leads, HandlerNext, HandlersRank, Inv;
    if t.handlers == map[] {
      u := t;
    } else {
      var k, l := HandlersStep(t);
      Follow(s, t, Handling(k, l));
      DrainingStep(t, Handling(k, l));
      u := HandlersEnd(s, HandlerNext(t, k, l));
    }
  }

  /** From every state in which Stop waits, wherever the accept loop, the sweeper and the handlers are, some run
      leads to a state in which its Wait returns. */
  lemma StopCanReturn(maxConns: nat, ls: seq<ServerLabel<nat>>)
    requires Run(Init<nat>(maxConns), ls).stop.WaitingForAll?
    ensures exists more :: ControlEnabled(Run(Run(Init<nat>(maxConns), ls), more), StopReturn)
  {
    var s := Run(Init<nat>(maxConns), ls);
    Reachable(maxConns, ls);
    LoopsLiveWhileRunning(maxConns, ls);
    assert Run(s, []) == s;
    assert Leads(s, s);
    hide Run, Leads;
    var t := AcceptEnds(s, s);
    var u := SweepEnds(s, t);
    var v := HandlersEnd(s, u);
    assert v.wg == 0 by { assert WaitCount(v); }
    Reaches(s, v);
  }

  lemma Reaches(s: Server<nat>, t: Server<nat>)
    requires Leads(s, t) && ControlEnabled(t, StopReturn)
    ensures exists more :: ControlEnabled(Run(s, more), StopReturn)
  {
  }
}
