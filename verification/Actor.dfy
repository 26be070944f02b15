/** The actor's mailbox under concurrent Tell, Start, Stop and run loops.

    `Start` and `Stop` hold the actor's lock from beginning to end, `Tell` holds it shared; Stop waits for
    the run loop while it holds it. The context is cancelled once and for all by the first Stop. */
module Actor {

  type Msg = nat

  /** The holder of the exclusive lock. */
  datatype Writer = NoWriter | Starting | Stopping | Stopped

  /** A run loop is waiting in its select or inside OnReceive. */
  datatype Loop = Selecting | Receiving(m: Msg)

  /** `accepted` are the messages for which Tell returned nil, `taken` those handed to OnReceive, `finished`
      those from which OnReceive has returned. */
  datatype State = State(
    capacity: nat,
    running: bool,
    cancelled: bool,
    mailbox: seq<Msg>,
    wg: nat,
    loops: map<nat, Loop>,
    writer: Writer,
    tells: map<nat, Msg>,
    accepted: seq<Msg>,
    taken: seq<Msg>,
    finished: seq<Msg>)

  function Init(capacity: nat): State {
    State(capacity, false, false, [], 0, map[], NoWriter, map[], [], [], [])
  }

  datatype Label =
    | StartBegin(loop: nat)
    | StartEnd
    | StopBegin
    | StopWaited
    | StopEnd
    | TellBegin(t: nat, m: Msg)
    | TellSend(t: nat)
    | TellHandoff(t: nat, loop: nat)
    | TellTimeout(t: nat)
    | Take(loop: nat)
    | Received(loop: nat)
    | LoopExit(loop: nat)

  predicate Enabled(s: State, l: Label) {
    match l
    case StartBegin(loop) => s.writer.NoWriter? && s.tells == map[] && !s.running && loop !in s.loops
    case StartEnd => s.writer.Starting?
    case StopBegin => s.writer.NoWriter? && s.tells == map[] && s.running
    case StopWaited => s.writer.Stopping? && s.wg == 0
    case StopEnd => s.writer.Stopped?
    // When the actor is not running, Tell returns its error at once.
    case TellBegin(t, _) => s.writer.NoWriter? && t !in s.tells && s.running
    case TellSend(t) => t in s.tells && |s.mailbox| < s.capacity
    // A channel without a buffer passes the message to a loop that is waiting for one.
    case TellHandoff(t, loop) => s.capacity == 0 && t in s.tells && loop in s.loops && s.loops[loop] == Selecting
    case TellTimeout(t) => t in s.tells
    case Take(loop) => loop in s.loops && s.loops[loop] == Selecting && s.mailbox != []
    case Received(loop) => loop in s.loops && s.loops[loop].Receiving?
    case LoopExit(loop) => loop in s.loops && s.loops[loop] == Selecting && s.cancelled && s.wg > 0
  }

  function Next(s: State, l: Label): State {
    if !Enabled(s, l) then s else
    match l
    case StartBegin(loop) => s.(running := true, wg := s.wg + 1, loops := s.loops[loop := Selecting], writer := Starting)
    case StartEnd => s.(writer := NoWriter)
    case StopBegin => s.(running := false, cancelled := true, writer := Stopping)
    case StopWaited => s.(writer := Stopped)
    case StopEnd => s.(writer := NoWriter)
    case TellBegin(t, m) => s.(tells := s.tells[t := m])
    case TellSend(t) =>
      s.(mailbox := s.mailbox + [s.tells[t]], accepted := s.accepted + [s.tells[t]], tells := s.tells - {t})
    case TellHandoff(t, loop) =>
      s.(accepted := s.accepted + [s.tells[t]], taken := s.taken + [s.tells[t]], tells := s.tells - {t},
         loops := s.loops[loop := Receiving(s.tells[t])])
    case TellTimeout(t) => s.(tells := s.tells - {t})
    case Take(loop) =>
      s.(taken := s.taken + [s.mailbox[0]], mailbox := s.mailbox[1..], loops := s.loops[loop := Receiving(s.mailbox[0])])
    case Received(loop) => s.(finished := s.finished + [s.loops[loop].m], loops := s.loops[loop := Selecting])
    case LoopExit(loop) => s.(loops := s.loops - {loop}, wg := s.wg - 1)
  }

  function Run(s: State, ls: seq<Label>): State
    decreases |ls|
  {
    if ls == [] then s else Run(Next(s, ls[0]), ls[1..])
  }

  // ---------------------------------------------------------------- the invariant

  ghost predicate Fifo(s: State) {
    s.taken + s.mailbox == s.accepted && |s.mailbox| <= s.capacity
  }

  ghost predicate Locked(s: State) {
    && s.wg == |s.loops| <= 1
    && (s.tells != map[] ==> s.writer.NoWriter? && s.running)
    && (s.writer.Starting? ==> s.running)
    && (s.writer.Stopping? || s.writer.Stopped? ==> !s.running)
    && (s.writer.Stopped? || (s.writer.NoWriter? && !s.running) ==> s.loops == map[])
  }

  /** A run loop hands on one message at a time: all it has taken is finished but the one it is at. */
  ghost predicate Serial(s: State) {
    && (forall k :: k in s.loops && s.loops[k].Receiving? ==> s.taken == s.finished + [s.loops[k].m])
    && ((forall k :: k in s.loops ==> s.loops[k] == Selecting) ==> s.taken == s.finished)
  }

  lemma Alone(s: State, k: nat)
    requires Locked(s) && k in s.loops
    ensures s.loops.Keys == {k}
  {
    assert |s.loops.Keys - {k}| == 0;
    assert s.loops.Keys == (s.loops.Keys - {k}) + {k};
  }

  lemma NextSerial(s: State, l: Label)
    requires Locked(s) && Serial(s)
    ensures Serial(Next(s, l))
  {
    if Enabled(s, l) && (l.TellHandoff? || l.Take? || l.Received? || l.LoopExit?) {
      Alone(s, l.loop);
      assert forall k :: k in s.loops ==> k in s.loops.Keys;
      var t := Next(s, l);
      assert !l.LoopExit? ==> t.loops.Keys == {l.loop} && forall k :: k in t.loops ==> k in t.loops.Keys;
      assert l.LoopExit? ==> t.loops.Keys == {};
    }
  }

  lemma NextFifo(s: State, l: Label)
    requires Fifo(s)
    ensures Fifo(Next(s, l)) && Next(s, l).capacity == s.capacity
  {
    if Enabled(s, l) {
      if l.TellSend? {
        assert s.taken + (s.mailbox + [s.tells[l.t]]) == s.taken + s.mailbox + [s.tells[l.t]];
      } else if l.Take? {
        assert s.taken + [s.mailbox[0]] + s.mailbox[1..] == s.taken + s.mailbox;
      } else if l.TellHandoff? {
        assert s.mailbox == [];
      }
    }
  }

  lemma EmptyMap<K, V>(m: map<K, V>)
    requires |m| == 0
    ensures m == map[]
  {
    assert m.Keys == {};
  }

  lemma NextLocked(s: State, l: Label)
    requires Locked(s)
    ensures Locked(Next(s, l))
  {
    if Enabled(s, l) {
      match l
      case StartBegin(_) =>
      case StartEnd =>
      case StopBegin =>
      case StopWaited => EmptyMap(s.loops);
      case StopEnd =>
      case TellBegin(_, _) =>
      case TellSend(t) => assert t in s.tells;
      case TellHandoff(t, loop) => assert s.loops[loop := Receiving(s.tells[t])].Keys == s.loops.Keys;
      case TellTimeout(_) =>
      case Take(loop) => assert s.loops[loop := Receiving(s.mailbox[0])].Keys == s.loops.Keys;
      case Received(loop) => assert s.loops[loop := Selecting].Keys == s.loops.Keys;
      case LoopExit(loop) => assert (s.loops - {loop}).Keys == s.loops.Keys - {loop};
    }
  }

  lemma {:induction false} RunInvariant(s: State, ls: seq<Label>)
    requires Fifo(s) && Locked(s) && Serial(s)
    ensures Fifo(Run(s, ls)) && Locked(Run(s, ls)) && Serial(Run(s, ls)) && Run(s, ls).capacity == s.capacity
    decreases |ls|
  {
    hide Next, Fifo, Locked, Serial;
    if ls != [] {
      NextFifo(s, ls[0]);
      NextLocked(s, ls[0]);
      NextSerial(s, ls[0]);
      RunInvariant(Next(s, ls[0]), ls[1..]);
    }
  }

  // ---------------------------------------------------------------- main results

  /** In every interleaving messages are processed in the order in which they were accepted, one at a time,
      none lost and none twice, the mailbox keeps within its capacity, and there is at most one run loop. */
  lemma MailboxFifo(capacity: nat, ls: seq<Label>)
    ensures var s := Run(Init(capacity), ls);
            && s.taken + s.mailbox == s.accepted && |s.mailbox| <= capacity && |s.loops| <= 1
            && s.finished <= s.taken && |s.taken| <= |s.finished| + 1
            && (s.taken != s.finished ==>
                  exists k :: k in s.loops && s.loops[k].Receiving? && s.taken == s.finished + [s.loops[k].m])
  {
    RunInvariant(Init(capacity), ls);
  }

  /** Nothing changes hands while the actor is stopped and not being started. */
  predicate Quiet(s: State) {
    !s.running && s.writer.NoWriter?
  }

  lemma NextFrozen(s: State, l: Label)
    requires Locked(s) && Quiet(s) && !l.StartBegin?
    ensures Quiet(Next(s, l))
    ensures Next(s, l).accepted == s.accepted && Next(s, l).taken == s.taken && Next(s, l).mailbox == s.mailbox
  {
    assert s.loops == map[] && s.tells == map[];
  }

  lemma {:induction false} RunFrozen(s: State, ls: seq<Label>)
    requires Locked(s) && Quiet(s) && forall i :: 0 <= i < |ls| ==> !ls[i].StartBegin?
    ensures Run(s, ls).accepted == s.accepted && Run(s, ls).taken == s.taken && Run(s, ls).mailbox == s.mailbox
    decreases |ls|
  {
    if ls != [] {
      NextFrozen(s, ls[0]);
      NextLocked(s, ls[0]);
      RunFrozen(Next(s, ls[0]), ls[1..]);
    }
  }

  /** From the moment Stop returns until another Start, no message is accepted and none is processed, whatever
      else is tried; what the mailbox held stays in it. */
  lemma StopFreezes(capacity: nat, before: seq<Label>, after: seq<Label>)
    requires Run(Init(capacity), before).writer.Stopped?
    requires forall i :: 0 <= i < |after| ==> !after[i].StartBegin?
    ensures var s := Next(Run(Init(capacity), before), StopEnd);
            var end := Run(s, after);
            && s.loops == map[] && s.finished == s.taken
            && end.accepted == s.accepted && end.taken == s.taken && end.mailbox == s.mailbox
  {
    hide Run;
    RunInvariant(Init(capacity), before);
    var s := Next(Run(Init(capacity), before), StopEnd);
    NextLocked(Run(Init(capacity), before), StopEnd);
    RunFrozen(s, after);
  }

  // ---------------------------------------------------------------- the run loop runs

  /** While the actor runs and has never been stopped, it has its run loop; a Stop under way has ended both. */
  predicate LoopLives(s: State) {
    && (s.running && !s.cancelled ==> |s.loops| == 1)
    && (s.writer.Stopping? || s.writer.Stopped? ==> s.cancelled && !s.running)
  }

  lemma NextLives(s: State, l: Label)
    requires Locked(s) && LoopLives(s)
    ensures LoopLives(Next(s, l))
  {
    if Enabled(s, l) {
      match l
      case StartBegin(loop) => assert s.loops == map[] && s.loops[loop := Selecting].Keys == {loop};
      case TellHandoff(t, loop) => assert s.loops[loop := Receiving(s.tells[t])].Keys == s.loops.Keys;
      case Take(loop) => assert s.loops[loop := Receiving(s.mailbox[0])].Keys == s.loops.Keys;
      case Received(loop) => assert s.loops[loop := Selecting].Keys == s.loops.Keys;
      case _ =>
    }
  }

  lemma {:induction false} RunLives(s: State, ls: seq<Label>)
    requires Locked(s) && LoopLives(s)
    ensures LoopLives(Run(s, ls))
    decreases |ls|
  {
    hide Next, Locked, LoopLives;
    if ls != [] {
      NextLocked(s, ls[0]);
      NextLives(s, ls[0]);
      RunLives(Next(s, ls[0]), ls[1..]);
    }
  }

  /** A run leads from s to t. */
  ghost predicate Leads(s: State, t: State) {
    exists ls: seq<Label> :: Run(s, ls) == t
  }

  lemma {:induction false} RunSnoc(s: State, ls: seq<Label>, l: Label)
    ensures Run(s, ls + [l]) == Next(Run(s, ls), l)
    decreases |ls|
  {
    hide Next;
    if ls == [] {
      assert Run(Next(s, l), []) == Next(s, l);
    } else {
      assert (ls + [l])[1..] == ls[1..] + [l];
      RunSnoc(Next(s, ls[0]), ls[1..], l);
    }
  }

  lemma Follow(s: State, t: State, l: Label)
    requires Leads(s, t)
    ensures Leads(s, Next(t, l))
  {
    var ls: seq<Label> :| Run(s, ls) == t;
    hide Next, Run;
    RunSnoc(s, ls, l);
    assert Run(s, ls + [l]) == Next(t, l);
  }

  lemma OnlyLoop(s: State) returns (k: nat)
    requires |s.loops| == 1
    ensures s.loops.Keys == {k}
  {
    assert s.loops.Keys != {};
    k :| k in s.loops;
    assert |s.loops.Keys - {k}| == 0;
    assert s.loops.Keys == (s.loops.Keys - {k}) + {k};
  }

  /** The run loop, wherever it is, comes to its select. */
  lemma Selects(s: State, t: State, k: nat) returns (u: State)
    requires Leads(s, t) && k in t.loops
    ensures Leads(s, u) && u == t.(loops := t.loops[k := Selecting], finished := u.finished)
    ensures u.finished == t.finished + if t.loops[k].Receiving? then [t.loops[k].m] else []
  {
    if t.loops[k].Receiving? {
      Follow(s, t, Received(k));
      u := Next(t, Received(k));
    } else {
      u := t;
      assert t.loops[k := Selecting] == t.loops;
    }
  }

  lemma {:induction false} TakesAll(s: State, t: State, k: nat) returns (u: State)
    requires Leads(s, t) && k in t.loops
    ensures Leads(s, u) && u.taken == t.taken + t.mailbox && u.mailbox == []
    decreases |t.mailbox|
  {
    var v := Selects(s, t, k);
    if v.mailbox == [] {
      u := v;
    } else {
      Follow(s, v, Take(k));
      hide Leads;
      assert Next(v, Take(k)).taken + Next(v, Take(k)).mailbox == t.taken + t.mailbox;
      u := TakesAll(s, Next(v, Take(k)), k);
    }
  }

  /** In every run: an actor that is running and has not been stopped has its run loop, and from there some run
      processes every message that its mailbox holds. */
  lemma MessagesCanBeTaken(capacity: nat, ls: seq<Label>)
    requires var s := Run(Init(capacity), ls); s.running && !s.cancelled
    ensures var s := Run(Init(capacity), ls);
            && |s.loops| == 1
            && exists more :: Run(s, more).taken == s.taken + s.mailbox
  {
    var s := Run(Init(capacity), ls);
    RunInvariant(Init(capacity), ls);
    RunLives(Init(capacity), ls);
    assert Run(s, []) == s;
    assert Leads(s, s);
    var k := OnlyLoop(s);
    hide Run, Next;
    var u := TakesAll(s, s, k);
    var more: seq<Label> :| Run(s, more) == u;
  }

  /** A Stop is never stuck: from wherever the run loop is, some run brings it to its return. */
  lemma StopCanReturn(capacity: nat, ls: seq<Label>)
    requires Run(Init(capacity), ls).writer.Stopping?
    ensures exists more :: Run(Run(Init(capacity), ls), more).writer.Stopped?
  {
    var s := Run(Init(capacity), ls);
    RunInvariant(Init(capacity), ls);
    RunLives(Init(capacity), ls);
    assert Run(s, []) == s;
    assert Leads(s, s);
    hide Run, Leads;
    var t := s;
    if |s.loops| == 1 {
      var k := OnlyLoop(s);
      var u := Selects(s, s, k);
      Follow(s, u, LoopExit(k));
      t := Next(u, LoopExit(k));
    }
    Follow(s, t, StopWaited);
    Reaches(s, Next(t, StopWaited));
  }

  lemma Reaches(s: State, t: State)
    requires Leads(s, t) && t.writer.Stopped?
    ensures exists more :: Run(s, more).writer.Stopped?
  {
  }

  /** From the beginning of a Start to its end, that is until OnStart has returned, no message is accepted. */
  lemma {:induction false} StartHoldsOff(s: State, ls: seq<Label>)
    requires s.writer.Starting? && s.tells == map[]
    requires forall i :: 0 <= i < |ls| ==> !ls[i].StartEnd?
    ensures Run(s, ls).accepted == s.accepted && Run(s, ls).writer.Starting?
    decreases |ls|
  {
    if ls != [] {
      assert forall i :: 0 <= i < |ls[1..]| ==> ls[1..][i] == ls[i + 1];
      assert !ls[0].StartEnd?;
      StartHoldsOff(Next(s, ls[0]), ls[1..]);
    }
  }

  lemma StartIsExclusive(capacity: nat, before: seq<Label>, loop: nat, during: seq<Label>)
    requires Enabled(Run(Init(capacity), before), StartBegin(loop))
    requires forall i :: 0 <= i < |during| ==> !during[i].StartEnd?
    ensures var s := Run(Init(capacity), before);
            Run(Next(s, StartBegin(loop)), during).accepted == s.accepted
  {
    StartHoldsOff(Next(Run(Init(capacity), before), StartBegin(loop)), during);
  }

  /** A new actor that is started and told a message hands it to OnReceive. */
  lemma FirstMessage(capacity: nat, m: Msg)
    ensures var started := Next(Next(Init(capacity), StartBegin(0)), StartEnd);
            var told := Next(started, TellBegin(0, m));
            var received := if capacity > 0 then Next(Next(told, TellSend(0)), Take(0)) else Next(told, TellHandoff(0, 0));
            && received.accepted == [m] && received.taken == [m]
            && Next(received, Received(0)).finished == [m]
  {
  }

  // ---------------------------------------------------------------- the actor object

  /** The run loop receives k more messages. */
  function TakenMore(s: State, k: nat): State {
    if k == 0 then s else Next(Next(TakenMore(s, k - 1), Take(0)), Received(0))
  }

  lemma TakeOne(s: State)
    requires s.loops == map[0 := Selecting] && s.mailbox != []
    ensures Next(Next(s, Take(0)), Received(0)) == s.(taken := s.taken + [s.mailbox[0]], mailbox := s.mailbox[1..],
                                                      finished := s.finished + [s.mailbox[0]])
  {
    assert map[0 := Selecting][0 := Receiving(s.mailbox[0])][0 := Selecting] == map[0 := Selecting];
  }

  lemma {:induction false} TakenMoreState(s: State, k: nat)
    requires s.loops == map[0 := Selecting] && k <= |s.mailbox|
    ensures TakenMore(s, k) == s.(taken := s.taken + s.mailbox[..k], mailbox := s.mailbox[k..],
                                  finished := s.finished + s.mailbox[..k])
    decreases k
  {
    hide Next;
    if k == 0 {
      assert s.taken + s.mailbox[..0] == s.taken && s.finished + s.mailbox[..0] == s.finished;
    } else {
      TakenMoreState(s, k - 1);
      TakeOne(TakenMore(s, k - 1));
      assert s.mailbox[k - 1..][1..] == s.mailbox[k..];
      assert s.taken + s.mailbox[..k - 1] + [s.mailbox[k - 1]] == s.taken + s.mailbox[..k];
      assert s.finished + s.mailbox[..k - 1] + [s.mailbox[k - 1]] == s.finished + s.mailbox[..k];
    }
  }

  /** What the run loop does after StopBegin is up to its select: it may still receive messages before it sees
      that the context is cancelled. */
  function StopSteps(s: State, more: nat): State {
    var received := TakenMore(Next(s, StopBegin), more);
    var exited := if s.wg > 0 then Next(received, LoopExit(0)) else received;
    Next(Next(exited, StopWaited), StopEnd)
  }

  lemma ExitSteps(s: State)
    requires s.writer.Stopping? && s.cancelled && !s.running
    requires s.wg <= 1 && s.loops == if s.wg == 0 then map[] else map[0 := Selecting]
    ensures var exited := if s.wg > 0 then Next(s, LoopExit(0)) else s;
            Next(Next(exited, StopWaited), StopEnd) == s.(wg := 0, loops := map[], writer := NoWriter)
  {
    assert map[0 := Selecting] - {0} == map[];
  }

  lemma StopStepsState(s: State, more: nat)
    requires s.writer.NoWriter? && s.tells == map[] && s.running && more <= |s.mailbox|
    requires s.wg <= 1 && s.loops == if s.wg == 0 then map[] else map[0 := Selecting]
    requires s.wg == 0 ==> more == 0
    ensures StopSteps(s, more) == s.(running := false, cancelled := true, wg := 0, loops := map[],
                                     taken := s.taken + s.mailbox[..more], mailbox := s.mailbox[more..],
                                     finished := s.finished + s.mailbox[..more])
  {
    var stopping := s.(running := false, cancelled := true, writer := Stopping);
    assert Next(s, StopBegin) == stopping;
    hide Next;
    if s.wg > 0 {
      TakenMoreState(stopping, more);
    } else {
      assert s.taken + s.mailbox[..0] == s.taken && s.finished + s.mailbox[..0] == s.finished;
    }
    ExitSteps(TakenMore(stopping, more));
  }

  lemma TellSteps(s: State, t: nat, m: Msg)
    requires s.writer.NoWriter? && s.tells == map[] && s.running
    ensures var begun := Next(s, TellBegin(t, m));
            && Next(begun, TellTimeout(t)) == s
            && (|s.mailbox| < s.capacity ==>
                  Next(begun, TellSend(t)) == s.(mailbox := s.mailbox + [m], accepted := s.accepted + [m]))
            && (s.capacity == 0 && s.loops == map[0 := Selecting] ==>
                  Next(Next(begun, TellHandoff(t, 0)), Received(0))
                  == s.(accepted := s.accepted + [m], taken := s.taken + [m], finished := s.finished + [m]))
  {
    assert map[t := m] - {t} == map[];
    assert map[0 := Selecting][0 := Receiving(m)][0 := Selecting] == map[0 := Selecting];
  }

  /** The actor between calls, with its run loop, if any, waiting in its select. */
  class BaseActor {
    const capacity: nat
    var running: bool
    var cancelled: bool
    var mailbox: seq<Msg>
    var wg: nat

    ghost var accepted: seq<Msg>
    ghost var taken: seq<Msg>
    ghost var finished: seq<Msg>

    ghost function View(): State
      reads this
    {
      State(capacity, running, cancelled, mailbox, wg, if wg == 0 then map[] else map[0 := Selecting], NoWriter, map[],
            accepted, taken, finished)
    }

    ghost predicate Valid()
      reads this
    {
      Fifo(View()) && Locked(View()) && Serial(View())
    }

    constructor (capacity: nat)
      ensures Valid() && View() == Init(capacity)
    {
      this.capacity := capacity;
      running, cancelled, mailbox, wg := false, false, [], 0;
      accepted, taken, finished := [], [], [];
    }

    method Start() returns (ok: bool)
      requires Valid()
      modifies this
      ensures Valid() && ok == !old(running)
      ensures ok ==> running && wg == 1
      ensures View() == if ok then Next(Next(old(View()), StartBegin(0)), StartEnd) else old(View())
    {
      if running {
        return false;
      }
      running := true;
      wg := wg + 1;
      ok := true;
    }

    /** `fits` is whether the send goes through before the timeout; with a full mailbox, or a mailbox of no
        capacity and no run loop, it does not. */
    method Tell(t: nat, m: Msg, fits: bool) returns (ok: bool)
      requires Valid()
      modifies this
      ensures Valid()
      ensures ok == (old(running) && fits && (|old(mailbox)| < capacity || (capacity == 0 && old(wg) > 0)))
      ensures var begun := Next(old(View()), TellBegin(t, m));
              View() == if !old(running) then old(View())
                        else if !ok then Next(begun, TellTimeout(t))
                        else if capacity > 0 then Next(begun, TellSend(t))
                        else Next(Next(begun, TellHandoff(t, 0)), Received(0))
    {
      if running {
        TellSteps(View(), t, m);
      }
      hide Next;
      ok := running && fits && (|mailbox| < capacity || (capacity == 0 && wg > 0));
      if ok && capacity > 0 {
        assert taken + (mailbox + [m]) == taken + mailbox + [m];
        mailbox := mailbox + [m];
        accepted := accepted + [m];
      } else if ok {
        assert mailbox == [];
        accepted, taken, finished := accepted + [m], taken + [m], finished + [m];
      }
    }

    /** One round of the run loop that finds a message. */
    method ReceiveOne() returns (m: Msg)
      requires Valid() && wg > 0 && mailbox != []
      modifies this
      ensures Valid() && m == old(mailbox)[0]
      ensures View() == Next(Next(old(View()), Take(0)), Received(0))
    {
      NextFifo(View(), Take(0));
      m := mailbox[0];
      mailbox := mailbox[1..];
      taken, finished := taken + [m], finished + [m];
      assert map[0 := Selecting][0 := Receiving(m)][0 := Selecting] == map[0 := Selecting];
    }

    /** Before it sees the cancelled context, the run loop, if there still is one, takes `more` messages. */
    method Stop(more: nat)
      requires Valid()
      requires more <= |mailbox| && (wg == 0 ==> more == 0)
      modifies this
      ensures Valid() && !running && wg == 0
      ensures View() == if old(running) then StopSteps(old(View()), more) else old(View())
      ensures old(running) ==> taken == old(taken) + old(mailbox)[..more] && mailbox == old(mailbox)[more..]
    {
      if !running {
        return;
      }
      StopStepsState(View(), more);
      hide StopSteps;
      running := false;
      cancelled := true;
      ReceiveMore(more);
      if wg > 0 {
        wg := wg - 1;
      }
    }

    /** The run loop while it has not seen the cancelled context. */
    method ReceiveMore(more: nat)
      requires more <= |mailbox|
      modifies this`mailbox, this`taken, this`finished
      ensures finished == old(finished) + old(mailbox)[..more]
      ensures taken == old(taken) + old(mailbox)[..more] && mailbox == old(mailbox)[more..]
      ensures taken + mailbox == old(taken + mailbox)
    {
      for i := 0 to more
        invariant mailbox == old(mailbox)[i..] && taken == old(taken) + old(mailbox)[..i]
        invariant finished == old(finished) + old(mailbox)[..i]
      {
        taken, finished, mailbox := taken + [mailbox[0]], finished + [mailbox[0]], mailbox[1..];
      }
      assert old(mailbox) == old(mailbox)[..more] + old(mailbox)[more..];
    }
  }
}
