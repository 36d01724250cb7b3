/** The keepalive watchdog: the two QTimers of JanusWebSocket, the socket state they look at, and the
    table of unanswered keepalives of JanusVideoRoomManager, as a timed protocol.

    Timers are exact: time may not pass the due time of an active timer, and the timer fires at it. */
module Watchdog {
  import opened Sequences

  type Tran = string

  const PING_INTERVAL: nat := 25000
  const PING_TIMEOUT: nat := 60000

  datatype SocketState = Unconnected | Connecting | Connected | Closing

  /** A repeating QTimer: `Start()` without an argument reuses the interval last configured, which is
      0 for a timer that never had one. */
  datatype Timer = Timer(interval: nat, active: bool, due: nat) {
    function StartWith(ms: nat, now: nat): Timer { Timer(ms, true, now + ms) }
    function Start(now: nat): Timer { StartWith(interval, now) }
    function Stop(): Timer { this.(active := false) }
  }

  /** `pending` holds the ack callbacks, each with the time its keepalive was sent. */
  datatype Watch = Watch(now: nat, socket: SocketState, ping: Timer, timeout: Timer, pending: map<Tran, nat>)

  const IDLE := Timer(0, false, 0)
  const INITIAL := Watch(0, Unconnected, IDLE, IDLE, map[])

  // ---- the slots -------------------------------------------------------------------------------

  function Open(w: Watch): Watch {
    w.(socket := Connecting, ping := w.ping.StartWith(PING_INTERVAL, w.now))
  }

  function Shut(s: SocketState): SocketState {
    if s != Unconnected then Closing else s
  }

  function Close(w: Watch): Watch {
    w.(socket := Shut(w.socket), ping := w.ping.Stop(), timeout := w.timeout.Stop())
  }

  function OnPingTimer(w: Watch, tran: Tran): Watch {
    if w.socket == Connected then
      w.(timeout := if w.timeout.active then w.timeout else w.timeout.StartWith(PING_TIMEOUT, w.now),
         pending := w.pending[tran := w.now])
    else
      w.(timeout := w.timeout.Stop())
  }

  function OnPingTimeout(w: Watch): Watch {
    Close(w)
  }

  function OnAck(w: Watch, tran: Tran): Watch {
    if tran in w.pending then
      w.(pending := w.pending - {tran}, timeout := w.timeout.Stop().Start(w.now))
    else
      w
  }

  // ---- runs ------------------------------------------------------------------------------------

  datatype Event =
    | Elapse(ms: nat)
    | PingTick(tran: Tran)
    | TimeoutTick
    | Ack(tran: Tran)
    | SocketUp
    | SocketDown
    | UserOpen
    | UserClose

  predicate MayElapse(w: Watch, ms: nat) {
    && (w.ping.active ==> w.now + ms <= w.ping.due)
    && (w.timeout.active ==> w.now + ms <= w.timeout.due)
  }

  /** Keepalive transactions are random; they are taken not to collide with a pending one. */
  predicate Enabled(w: Watch, e: Event) {
    match e
    case Elapse(ms) => MayElapse(w, ms)
    case PingTick(tran) => w.ping.active && w.ping.due == w.now && tran !in w.pending
    case TimeoutTick => w.timeout.active && w.timeout.due == w.now
    case Ack(_) => true
    case SocketUp => w.socket == Connecting
    case SocketDown => w.socket != Unconnected
    case UserOpen => true
    case UserClose => true
  }

  /** A QTimer that fires is restarted before its slot runs. */
  function Step(w: Watch, e: Event): Watch {
    match e
    case Elapse(ms) => w.(now := w.now + ms)
    case PingTick(tran) => OnPingTimer(w.(ping := w.ping.Start(w.now)), tran)
    case TimeoutTick => OnPingTimeout(w.(timeout := w.timeout.Start(w.now)))
    case Ack(tran) => OnAck(w, tran)
    case SocketUp => w.(socket := Connected)
    case SocketDown => w.(socket := Unconnected)
    case UserOpen => Open(w)
    case UserClose => Close(w)
  }

  ghost predicate IsRun(w: Watch, es: seq<Event>)
    decreases es
  {
    es != [] ==> Enabled(w, es[0]) && IsRun(Step(w, es[0]), es[1..])
  }

  ghost function Final(w: Watch, es: seq<Event>): Watch
    decreases es
  {
    if es == [] then w else Final(Step(w, es[0]), es[1..])
  }

  lemma {:induction false} RunsCompose(w: Watch, es: seq<Event>, fs: seq<Event>)
    requires IsRun(w, es) && IsRun(Final(w, es), fs)
    ensures IsRun(w, es + fs) && Final(w, es + fs) == Final(Final(w, es), fs)
    decreases es
  {
    if es == [] {
      assert es + fs == fs;
    } else {
      assert (es + fs)[1..] == es[1..] + fs;
      RunsCompose(Step(w, es[0]), es[1..], fs);
    }
  }

  /** These events lead from the start to this state. */
  ghost predicate Recorded(es: seq<Event>, w: Watch) {
    IsRun(INITIAL, es) && Final(INITIAL, es) == w
  }

  lemma RecordStep(es: seq<Event>, w: Watch, e: Event)
    requires Recorded(es, w) && Enabled(w, e)
    ensures Recorded(es + [e], Step(w, e))
  {
    assert [e][1..] == [];
    RunsCompose(INITIAL, es, [e]);
  }

  // ---- what every run keeps --------------------------------------------------------------------

  /** An active timer carries its configured interval and is never overdue, and an ack callback can be
      pending only once the timeout timer has been configured. */
  ghost predicate TimersOk(w: Watch) {
    && (w.ping.active ==> w.ping.interval == PING_INTERVAL && w.now <= w.ping.due <= w.now + PING_INTERVAL)
    && (w.timeout.active ==> w.timeout.interval == PING_TIMEOUT && w.now <= w.timeout.due <= w.now + PING_TIMEOUT)
    && (w.pending != map[] ==> w.timeout.interval == PING_TIMEOUT)
    && (forall t | t in w.pending :: w.pending[t] <= w.now)
  }

  lemma TimersOkStep(w: Watch, e: Event)
    requires TimersOk(w) && Enabled(w, e)
    ensures TimersOk(Step(w, e))
  {
  }

  lemma {:induction false} TimersStayOk(w: Watch, es: seq<Event>)
    requires TimersOk(w) && IsRun(w, es)
    ensures TimersOk(Final(w, es))
    decreases es
  {
    if es != [] {
      TimersOkStep(w, es[0]);
      TimersStayOk(Step(w, es[0]), es[1..]);
    }
  }

  /** In every reachable state the argument-less restart made by a matched ack arms the timeout timer
      for the full 60000 ms: it never starts an unconfigured timer. */
  lemma RestartIsConfigured(es: seq<Event>, tran: Tran)
    requires IsRun(INITIAL, es) && tran in Final(INITIAL, es).pending
    ensures var w := Final(INITIAL, es); Step(w, Ack(tran)).timeout == Timer(PING_TIMEOUT, true, w.now + PING_TIMEOUT)
  {
    TimersStayOk(INITIAL, es);
  }

  // ---- keepalive accounting ---------------------------------------------------------------------

  function Sends(w: Watch, e: Event): multiset<Tran> {
    if e.PingTick? && w.socket == Connected then multiset{e.tran} else multiset{}
  }

  function Answers(w: Watch, e: Event): multiset<Tran> {
    if e.Ack? && e.tran in w.pending then multiset{e.tran} else multiset{}
  }

  ghost function AllSent(w: Watch, es: seq<Event>): multiset<Tran>
    decreases es
  {
    if es == [] then multiset{} else Sends(w, es[0]) + AllSent(Step(w, es[0]), es[1..])
  }

  ghost function AllAnswered(w: Watch, es: seq<Event>): multiset<Tran>
    decreases es
  {
    if es == [] then multiset{} else Answers(w, es[0]) + AllAnswered(Step(w, es[0]), es[1..])
  }

  lemma KeepaliveStep(w: Watch, e: Event)
    requires Enabled(w, e)
    ensures multiset(w.pending.Keys) + Sends(w, e) == Answers(w, e) + multiset(Step(w, e).pending.Keys)
  {
    var w' := Step(w, e);
    if Sends(w, e) != multiset{} {
      assert w'.pending.Keys == w.pending.Keys + {e.tran};
    } else if Answers(w, e) != multiset{} {
      assert w.pending.Keys == w'.pending.Keys + {e.tran};
    } else {
      assert w'.pending == w.pending;
    }
  }

  /** Keepalives are conserved: over any run, those pending at the start and those sent are exactly
      those answered and those still pending, transaction by transaction. */
  lemma {:induction false} KeepalivesConserved(w: Watch, es: seq<Event>)
    requires IsRun(w, es)
    ensures multiset(w.pending.Keys) + AllSent(w, es) == AllAnswered(w, es) + multiset(Final(w, es).pending.Keys)
    decreases es
  {
    if es == [] {
      assert multiset(w.pending.Keys) + multiset{} == multiset{} + multiset(w.pending.Keys);
    } else {
      var w', rest := Step(w, es[0]), es[1..];
      KeepaliveStep(w, es[0]);
      KeepalivesConserved(w', rest);
      var kept, sent, answered := multiset(w.pending.Keys), Sends(w, es[0]), Answers(w, es[0]);
      assert kept + (sent + AllSent(w', rest)) == (kept + sent) + AllSent(w', rest);
      assert (answered + AllAnswered(w', rest)) + multiset(Final(w', rest).pending.Keys)
          == answered + (AllAnswered(w', rest) + multiset(Final(w', rest).pending.Keys));
      assert (answered + multiset(w'.pending.Keys)) + AllSent(w', rest)
          == answered + (multiset(w'.pending.Keys) + AllSent(w', rest));
    }
  }

  /** The size of the ack table is the number of keepalives sent minus the number answered. */
  lemma AckTableSize(es: seq<Event>)
    requires IsRun(INITIAL, es)
    ensures |Final(INITIAL, es).pending| == |AllSent(INITIAL, es)| - |AllAnswered(INITIAL, es)|
  {
    KeepalivesConserved(INITIAL, es);
    var keys := Final(INITIAL, es).pending.Keys;
    assert |AllAnswered(INITIAL, es) + multiset(keys)| == |AllAnswered(INITIAL, es)| + |keys|;
    assert multiset(INITIAL.pending.Keys) == multiset{};
  }

  function Due(t: Timer, now: nat): nat { if t.active && t.due == now then 1 else 0 }

  // ---- safety: prompt acks keep the connection ---------------------------------------------------

  const SLACK: nat := PING_TIMEOUT - PING_INTERVAL

  /** The events of a connection that stays up: no close, no reopening, no disconnection. */
  predicate StaysUp(e: Event) {
    !(e.SocketDown? || e.UserOpen? || e.UserClose?)
  }

  /** No keepalive sent after `since` has been waiting longer than `d`. */
  ghost predicate InTime(w: Watch, since: nat, d: nat) {
    forall t | t in w.pending && since < w.pending[t] :: w.now <= w.pending[t] + d
  }

  /** `InTime` in every state of the run: every keepalive is answered within `d`. Acks may come in any
      order, be repeated, or name transactions never sent. */
  ghost predicate Prompt(w: Watch, es: seq<Event>, since: nat, d: nat)
    decreases es
  {
    InTime(w, since, d) && (es != [] ==> Prompt(Step(w, es[0]), es[1..], since, d))
  }

  /** A connection just opened. Of earlier connections there may be stale callbacks in the table, and a
      timeout timer still running: opening restarts the ping timer only. */
  ghost predicate Opened(w: Watch) {
    TimersOk(w) && w.socket in {Connecting, Connected} && w.ping.active && w.ping.due == w.now + PING_INTERVAL
  }

  /** Opening gives such a connection from every reachable state, and leaves the timeout timer as it is;
      only a close before it is sure to stop that timer. */
  lemma OpeningKeepsTheTimer(w: Watch)
    requires TimersOk(w)
    ensures Opened(Step(w, UserOpen)) && Step(w, UserOpen).timeout == w.timeout
    ensures !Step(Step(w, UserClose), UserOpen).timeout.active
  {
  }

  /** A run of a connection opened at `w`, kept up and promptly answered. */
  ghost predicate Healthy(w: Watch, es: seq<Event>, d: nat) {
    Opened(w) && IsRun(w, es) && Prompt(w, es, w.now, d) && forall e | e in es :: StaysUp(e)
  }

  /** A timeout timer that is running is due late enough for the first answer of this connection. */
  predicate LeftInTime(w: Watch, d: nat) {
    w.timeout.active ==> w.now + PING_INTERVAL + d < w.timeout.due
  }

  /** The induction: the timeout timer is due more than `d` after some unanswered keepalive, or after the
      keepalive still to come. */
  ghost predicate Guarded(w: Watch, since: nat, d: nat) {
    && TimersOk(w)
    && w.socket in {Connecting, Connected}
    && w.ping.active && since < w.ping.due
    && (w.timeout.active ==>
          || w.ping.due + d < w.timeout.due
          || exists t :: t in w.pending && since < w.pending[t] && w.pending[t] + d < w.timeout.due)
  }

  lemma GuardedStep(w: Watch, e: Event, since: nat, d: nat)
    requires Guarded(w, since, d) && InTime(w, since, d) && d < SLACK
    requires Enabled(w, e) && StaysUp(e)
    ensures e != TimeoutTick && Guarded(Step(w, e), since, d)
  {
    var w' := Step(w, e);
    if w.timeout.active && w.ping.due + d >= w.timeout.due {
      var t :| t in w.pending && since < w.pending[t] && w.pending[t] + d < w.timeout.due;
      assert t in w'.pending || (e.Ack? && e.tran == t);
    }
    if e.PingTick? && w.socket == Connected {
      assert e.tran in w'.pending && w'.pending[e.tran] == w.now;
    }
  }

  lemma {:induction false} PromptAcksKeepTheConnection(w: Watch, es: seq<Event>, since: nat, d: nat)
    requires Guarded(w, since, d) && d < SLACK
    requires IsRun(w, es) && Prompt(w, es, since, d) && (forall e | e in es :: StaysUp(e))
    ensures TimeoutTick !in es && Guarded(Final(w, es), since, d)
    decreases es
  {
    if es != [] {
      GuardedStep(w, es[0], since, d);
      PromptAcksKeepTheConnection(Step(w, es[0]), es[1..], since, d);
      assert es == [es[0]] + es[1..];
    }
  }

  /** `rest` can follow `e`. */
  lemma PromptCons(w: Watch, e: Event, rest: seq<Event>, since: nat, d: nat)
    requires Enabled(w, e) && InTime(w, since, d) && StaysUp(e)
    requires IsRun(Step(w, e), rest) && Prompt(Step(w, e), rest, since, d) && forall f | f in rest :: StaysUp(f)
    ensures var es := [e] + rest; IsRun(w, es) && Prompt(w, es, since, d) && forall f | f in es :: StaysUp(f)
  {
    assert ([e] + rest)[1..] == rest;
  }

  /** The timeout timer runs out in some prompt run when no keepalive, sent or to come, needs an answer
      before it is due. */
  lemma {:induction false} TimerRunsOut(w: Watch, since: nat, d: nat) returns (es: seq<Event>)
    requires TimersOk(w) && w.socket == Connected && w.ping.active && w.timeout.active
    requires w.timeout.due <= w.ping.due + d
    requires forall t | t in w.pending && since < w.pending[t] :: w.timeout.due <= w.pending[t] + d
    ensures IsRun(w, es) && Prompt(w, es, since, d) && (forall e | e in es :: StaysUp(e)) && TimeoutTick in es
    decreases w.timeout.due - w.now, Due(w.ping, w.now)
  {
    var e, rest := TimeoutTick, [];
    if w.timeout.due > w.now {
      if w.ping.due == w.now {
        var a := UnusedString(w.pending.Keys);
        e := PingTick(a);
      } else {
        e := Elapse((if w.ping.due < w.timeout.due then w.ping.due else w.timeout.due) - w.now);
      }
      TimersOkStep(w, e);
      rest := TimerRunsOut(Step(w, e), since, d);
    }
    PromptCons(w, e, rest, since, d);
    es := [e] + rest;
  }

  /** A keepalive answered at once leaves the timer due 60000 ms later, 35000 ms after the next one. */
  lemma AnsweredAtOnce(w: Watch, since: nat, d: nat) returns (es: seq<Event>)
    requires TimersOk(w) && w.socket == Connected && w.ping.active && w.ping.due == w.now && since < w.now
    requires (forall t | t in w.pending :: w.pending[t] <= since) && SLACK <= d
    ensures IsRun(w, es) && Prompt(w, es, since, d) && (forall e | e in es :: StaysUp(e)) && TimeoutTick in es
  {
    var a := UnusedString(w.pending.Keys);
    var w1, w2 := Step(w, PingTick(a)), Step(Step(w, PingTick(a)), Ack(a));
    TimersOkStep(w, PingTick(a));
    TimersOkStep(w1, Ack(a));
    es := TimerRunsOut(w2, since, d);
    PromptCons(w1, Ack(a), es, since, d);
    es := [Ack(a)] + es;
    PromptCons(w, PingTick(a), es, since, d);
    es := [PingTick(a)] + es;
  }

  lemma LosesTheConnection(w: Watch, d: nat) returns (es: seq<Event>)
    requires Opened(w) && w.socket == Connected && !(d < SLACK && LeftInTime(w, d))
    ensures Healthy(w, es, d) && TimeoutTick in es
  {
    if w.timeout.active {
      es := TimerRunsOut(w, w.now, d);
    } else {
      var w1 := Step(w, Elapse(PING_INTERVAL));
      TimersOkStep(w, Elapse(PING_INTERVAL));
      es := AnsweredAtOnce(w1, w.now, d);
      PromptCons(w, Elapse(PING_INTERVAL), es, w.now, d);
      es := [Elapse(PING_INTERVAL)] + es;
    }
  }

  lemma LateAcksLoseTheConnection(w: Watch, d: nat) returns (es: seq<Event>)
    requires Opened(w) && !(d < SLACK && LeftInTime(w, d))
    ensures Healthy(w, es, d) && TimeoutTick in es
  {
    if w.socket == Connected {
      es := LosesTheConnection(w, d);
    } else {
      es := LosesTheConnection(Step(w, SocketUp), d);
      PromptCons(w, SocketUp, es, w.now, d);
      es := [SocketUp] + es;
    }
  }

  /** Exactly when a bound on the ack delay protects a connection, however it was opened: 25000 + d < 60000,
      and a timer left running by an earlier connection is due after the first answer of this one. */
  lemma TimeoutIsSafeExactly(w: Watch, d: nat)
    requires Opened(w)
    ensures (forall es :: Healthy(w, es, d) ==> TimeoutTick !in es)
       <==> PING_INTERVAL + d < PING_TIMEOUT && LeftInTime(w, d)
  {
    if PING_INTERVAL + d < PING_TIMEOUT && LeftInTime(w, d) {
      forall es | Healthy(w, es, d) ensures TimeoutTick !in es {
        PromptAcksKeepTheConnection(w, es, w.now, d);
      }
    } else {
      var es := LateAcksLoseTheConnection(w, d);
    }
  }

  /** Whatever the bound, logging in again can defeat it: every keepalive was answered at once, the socket
      went down and was reopened twice within 25000 ms, and the timer of the first connection, never
      stopped and never reset, closes the third. */
  lemma ReopeningDefeatsEveryBound(d: nat)
    ensures exists es, fs :: IsRun(INITIAL, es) && Healthy(Final(INITIAL, es), fs, d) && TimeoutTick in fs
  {
    var a := "a";
    var w1 := Watch(25000, Connected, Timer(25000, true, 50000), Timer(60000, true, 85000), map[]);
    var es1 := [UserOpen, SocketUp, Elapse(25000), PingTick(a), Ack(a)];
    FirstConnection(es1, w1, a);
    var w2 := Watch(49000, Connected, Timer(25000, true, 74000), Timer(60000, true, 85000), map[]);
    var w3 := Watch(73000, Connected, Timer(25000, true, 98000), Timer(60000, true, 85000), map[]);
    var again := [Elapse(24000), SocketDown, UserOpen, SocketUp];
    Reopened(w1, again);
    Reopened(w2, again);
    RunsCompose(INITIAL, es1, again);
    RunsCompose(INITIAL, es1 + again, again);
    var fs := LateAcksLoseTheConnection(w3, d);
    assert Final(INITIAL, es1 + again + again) == w3;
  }

  lemma RunCons(w: Watch, e: Event, rest: seq<Event>)
    requires Enabled(w, e) && IsRun(Step(w, e), rest)
    ensures IsRun(w, [e] + rest) && Final(w, [e] + rest) == Final(Step(w, e), rest)
  {
    assert ([e] + rest)[1..] == rest;
  }

  lemma FirstConnection(es: seq<Event>, w: Watch, a: Tran)
    requires es == [UserOpen, SocketUp, Elapse(25000), PingTick(a), Ack(a)]
    requires w == Watch(25000, Connected, Timer(25000, true, 50000), Timer(60000, true, 85000), map[])
    ensures IsRun(INITIAL, es) && Final(INITIAL, es) == w
  {
    var w1 := Step(INITIAL, UserOpen);
    var w2 := Step(w1, SocketUp);
    var w3 := Step(w2, Elapse(25000));
    var w4 := Step(w3, PingTick(a));
    assert w4.pending - {a} == map[];
    RunCons(w4, Ack(a), []);
    RunCons(w3, PingTick(a), [Ack(a)]);
    RunCons(w2, Elapse(25000), [PingTick(a), Ack(a)]);
    RunCons(w1, SocketUp, [Elapse(25000), PingTick(a), Ack(a)]);
    RunCons(INITIAL, UserOpen, [SocketUp, Elapse(25000), PingTick(a), Ack(a)]);
    assert es == [UserOpen] + [SocketUp, Elapse(25000), PingTick(a), Ack(a)];
  }

  /** A disconnection and a new login before the next ping. */
  lemma Reopened(w: Watch, es: seq<Event>)
    requires es == [Elapse(24000), SocketDown, UserOpen, SocketUp]
    requires MayElapse(w, 24000) && w.socket == Connected
    ensures IsRun(w, es)
    ensures Final(w, es) == w.(now := w.now + 24000, ping := w.ping.StartWith(PING_INTERVAL, w.now + 24000))
  {
    var w1 := Step(w, Elapse(24000));
    var w2 := Step(w1, SocketDown);
    RunCons(Step(w2, UserOpen), SocketUp, []);
    RunCons(w2, UserOpen, [SocketUp]);
    RunCons(w1, SocketDown, [UserOpen, SocketUp]);
    RunCons(w, Elapse(24000), [SocketDown, UserOpen, SocketUp]);
    assert es == [Elapse(24000)] + [SocketDown, UserOpen, SocketUp];
  }

  // ---- detection: silence closes the connection ---------------------------------------------------

  /** No outstanding keepalive is answered during the run, and nobody reopens the socket. */
  ghost predicate Silent(w: Watch, es: seq<Event>)
    decreases es
  {
    es != [] ==>
      && !(es[0].Ack? && es[0].tran in w.pending) && !es[0].UserOpen?
      && Silent(Step(w, es[0]), es[1..])
  }

  function Deadline(w: Watch): nat {
    w.now + PING_TIMEOUT + if w.timeout.active then 0 else PING_INTERVAL
  }

  ghost predicate Doomed(w: Watch, deadline: nat) {
    && w.socket != Connecting
    && (w.socket == Connected ==>
          && w.ping.active
          && (if w.timeout.active then w.timeout.due <= deadline else w.ping.due + PING_TIMEOUT <= deadline))
  }

  lemma DoomedStep(w: Watch, e: Event, deadline: nat)
    requires TimersOk(w) && Doomed(w, deadline) && Enabled(w, e)
    requires !(e.Ack? && e.tran in w.pending) && !e.UserOpen?
    ensures Doomed(Step(w, e), deadline)
  {
  }

  lemma {:induction false} SilenceDooms(w: Watch, es: seq<Event>, deadline: nat)
    requires TimersOk(w) && Doomed(w, deadline) && IsRun(w, es) && Silent(w, es)
    ensures TimersOk(Final(w, es)) && Doomed(Final(w, es), deadline)
    decreases es
  {
    if es != [] {
      TimersOkStep(w, es[0]);
      DoomedStep(w, es[0], deadline);
      SilenceDooms(Step(w, es[0]), es[1..], deadline);
    }
  }

  /** From any state with a live connection, a run without answers that lasts longer than 60000 ms when
      the timeout timer is already active, 85000 ms otherwise, is no longer connected. */
  lemma SilenceIsDetected(w: Watch, es: seq<Event>)
    requires TimersOk(w) && w.socket == Connected && w.ping.active
    requires IsRun(w, es) && Silent(w, es)
    ensures Final(w, es).now > Deadline(w) ==> Final(w, es).socket != Connected
  {
    SilenceDooms(w, es, Deadline(w));
  }

  /** When nothing but the watchdog acts on the socket, it is the watchdog that closed it, and both of
      its timers are stopped. */
  lemma {:induction false} WatchdogStopsItself(w: Watch, es: seq<Event>)
    requires IsRun(w, es) && Silent(w, es) && (forall e | e in es :: StaysUp(e))
    requires (w.socket == Connected && w.ping.active) || (w.socket == Closing && !w.ping.active && !w.timeout.active)
    ensures var f := Final(w, es);
      (f.socket == Connected && f.ping.active) || (f.socket == Closing && !f.ping.active && !f.timeout.active)
    decreases es
  {
    if es != [] {
      assert StaysUp(es[0]);
      WatchdogStopsItself(Step(w, es[0]), es[1..]);
    }
  }

  lemma SilenceClosesAndStops(w: Watch, es: seq<Event>)
    requires TimersOk(w) && w.socket == Connected && w.ping.active
    requires IsRun(w, es) && Silent(w, es) && (forall e | e in es :: StaysUp(e))
    requires Final(w, es).now > Deadline(w)
    ensures var f := Final(w, es); f.socket == Closing && !f.ping.active && !f.timeout.active
  {
    SilenceIsDetected(w, es);
    WatchdogStopsItself(w, es);
  }

  // ---- a socket that is down ----------------------------------------------------------------------

  /** The socket stays down, and a timeout timer that still runs is stopped by the ping before `deadline`. */
  ghost predicate Down(w: Watch, deadline: nat) {
    && w.socket in {Unconnected, Closing}
    && (w.timeout.active ==> w.ping.active && w.ping.due <= deadline)
  }

  lemma DownStep(w: Watch, e: Event, deadline: nat)
    requires TimersOk(w) && Down(w, deadline) && Enabled(w, e)
    requires !(e.Ack? && e.tran in w.pending) && !e.UserOpen?
    ensures Down(Step(w, e), deadline)
  {
  }

  lemma {:induction false} StaysDown(w: Watch, es: seq<Event>, deadline: nat)
    requires TimersOk(w) && Down(w, deadline) && IsRun(w, es) && Silent(w, es)
    ensures TimersOk(Final(w, es)) && Down(Final(w, es), deadline)
    decreases es
  {
    if es != [] {
      TimersOkStep(w, es[0]);
      DownStep(w, es[0], deadline);
      StaysDown(Step(w, es[0]), es[1..], deadline);
    }
  }

  /** The ping timer of a socket that is down stops the timeout timer: one interval later it is not running,
      whenever it was due. */
  lemma DownStopsTheTimer(w: Watch, es: seq<Event>)
    requires TimersOk(w) && w.socket in {Unconnected, Closing} && w.ping.active
    requires IsRun(w, es) && Silent(w, es)
    ensures Final(w, es).socket in {Unconnected, Closing}
    ensures Final(w, es).now > w.now + PING_INTERVAL ==> !Final(w, es).timeout.active
  {
    StaysDown(w, es, w.now + PING_INTERVAL);
  }

  /** Hence a login after a pause of more than one interval is as safe as a first one. */
  lemma SafeAfterAPause(w: Watch, es: seq<Event>, d: nat)
    requires TimersOk(w) && w.socket in {Unconnected, Closing} && w.ping.active
    requires IsRun(w, es) && Silent(w, es) && Final(w, es).now > w.now + PING_INTERVAL
    ensures var again := Step(Final(w, es), UserOpen);
      && Opened(again)
      && ((forall fs :: Healthy(again, fs, d) ==> TimeoutTick !in fs) <==> PING_INTERVAL + d < PING_TIMEOUT)
  {
    DownStopsTheTimer(w, es);
    TimersStayOk(w, es);
    TimeoutIsSafeExactly(Step(Final(w, es), UserOpen), d);
  }

  /** After a close, until the next opening, no timer fires, no keepalive is sent, and the socket is not
      connected; one that was not open is left alone. */
  lemma {:induction false} ClosedStaysQuiet(w: Watch, es: seq<Event>)
    requires !w.ping.active && !w.timeout.active && w.socket in {Unconnected, Closing}
    requires IsRun(w, es) && Silent(w, es)
    ensures var f := Final(w, es);
      && !f.ping.active && !f.timeout.active && f.socket in {Unconnected, Closing}
      && (w.socket == Unconnected ==> f.socket == Unconnected)
    ensures AllSent(w, es) == multiset{} && forall e | e in es :: !e.PingTick? && !e.TimeoutTick?
    decreases es
  {
    if es != [] {
      ClosedStaysQuiet(Step(w, es[0]), es[1..]);
      assert es == [es[0]] + es[1..];
    }
  }

  lemma CloseIsQuiet(w: Watch, es: seq<Event>)
    requires IsRun(Step(w, UserClose), es) && Silent(Step(w, UserClose), es)
    ensures var f := Final(Step(w, UserClose), es);
      && !f.ping.active && !f.timeout.active && f.socket in {Unconnected, Closing}
      && (w.socket == Unconnected ==> f.socket == Unconnected)
    ensures AllSent(Step(w, UserClose), es) == multiset{} && forall e | e in es :: !e.PingTick? && !e.TimeoutTick?
  {
    ClosedStaysQuiet(Step(w, UserClose), es);
  }

  /** Opening connects nothing by itself: until the socket is up, no keepalive is sent. */
  lemma {:induction false} NothingSentBeforeUp(w: Watch, es: seq<Event>)
    requires w.socket != Connected && IsRun(w, es) && SocketUp !in es
    ensures Final(w, es).socket != Connected && AllSent(w, es) == multiset{}
    decreases es
  {
    if es != [] {
      assert es[0] != SocketUp && es[0] in es;
      assert forall e | e in es[1..] :: e in es;
      NothingSentBeforeUp(Step(w, es[0]), es[1..]);
    }
  }

  // ---- time never gets stuck ----------------------------------------------------------------------

  /** Every reachable state has a silent future of any length: the bounds above speak of real runs. */
  lemma {:induction false} TimeDiverges(w: Watch, until: nat) returns (es: seq<Event>)
    requires TimersOk(w) && w.now <= until
    ensures IsRun(w, es) && Silent(w, es) && Final(w, es).now == until
    ensures forall e | e in es :: StaysUp(e)
    decreases until - w.now, Due(w.ping, w.now) + Due(w.timeout, w.now)
  {
    if w.now == until {
      return [];
    }
    var e: Event;
    if Due(w.timeout, w.now) == 1 {
      e := TimeoutTick;
    } else if Due(w.ping, w.now) == 1 {
      var a := UnusedString(w.pending.Keys);
      e := PingTick(a);
    } else {
      var a := if w.ping.active then w.ping.due - w.now else until - w.now;
      var b := if w.timeout.active then w.timeout.due - w.now else until - w.now;
      var c := if a < b then a else b;
      e := Elapse(if c < until - w.now then c else until - w.now);
    }
    TimersOkStep(w, e);
    var rest := TimeDiverges(Step(w, e), until);
    es := [e] + rest;
    assert es[1..] == rest;
  }
}
