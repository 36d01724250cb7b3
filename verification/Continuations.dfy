/** The one-shot success callbacks: each runs at most once and only for its own transaction, and success
    replies quiesce after exactly as many as the pending callbacks still call for. */
module Continuations {
  import opened Wrappers
  import opened Sequences
  import opened Signalling
  import opened Client
  import opened Agreement

  // ---- conservation ------------------------------------------------------------------------------

  /** The callback an event runs. */
  function Runs<P>(cl: Client<P>, e: Event<P>): multiset<Tran> {
    if e.Receive? && e.msg.Success? && e.msg.tran in cl.m.success then multiset{e.msg.tran} else multiset{}
  }

  /** The callback of a create or destroy request sends the request and registers one for its reply. */
  predicate Chains<P>(m: Manager<P>, tran: Tran) {
    tran in m.success && (m.success[tran].VideoCreate? || m.success[tran].VideoDestroy?)
        && m.success[tran].peer in m.peers
  }

  function TransOf<P>(gs: seq<Grant<P>>): (r: seq<Tran>)
    ensures |r| == |gs|
  {
    seq(|gs|, i requires 0 <= i < |gs| => gs[i].tran)
  }

  /** The callbacks an event registers; a callback may itself register the next one. */
  function Registers<P>(cl: Client<P>, e: Event<P>): multiset<Tran> {
    match e
    case SocketConnected(tran) => multiset{tran}
    case Receive(msg, gs, next) =>
      if msg.Success? then (if Chains(cl.m, msg.tran) then multiset{next} else multiset{})
      else if msg.Joined? || msg.RoomEvent? then multiset(TransOf(gs))
      else multiset{}
    case JoinVideo(_, _, g) => multiset{g.tran}
    case JoinText(_, g) => multiset{g.tran}
    case RequestRoom(_, g, _) => multiset{g.tran}
    case _ => multiset{}
  }

  function Pending<P>(cl: Client<P>): multiset<Tran> { multiset(cl.m.success.Keys) }

  ghost function AllRun<P>(cl: Client<P>, es: seq<Event<P>>): multiset<Tran>
    requires Trace(es)
    decreases es
  {
    if es == [] then multiset{} else Runs(cl, es[0]) + AllRun(Step(cl, es[0]), es[1..])
  }

  ghost function AllRegistered<P>(cl: Client<P>, es: seq<Event<P>>): multiset<Tran>
    requires Trace(es)
    decreases es
  {
    if es == [] then multiset{} else Registers(cl, es[0]) + AllRegistered(Step(cl, es[0]), es[1..])
  }

  /** One more callback under a fresh transaction. */
  lemma OneMore<P>(before: map<Tran, Continuation<P>>, after: map<Tran, Continuation<P>>, t: Tran)
    requires t !in before && after.Keys == before.Keys + {t}
    ensures multiset(after.Keys) == multiset(before.Keys) + multiset{t}
  {
  }

  lemma {:induction false} SubscribeAllRegisters<P>(m: Manager<P>, feeds: seq<int>, gs: seq<Grant<P>>)
    requires |gs| == |feeds| && GrantsOk(m, gs)
    ensures multiset(SubscribeAll(m, feeds, gs).success.Keys) == multiset(m.success.Keys) + multiset(TransOf(gs))
    decreases |feeds|
  {
    if feeds == [] {
      assert TransOf(gs) == [];
      assert multiset(m.success.Keys) + multiset{} == multiset(m.success.Keys);
    } else {
      var n := |feeds| - 1;
      var t, ts := gs[n].tran, TransOf(gs[..n]);
      var before, after := SubscribeAll(m, feeds[..n], gs[..n]).success, SubscribeAll(m, feeds, gs).success;
      SubscribeAllRegisters(m, feeds[..n], gs[..n]);
      SubscribeAllUses(m, feeds[..n], gs[..n], gs[n].peer, t);
      OneMore(before, after, t);
      assert TransOf(gs) == ts + [t];
      assert multiset(ts + [t]) == multiset(ts) + multiset{t};
      assert multiset(m.success.Keys) + (multiset(ts) + multiset{t})
          == (multiset(m.success.Keys) + multiset(ts)) + multiset{t};
    }
  }

  lemma Exchange(before: multiset<Tran>, after: multiset<Tran>, kept: multiset<Tran>,
                 run: multiset<Tran>, registered: multiset<Tran>)
    requires before == kept + run && after == kept + registered
    ensures before + registered == run + after
  {
  }

  /** A reply erases its callback, which may register one more. */
  lemma SuccessTable<P>(m: Manager<P>, tran: Tran, id: int, next: Tran)
    requires tran in m.success && next !in m.success
    ensures var after := MessageSuccess(m, tran, id, next).success;
      multiset(after.Keys) == multiset((m.success - {tran}).Keys)
          + (if Chains(m, tran) then multiset{next} else multiset{})
  {
    var after, erased := MessageSuccess(m, tran, id, next).success, m.success - {tran};
    if Chains(m, tran) {
      assert after.Keys == erased.Keys + {next};
      OneMore(erased, after, next);
    } else {
      assert after == erased;
    }
  }

  lemma SuccessConserves<P>(cl: Client<P>, e: Event<P>)
    requires Supplied(cl.m, e) && e.Receive? && e.msg.Success?
    ensures Pending(cl) + Registers(cl, e) == Runs(cl, e) + Pending(Step(cl, e))
  {
    var before := cl.m.success;
    if e.msg.tran in before {
      var erased := before - {e.msg.tran};
      OneMore(erased, before, e.msg.tran);
      SuccessTable(cl.m, e.msg.tran, e.msg.id, e.next);
      Exchange(Pending(cl), Pending(Step(cl, e)), multiset(erased.Keys), Runs(cl, e), Registers(cl, e));
    }
  }

  lemma AnnouncementRegisters<P>(cl: Client<P>, e: Event<P>)
    requires Supplied(cl.m, e) && e.Receive? && (e.msg.Joined? || e.msg.RoomEvent?)
    ensures Pending(Step(cl, e)) == Pending(cl) + multiset(TransOf(e.grants))
  {
    SubscribeAllRegisters(cl.m.(privateId := e.msg.privateId), Announced(e.msg.ids), e.grants);
    if e.msg.RoomEvent? {
      RoomEventStep(cl, e);
    }
    assert Step(cl, e).m.success == Publishers(cl.m, e.msg.privateId, e.msg.ids, e.grants).success;
  }

  lemma CommandRegisters<P>(cl: Client<P>, e: Event<P>)
    requires Supplied(cl.m, e) && (e.JoinVideo? || e.JoinText? || e.RequestRoom?)
    ensures Pending(Step(cl, e)) == Pending(cl) + multiset{e.grant.tran}
  {
    OneMore(cl.m.success, Step(cl, e).m.success, e.grant.tran);
  }

  /** What an event other than a reply registers. */
  lemma OtherRegisters<P>(cl: Client<P>, e: Event<P>)
    requires Supplied(cl.m, e) && !(e.Receive? && e.msg.Success?)
    ensures Pending(Step(cl, e)) == Pending(cl) + Registers(cl, e)
  {
    if e.Receive? && (e.msg.Joined? || e.msg.RoomEvent?) {
      AnnouncementRegisters(cl, e);
    } else if e.JoinVideo? || e.JoinText? || e.RequestRoom? {
      CommandRegisters(cl, e);
    } else if e.SocketConnected? {
      OneMore(cl.m.success, Step(cl, e).m.success, e.tran);
    } else {
      OthersKeepTable(cl, e);
    }
  }

  lemma StepConserves<P>(cl: Client<P>, e: Event<P>)
    requires Supplied(cl.m, e)
    ensures Pending(cl) + Registers(cl, e) == Runs(cl, e) + Pending(Step(cl, e))
  {
    if e.Receive? && e.msg.Success? {
      SuccessConserves(cl, e);
    } else {
      OtherRegisters(cl, e);
      Exchange(Pending(cl), Pending(Step(cl, e)), Pending(cl), multiset{}, Registers(cl, e));
    }
  }

  lemma OthersKeepTable<P>(cl: Client<P>, e: Event<P>)
    requires WellFormed(e) && !e.SocketConnected? && !e.JoinVideo? && !e.JoinText? && !e.RequestRoom?
    requires e.Receive? ==> !e.msg.Success? && !e.msg.Joined? && !e.msg.RoomEvent?
    ensures Step(cl, e).m.success == cl.m.success
  {
    if e.LocalSdpReady? || e.CandidateGathered? {
      LocalSignalsOnlySend(cl, e);
    }
  }

  lemma TablesChain(before: multiset<Tran>, between: multiset<Tran>, after: multiset<Tran>, in1: multiset<Tran>,
                    in2: multiset<Tran>, out1: multiset<Tran>, out2: multiset<Tran>)
    requires before + in1 == out1 + between && between + in2 == out2 + after
    ensures before + (in1 + in2) == (out1 + out2) + after
  {
    forall t ensures (before + (in1 + in2))[t] == ((out1 + out2) + after)[t] {
      assert (before + in1)[t] == (out1 + between)[t] && (between + in2)[t] == (out2 + after)[t];
    }
  }

  /** Over any run, the callbacks pending at the start and those registered are exactly those run and
      those still pending, transaction by transaction. */
  lemma {:induction false} CallbacksConserved<P>(cl: Client<P>, es: seq<Event<P>>)
    requires Trace(es) && SuppliedRun(cl, es)
    ensures Pending(cl) + AllRegistered(cl, es) == AllRun(cl, es) + Pending(Final(cl, es))
    decreases es
  {
    if es == [] {
      assert Pending(cl) + multiset{} == multiset{} + Pending(cl);
    } else {
      var cl', rest := Step(cl, es[0]), es[1..];
      StepConserves(cl, es[0]);
      CallbacksConserved(cl', rest);
      TablesChain(Pending(cl), Pending(cl'), Pending(Final(cl', rest)), Registers(cl, es[0]), AllRegistered(cl', rest),
                  Runs(cl, es[0]), AllRun(cl', rest));
    }
  }

  /** When no transaction is drawn twice, every callback runs at most once over the whole run, and only
      if it was registered. */
  lemma EachCallbackRunsOnce<P>(es: seq<Event<P>>, t: Tran)
    requires Trace(es) && SuppliedRun(Initial(), es)
    requires AllRegistered(Initial(), es)[t] <= 1
    ensures AllRun(Initial(), es)[t] <= AllRegistered(Initial(), es)[t]
    ensures AllRun(Initial(), es)[t] == 1 ==> t !in Final(Initial(), es).m.success
  {
    CallbacksConserved(Initial(), es);
    var left := Pending(Initial<P>()) + AllRegistered(Initial(), es);
    assert Pending(Initial<P>()) == multiset{};
    assert left[t] == AllRun(Initial(), es)[t] + Pending(Final(Initial(), es))[t];
  }

  /** A reply that arrives twice, or was never asked for, changes nothing. */
  lemma RepliesAreIdempotent<P>(cl: Client<P>, tran: Tran, id: int, id': int, next: Tran, next': Tran)
    requires next !in cl.m.success && next != tran
    ensures var once := Step(cl, Receive(Success(tran, id), [], next));
      && Step(once, Receive(Success(tran, id'), [], next')) == once
      && (tran !in cl.m.success ==> once == cl)
  {
  }

  // ---- the potential -----------------------------------------------------------------------------

  /** How many success replies a callback still calls for, its own included. */
  function Rank<P>(c: Continuation<P>): nat {
    if c.VideoCreate? || c.VideoDestroy? then 2 else 1
  }

  ghost function Total<P>(table: map<Tran, Continuation<P>>): nat
    decreases |table|
  {
    if table == map[] then 0
    else
      var t :| t in table;
      Rank(table[t]) + Total(table - {t})
  }

  lemma {:induction false} TotalWithout<P>(table: map<Tran, Continuation<P>>, t: Tran)
    requires t in table
    ensures Total(table) == Rank(table[t]) + Total(table - {t})
    decreases |table|
  {
    var u :| u in table && Total(table) == Rank(table[u]) + Total(table - {u});
    if u != t {
      TotalWithout(table - {u}, t);
      TotalWithout(table - {t}, u);
      assert table - {u} - {t} == table - {t} - {u};
    }
  }

  /** A matched success, whatever its callback registers, lowers the total by exactly one. */
  lemma MatchedReplyLowersTotal<P>(m: Manager<P>, tran: Tran, id: int, next: Tran)
    requires tran in m.success && next !in m.success
    requires Rank(m.success[tran]) == 2 ==> m.success[tran].peer in m.peers
    ensures Total(MessageSuccess(m, tran, id, next).success) == Total(m.success) - 1
  {
    var rest, after := m.success - {tran}, MessageSuccess(m, tran, id, next).success;
    TotalWithout(m.success, tran);
    if Rank(m.success[tran]) == 2 {
      TotalWithout(after, next);
      assert after - {next} == rest;
    } else {
      assert after == rest;
    }
  }

  datatype Reply = Reply(tran: Tran, id: int, next: Tran)

  /** Success replies processed one after the other, each matching a pending callback. */
  ghost predicate Matched<P>(m: Manager<P>, rs: seq<Reply>)
    decreases rs
  {
    rs != [] ==>
      && rs[0].tran in m.success && rs[0].next !in m.success
      && Matched(MessageSuccess(m, rs[0].tran, rs[0].id, rs[0].next), rs[1..])
  }

  ghost function AfterReplies<P>(m: Manager<P>, rs: seq<Reply>): Manager<P>
    decreases rs
  {
    if rs == [] then m else AfterReplies(MessageSuccess(m, rs[0].tran, rs[0].id, rs[0].next), rs[1..])
  }

  /** The peers that still have a request to send are there. */
  ghost predicate RequestersAlive<P>(m: Manager<P>) {
    forall t | t in m.success && Rank(m.success[t]) == 2 :: m.success[t].peer in m.peers
  }

  lemma {:induction false} RepliesLowerTotal<P>(m: Manager<P>, rs: seq<Reply>)
    requires RequestersAlive(m) && Matched(m, rs)
    ensures Total(AfterReplies(m, rs).success) == Total(m.success) - |rs|
    decreases rs
  {
    if rs != [] {
      var r := rs[0];
      MatchedReplyLowersTotal(m, r.tran, r.id, r.next);
      RepliesLowerTotal(MessageSuccess(m, r.tran, r.id, r.next), rs[1..]);
    }
  }

  lemma TotalZero<P>(table: map<Tran, Continuation<P>>)
    ensures Total(table) == 0 <==> table == map[]
  {
    if table != map[] {
      var t :| t in table;
      TotalWithout(table, t);
    }
  }

  /** Replies run out of callbacks exactly when there have been as many as the total called for, and
      there can never be more. */
  lemma QuiescenceAfterExactly<P>(m: Manager<P>, rs: seq<Reply>)
    requires RequestersAlive(m) && Matched(m, rs)
    ensures |rs| <= Total(m.success)
    ensures AfterReplies(m, rs).success == map[] <==> |rs| == Total(m.success)
  {
    RepliesLowerTotal(m, rs);
    TotalZero(AfterReplies(m, rs).success);
  }

  /** Every table can be emptied: there are as many matched replies as its total calls for. */
  lemma {:induction false} RepliesExist<P>(m: Manager<P>) returns (rs: seq<Reply>)
    requires RequestersAlive(m)
    ensures Matched(m, rs) && |rs| == Total(m.success)
    decreases Total(m.success)
  {
    TotalZero(m.success);
    if m.success == map[] {
      return [];
    }
    var t :| t in m.success;
    var next := UnusedString(m.success.Keys);
    MatchedReplyLowersTotal(m, t, 0, next);
    var rest := RepliesExist(MessageSuccess(m, t, 0, next));
    rs := [Reply(t, 0, next)] + rest;
    assert rs[1..] == rest;
  }

  /** Only the creator sends create and destroy requests. */
  ghost predicate CreatorRequests<P>(m: Manager<P>) {
    forall t | t in m.success && Rank(m.success[t]) == 2 :: m.creator == Some(m.success[t].peer)
  }

  lemma {:induction false} SubscribeAllKeepsCreator<P>(m: Manager<P>, feeds: seq<int>, gs: seq<Grant<P>>)
    requires |gs| == |feeds| && CreatorRequests(m)
    ensures CreatorRequests(SubscribeAll(m, feeds, gs)) && SubscribeAll(m, feeds, gs).creator == m.creator
    decreases |feeds|
  {
    if feeds != [] {
      SubscribeAllKeepsCreator(m, feeds[..|feeds| - 1], gs[..|feeds| - 1]);
    }
  }

  lemma StepKeepsCreator<P>(cl: Client<P>, e: Event<P>)
    requires CreatorRequests(cl.m) && Supplied(cl.m, e)
    ensures CreatorRequests(Step(cl, e).m)
  {
    if e.Receive? && (e.msg.Joined? || e.msg.RoomEvent?) {
      SubscribeAllKeepsCreator(cl.m.(privateId := e.msg.privateId), Announced(e.msg.ids), e.grants);
      if e.msg.RoomEvent? {
        RoomEventStep(cl, e);
      }
    } else if e.LocalSdpReady? || e.CandidateGathered? {
      LocalSignalsOnlySend(cl, e);
    }
  }

  lemma {:induction false} RunKeepsCreator<P>(cl: Client<P>, es: seq<Event<P>>)
    requires Listed(cl.m) && CreatorRequests(cl.m) && SuppliedRun(cl, es) && Trace(es)
    ensures RequestersAlive(Final(cl, es).m)
    decreases es
  {
    if es != [] {
      StepKeepsCreator(cl, es[0]);
      StepKeepsLists(cl, es[0]);
      RunKeepsCreator(Step(cl, es[0]), es[1..]);
    }
  }

  /** In every reachable state: replies empty the table exactly when they are as many as its total calls for,
      never more, and there are replies that do. */
  lemma EveryStateReachesQuiescence<P>(es: seq<Event<P>>)
    requires Trace(es) && SuppliedRun(Initial(), es)
    ensures var m := Final(Initial(), es).m;
      && (forall rs | Matched(m, rs) ::
            |rs| <= Total(m.success) && (AfterReplies(m, rs).success == map[] <==> |rs| == Total(m.success)))
      && (exists rs :: Matched(m, rs) && AfterReplies(m, rs).success == map[])
  {
    var m := Final(Initial(), es).m;
    RunKeepsCreator(Initial(), es);
    forall rs | Matched(m, rs)
      ensures |rs| <= Total(m.success) && (AfterReplies(m, rs).success == map[] <==> |rs| == Total(m.success))
    {
      QuiescenceAfterExactly(m, rs);
    }
    var rs := RepliesExist(m);
    assert Matched(m, rs) && AfterReplies(m, rs).success == map[];
  }

  // ---- nobody is forgotten -----------------------------------------------------------------------

  ghost predicate IsWaiting<P>(m: Manager<P>, p: P) {
    exists t :: t in m.success && m.success[t] == VideoJoin(p)
  }

  /** A listed video peer without a handle still waits for its attach reply. */
  ghost predicate WaitingOk<P>(m: Manager<P>) {
    forall p | p in m.video && VideoHandle(m.peers, p) == None :: IsWaiting(m, p)
  }

  /** New callbacks under fresh transactions keep the old ones. */
  lemma StillWaiting<P>(m: Manager<P>, m': Manager<P>)
    requires WaitingOk(m)
    requires forall t | t in m.success :: t in m'.success && m'.success[t] == m.success[t]
    requires forall p | p in m'.video && VideoHandle(m'.peers, p) == None ::
      IsWaiting(m', p) || (p in m.video && VideoHandle(m.peers, p) == None)
    ensures WaitingOk(m')
  {
    forall p | p in m'.video && VideoHandle(m'.peers, p) == None ensures IsWaiting(m', p) {
      if p in m.video && VideoHandle(m.peers, p) == None {
        var t :| t in m.success && m.success[t] == VideoJoin(p);
        assert t in m'.success && m'.success[t] == VideoJoin(p);
      }
    }
  }

  lemma AddVideoWaits<P>(m: Manager<P>, peer: Peer, g: Grant<P>)
    requires WaitingOk(m) && g.peer !in m.peers && g.tran !in m.success && Listed(m)
    ensures WaitingOk(AddVideo(m, peer, g))
  {
    var m' := AddVideo(m, peer, g);
    assert m'.success[g.tran] == VideoJoin(g.peer);
    StillWaiting(m, m');
  }

  lemma {:induction false} SubscribeAllWaits<P>(m: Manager<P>, feeds: seq<int>, gs: seq<Grant<P>>)
    requires |gs| == |feeds| && WaitingOk(m) && Listed(m) && GrantsOk(m, gs)
    ensures WaitingOk(SubscribeAll(m, feeds, gs))
    decreases |feeds|
  {
    if feeds != [] {
      var n := |feeds| - 1;
      var m1 := SubscribeAll(m, feeds[..n], gs[..n]);
      SubscribeAllWaits(m, feeds[..n], gs[..n]);
      SubscribeAllLists(m, feeds[..n], gs[..n]);
      SubscribeAllUses(m, feeds[..n], gs[..n], gs[n].peer, gs[n].tran);
      AddVideoWaits(m1, SubscriberPeer(m1, feeds[n]), gs[n]);
    }
  }

  lemma SuccessWaits<P>(m: Manager<P>, tran: Tran, id: int, next: Tran)
    requires Listed(m) && WaitingOk(m) && next !in m.success
    ensures WaitingOk(MessageSuccess(m, tran, id, next))
  {
    var m' := MessageSuccess(m, tran, id, next);
    if tran in m.success {
      forall p | p in m'.video && VideoHandle(m'.peers, p) == None ensures IsWaiting(m', p) {
        assert VideoHandle(m.peers, p) == None;
        var t :| t in m.success && m.success[t] == VideoJoin(p);
        assert t in m'.success && m'.success[t] == VideoJoin(p);
      }
    }
  }

  lemma RoomEventKeepsWaiting<P>(m: Manager<P>, privateId: int, ids: seq<int>, gs: seq<Grant<P>>, unpublished: int)
    requires |gs| == |Announced(ids)| && Listed(m) && WaitingOk(m) && GrantsOk(m, gs)
    ensures WaitingOk(Unpublish(Publishers(m, privateId, ids, gs), unpublished))
  {
    var m1 := Publishers(m, privateId, ids, gs);
    SubscribeAllWaits(m.(privateId := privateId), Announced(ids), gs);
    StillWaiting(m1, Unpublish(m1, unpublished));
  }

  lemma MessageKeepsWaiting<P>(cl: Client<P>, e: Event<P>)
    requires Listed(cl.m) && WaitingOk(cl.m) && e.Receive? && Supplied(cl.m, e)
    ensures WaitingOk(Step(cl, e).m)
  {
    match e.msg
    case Success(tran, id) => SuccessWaits(cl.m, tran, id, e.next);
    case Joined(_, privateId, ids) =>
      SubscribeAllWaits(cl.m.(privateId := privateId), Announced(ids), e.grants);
    case RoomEvent(_, _, _, privateId, ids, unpublished) =>
      RoomEventKeepsWaiting(cl.m, privateId, ids, e.grants, unpublished);
      RoomEventStep(cl, e);
    case _ =>
  }

  lemma StepKeepsWaiting<P>(cl: Client<P>, e: Event<P>)
    requires Listed(cl.m) && WaitingOk(cl.m) && Supplied(cl.m, e)
    ensures WaitingOk(Step(cl, e).m)
  {
    var m, m' := cl.m, Step(cl, e).m;
    match e
    case Receive(_, _, _) => MessageKeepsWaiting(cl, e);
    case JoinVideo(room, name, g) =>
      AddVideoWaits(m.(room := room), NewPeer(m.session).(videoRoom := ToUnsigned(room), display := name), g);
    case JoinText(_, g) =>
      StillWaiting(m, m');
    case RequestRoom(_, g, _) =>
      StillWaiting(m, m');
    case LeaveVideo =>
    case _ =>
      if e.LocalSdpReady? || e.CandidateGathered? {
        LocalSignalsOnlySend(cl, e);
      }
      StillWaiting(m, m');
  }

  lemma {:induction false} RunKeepsWaiting<P>(cl: Client<P>, es: seq<Event<P>>)
    requires Listed(cl.m) && WaitingOk(cl.m) && SuppliedRun(cl, es) && Trace(es)
    ensures WaitingOk(Final(cl, es).m)
    decreases es
  {
    if es != [] {
      StepKeepsWaiting(cl, es[0]);
      StepKeepsLists(cl, es[0]);
      RunKeepsWaiting(Step(cl, es[0]), es[1..]);
    }
  }

  /** Whenever no callback is pending, every listed video peer has its handle: whatever was announced or
      joined and not withdrawn has been attached, and can be reached by its handle. */
  lemma QuiescentPeersHaveHandles<P>(es: seq<Event<P>>)
    requires Trace(es) && SuppliedRun(Initial(), es)
    ensures var m := Final(Initial(), es).m;
      m.success == map[] ==> forall p | p in m.video :: VideoHandle(m.peers, p).Some?
  {
    RunKeepsWaiting(Initial(), es);
  }
}
