/**
 * The hazard of a second login: a user who is online logs in again, and the new session is not in the
 * username index. When the first session breaks, its clean-up takes the only entry away.
 */
module SecondLogin {
  import opened Prelude
  import opened Domain
  import opened Handlers
  import opened LoginData
  import opened Threads
  import opened Sessions
  import opened SharedOffer

  ghost function Waiting(state: ConnState, out: seq<Outbound>): Data {
    Start(WORLD).(net := map[0 := Sock1(0, out, []), 1 := Sock1(0, out, [])], incoming := [Conn(0, state), Conn(1, state)])
  }

  lemma TwoAccepted()
    ensures Reachable(WORLD, Idle(Waiting(Fresh, [])))
  {
    hide Reachable;
    Booted(WORLD);
    var d0 := Start(WORLD);
    AcceptOne(Idle(d0), 0);
    var d1 := d0.(net := d0.net[0 := NEW_SOCK], incoming := d0.incoming + [NewConnection(0)]);
    AcceptOne(Idle(d1), 1);
    var d2 := d1.(net := d1.net[1 := NEW_SOCK], incoming := d1.incoming + [NewConnection(1)]);
    assert d2.net == Waiting(Fresh, []).net && d2.incoming == Waiting(Fresh, []).incoming;
  }

  lemma BothChallenged()
    ensures Reachable(WORLD, Idle(Waiting(ChallengeSent, [Challenge])))
  {
    hide Reachable, WORLD;
    TwoAccepted();
    var d0, k := Waiting(Fresh, []), Sock1(0, [Challenge], []);
    var d1 := d0.(net := d0.net[0 := k], incoming := d0.incoming[0 := Conn(0, ChallengeSent)]);
    var d2 := d1.(net := d1.net[1 := k], incoming := d1.incoming[1 := Conn(1, ChallengeSent)]);
    BeginScan(d0);
    ChallengeTurn(d0, 0, d1);
    ChallengeTurn(d1, 1, d2);
    EndScan(d2, 2);
    var t := Waiting(ChallengeSent, [Challenge]);
    assert d2.incoming == t.incoming && d2.net == t.net;
  }

  ghost function Identified(): Data {
    var k := Sock1(0, [Challenge], [Identity("u", [])]);
    Waiting(ChallengeSent, [Challenge]).(net := map[0 := k, 1 := k])
  }

  lemma BothIdentified()
    ensures Reachable(WORLD, Idle(Identified()))
  {
    hide Reachable, WORLD;
    BothChallenged();
    var d0, m := Waiting(ChallengeSent, [Challenge]), Identity("u", []);
    Message(d0, 0, m);
    var d1 := d0.(net := d0.net[0 := d0.net[0].(inbox := d0.net[0].inbox + [m])]);
    Message(d1, 1, m);
    var d2 := d1.(net := d1.net[1 := d1.net[1].(inbox := d1.net[1].inbox + [m])]);
    assert [] + [m] == [m];
    assert d2.net == Identified().net;
  }

  /** Both sessions of the user are live, and the index knows the first one only. */
  ghost predicate Shadowed(d: Data) {
    && d.sessions == [Some(Session(0, 0, 5, "u", 0, 0)), Some(Session(1, 1, 5, "u", 1, 0))]
    && d.index == map["u" := 0] && 0 in d.net && 1 in d.net && d.net[1] == Sock1(1, WELCOME, [])
  }

  lemma BothLoggedIn() returns (d: Data)
    ensures Reachable(WORLD, Idle(d)) && Shadowed(d)
  {
    hide Reachable, WORLD;
    BothIdentified();
    var d0 := Identified();
    BeginScan(d0);
    LoginTurn(d0, 0, 0);
    var d1 := Close(AppendSession(Admitted(d0, 0), Opened(d0, 0, 0)), 0);
    assert d1.sessions == [Some(Session(0, 0, 5, "u", 0, 0))] && d1.index == map["u" := 0];
    LoginTurn(d1, 1, 1);
    d := Close(AppendSession(Admitted(d1, 1), Opened(d1, 1, 1)), 1);
    EndScan(d, 2);
  }

  /** After the first session broke: the user is still online, and not in the index at all. */
  ghost predicate Orphaned(d: Data) {
    d.sessions == [Some(Session(1, 1, 5, "u", 1, 0))] && "u" !in d.index
  }

  /** The pass meets the broken session, clears it, and unindexes its username. */
  lemma ClearsFirst(d: Data, q: Fate)
    requires Shadowed(d) && d.net[0].error
    ensures Serve(WORLD, d, 0, q)
            == Gone(d.(sessions := d.sessions[0 := None], index := d.index - {"u"}, dropped := d.dropped + [0]))
  {
  }

  /** The other session has nothing to read. */
  lemma LeavesSecond(d: Data, q: Fate)
    requires d.sessions == [None, Some(Session(1, 1, 5, "u", 1, 0))] && 1 in d.net && d.net[1] == Sock1(1, WELCOME, [])
    ensures Serve(WORLD, d, 1, q) == Alive(d)
  {
    hide ChooseCharacter, ListCharacters, Routes;
    assert d.sessions[1 := d.sessions[1]] == d.sessions && d.net[1 := d.net[1]] == d.net;
  }

  lemma SweepsFirst(d: Data, x: Session)
    requires d.sessions == [None, Some(x)]
    ensures Sweep(d).sessions == [Some(x)]
  {
    assert d.sessions[..1] == [None] && d.sessions[..1][..0] == [];
    assert Filter(IsLive, d.sessions[..1]) == [];
  }

  lemma PassBegins(d: Data)
    requires Reachable(WORLD, Idle(d)) && 0 in d.net
    ensures Reachable(WORLD, Serving(d.(net := d.net[0 := d.net[0].(error := true)]), 0, false))
  {
    hide Reachable, WORLD;
    var e := d.(net := d.net[0 := d.net[0].(error := true)]);
    Go(WORLD, Idle(d), Break(0), Idle(e));
    Go(WORLD, Idle(e), PassStart, Serving(e, 0, false));
  }

  lemma PassEnds(d: Data)
    requires Reachable(WORLD, Serving(d, 2, true)) && |d.sessions| == 2
    ensures Reachable(WORLD, Idle(Sweep(d)))
  {
    hide Reachable, WORLD, Sweep;
    Go(WORLD, Serving(d, 2, true), PassEnd, Idle(Sweep(d)));
  }

  lemma FirstBreaks(d: Data) returns (d': Data)
    requires Reachable(WORLD, Idle(d)) && Shadowed(d)
    ensures Reachable(WORLD, Idle(d')) && Orphaned(d')
  {
    var q := Fates(2);
    var e := d.(net := d.net[0 := d.net[0].(error := true)]);
    var e1 := e.(sessions := e.sessions[0 := None], index := e.index - {"u"}, dropped := e.dropped + [0]);
    ClearsFirst(e, q);
    LeavesSecond(e1, q);
    SweepsFirst(e1, Session(1, 1, 5, "u", 1, 0));
    SweepFrame(e1);
    hide Reachable, WORLD, ROWS, Serve, Sweep;
    PassBegins(d);
    Go(WORLD, Serving(e, 0, false), ServeOne(q), Serving(e1, 1, true));
    Go(WORLD, Serving(e1, 1, true), ServeOne(q), Serving(e1, 2, true));
    PassEnds(e1);
    d' := Sweep(e1);
  }

  ghost function Serving(d: Data, j: nat, cleared: bool): Sys {
    Idle(d).(c := CScan(j, cleared), sessionLock := Some(Connected))
  }

  /** Runs lead to a state whose index misses a live session, and to one where the user online is not in it at all. */
  lemma SecondLoginIsNotIndexed()
    ensures exists d :: Reachable(WORLD, Idle(d)) && Shadowed(d) && !IndexComplete(d)
    ensures exists d :: Reachable(WORLD, Idle(d)) && Orphaned(d)
  {
    hide Reachable;
    var d := BothLoggedIn();
    assert Live(d, 1);
    var d' := FirstBreaks(d);
  }
}
