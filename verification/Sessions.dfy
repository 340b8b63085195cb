/** The session list and the username index, under every interleaving. */
module Sessions {
  import opened Prelude
  import opened Domain
  import opened Handlers
  import opened LoginData
  import opened Threads

  ghost predicate Live(d: Data, j: int) {
    0 <= j < |d.sessions| && d.sessions[j].Some?
  }

  /** Sessions are null only between being cleared and the end of that pass, behind the loop's position. */
  ghost predicate NullsOk(s: Sys) {
    && (s.c.CScan? ==> s.c.j <= |s.d.sessions|)
    && forall j :: 0 <= j < |s.d.sessions| && s.d.sessions[j].None? ==> s.c.CScan? && s.c.cleared && j < s.c.j
  }

  /** Live session objects have different addresses, as has the one not yet appended. */
  ghost predicate AddrsOk(s: Sys) {
    && (forall j, k :: 0 <= j < k < |s.d.sessions| && Live(s.d, j) && Live(s.d, k) ==>
          s.d.sessions[j].value.addr != s.d.sessions[k].value.addr)
    && (s.i.IWantSessions? || s.i.IHoldSessions? ==> FreshAddr(s.d, s.i.s.addr))
  }

  /** Every index entry is the address of a live session of that username. */
  ghost predicate IndexOk(d: Data) {
    forall u :: u in d.index ==>
      exists j :: Live(d, j) && d.sessions[j].value.username == u && d.sessions[j].value.addr == d.index[u]
  }

  /** While fewer than 2^64 sessions were ever created: guids strictly increase along the list, and none repeats. */
  ghost predicate GuidsOk(s: Sys) {
    s.d.created <= GUIDS ==>
      && (forall j, k :: 0 <= j < k < |s.d.sessions| && Live(s.d, j) && Live(s.d, k) ==>
            s.d.sessions[j].value.guid < s.d.sessions[k].value.guid)
      && (forall j :: Live(s.d, j) ==> s.d.sessions[j].value.guid < s.d.created)
      && (s.i.IWantSessions? || s.i.IHoldSessions? ==>
            s.i.s.guid < s.d.created && forall j :: Live(s.d, j) ==> s.d.sessions[j].value.guid < s.i.s.guid)
  }

  ghost predicate SessionsOk(s: Sys) {
    NullsOk(s) && AddrsOk(s) && IndexOk(s.d) && GuidsOk(s)
  }

  /** What a visit by `processIncoming` means for sessions: at most one new object, at a fresh address. */
  lemma VisitLeavesSessions(env: Env, d: Data, i: nat, q: Fate)
    requires i < |d.incoming|
    ensures var v := Visit(env, d, i, q);
            && (!v.Fault? ==> v.d.sessions == d.sessions && v.d.index == d.index)
            && (v.Continue? || v.WantServer? ==> v.d.created == d.created)
            && (v.WantSession? ==>
                  v.d.created == d.created + 1 && v.s.addr == q.addr && v.s.guid == d.created % GUIDS)
  {
    hide Dispatch, Reported;
  }

  lemma ScanKeepsSessions(env: Env, s: Sys, q: Fate)
    requires SessionsOk(s) && StepScan(env, s, q).Next?
    ensures SessionsOk(StepScan(env, s, q).s)
  {
    hide Visit;
    VisitLeavesSessions(env, s.d, s.i.i, q);
    var t := StepScan(env, s, q).s;
    assert forall j :: Live(t.d, j) <==> Live(s.d, j);
    assert IndexOk(t.d) by {
      forall u | u in t.d.index
        ensures exists j :: Live(t.d, j) && t.d.sessions[j].value.username == u && t.d.sessions[j].value.addr == t.d.index[u]
      {
        var j :| Live(s.d, j) && s.d.sessions[j].value.username == u && s.d.sessions[j].value.addr == s.d.index[u];
        assert Live(t.d, j);
      }
    }
  }

  lemma AppendKeepsIndex(d: Data, x: Session)
    requires IndexOk(d)
    ensures IndexOk(AppendSession(d, x))
  {
    var t := AppendSession(d, x);
    forall u | u in t.index
      ensures exists j :: Live(t, j) && t.sessions[j].value.username == u && t.sessions[j].value.addr == t.index[u]
    {
      if u in d.index {
        var j :| Live(d, j) && d.sessions[j].value.username == u && d.sessions[j].value.addr == d.index[u];
        assert Live(t, j);
      } else {
        assert Live(t, |d.sessions|);
      }
    }
  }

  lemma SameSessionsKeepIndex(d: Data, t: Data)
    requires IndexOk(d) && t.sessions == d.sessions && t.index == d.index
    ensures IndexOk(t)
  {
    forall u | u in t.index
      ensures exists j :: Live(t, j) && t.sessions[j].value.username == u && t.sessions[j].value.addr == t.index[u]
    {
      var j :| Live(d, j) && d.sessions[j].value.username == u && d.sessions[j].value.addr == d.index[u];
      assert Live(t, j);
    }
  }

  lemma IncomingKeepsSessions(env: Env, s: Sys, e: Event)
    requires e.ScanStart? || e.ScanEnd? || e.LockSessions? || e.Append? || e.LockMaps? || e.Register? || e.Finish?
    requires SessionsOk(s) && LocksOk(s) && StepIncoming(env, s, e).Next?
    ensures SessionsOk(StepIncoming(env, s, e).s)
  {
    hide EmplaceAll, IndexOk;
    var t := StepIncoming(env, s, e).s;
    if e.Append? {
      AppendKeepsIndex(s.d, s.i.s);
      assert forall j :: Live(t.d, j) ==> Live(s.d, j) || j == |s.d.sessions|;
    } else {
      SameSessionsKeepIndex(s.d, t.d);
      assert forall j :: Live(t.d, j) <==> Live(s.d, j);
    }
  }

  /** What a visit by `processConnected` means for the session list: nothing, or one session cleared. */
  lemma ServeShape(env: Env, d: Data, j: nat, q: Fate)
    requires j < |d.sessions|
    ensures var v := Serve(env, d, j, q);
            && (!v.Crash? ==> d.sessions[j].Some? && v.d.created == d.created)
            && (v.Alive? ==>
                  && v.d.index == d.index && v.d.sessions == d.sessions[j := v.d.sessions[j]]
                  && v.d.sessions[j].Some?
                  && v.d.sessions[j].value.(characterID := d.sessions[j].value.characterID) == d.sessions[j].value)
            && (v.Gone? ==>
                  v.d.sessions == d.sessions[j := None] && v.d.index == d.index - {d.sessions[j].value.username})
  {
    hide Attend, Routes;
    if d.sessions[j].Some? && d.sessions[j].value.socket in d.net {
      var x := d.sessions[j].value;
      AttendKeeps(x, d.net[x.socket], Ask(q.send, q.db, {}), Routes(env, d.servers, d.served, d.generation));
    }
  }

  lemma ServeKeepsIndex(env: Env, d: Data, j: nat, q: Fate)
    requires j < |d.sessions| && IndexOk(d) && !Serve(env, d, j, q).Crash?
    ensures IndexOk(Serve(env, d, j, q).d)
  {
    hide Serve;
    ServeShape(env, d, j, q);
    var t := Serve(env, d, j, q).d;
    forall u | u in t.index
      ensures exists k :: Live(t, k) && t.sessions[k].value.username == u && t.sessions[k].value.addr == t.index[u]
    {
      var k :| Live(d, k) && d.sessions[k].value.username == u && d.sessions[k].value.addr == d.index[u];
      assert Live(t, k);
    }
  }

  /** Where the element at place `k` of the swept list came from. */
  ghost function Origin(d: Data, k: nat): nat
    requires k < |Sweep(d).sessions|
  {
    FilterIsStable(IsLive, d.sessions);
    Kept(IsLive, d.sessions)[k]
  }

  lemma SweepIsStable(d: Data)
    ensures forall k :: 0 <= k < |Sweep(d).sessions| ==>
              Live(d, Origin(d, k)) && Sweep(d).sessions[k] == d.sessions[Origin(d, k)]
    ensures forall k, l :: 0 <= k < l < |Sweep(d).sessions| ==> Origin(d, k) < Origin(d, l)
    ensures forall j :: Live(d, j) ==> exists k :: 0 <= k < |Sweep(d).sessions| && Origin(d, k) == j
  {
    FilterIsStable(IsLive, d.sessions);
    var at := Kept(IsLive, d.sessions);
    forall k | 0 <= k < |at|
      ensures Live(d, at[k])
    {
      assert at[k] in at;
    }
    forall j | Live(d, j)
      ensures exists k :: 0 <= k < |at| && at[k] == j && Origin(d, k) == j
    {
      assert IsLive(d.sessions[j]) && j in at;
      var k :| 0 <= k < |at| && at[k] == j;
      assert Origin(d, k) == j;
    }
  }

  lemma SweepKeepsIndex(d: Data)
    requires IndexOk(d)
    ensures IndexOk(Sweep(d))
  {
    hide Origin, Sweep;
    SweepIsStable(d);
    var t := Sweep(d);
    assert t.index == d.index by { SweepFrame(d); }
    forall u | u in t.index
      ensures exists k :: Live(t, k) && t.sessions[k].value.username == u && t.sessions[k].value.addr == t.index[u]
    {
      var j :| Live(d, j) && d.sessions[j].value.username == u && d.sessions[j].value.addr == d.index[u];
      var k :| 0 <= k < |t.sessions| && Origin(d, k) == j;
      assert Live(t, k);
    }
  }

  lemma SweepFrame(d: Data)
    ensures Sweep(d) == d.(sessions := Sweep(d).sessions)
  {
  }

  lemma PassEndKeepsSessions(s: Sys, t: Sys)
    requires SessionsOk(s) && t == s.(d := Sweep(s.d), c := CIdle, sessionLock := None)
    ensures SessionsOk(t)
  {
    hide Origin, Sweep, IndexOk;
    SweepIsStable(s.d);
    SweepFrame(s.d);
    SweepKeepsIndex(s.d);
    assert forall k :: 0 <= k < |t.d.sessions| ==> Live(s.d, Origin(s.d, k)) && t.d.sessions[k] == s.d.sessions[Origin(s.d, k)];
  }

  lemma ConnectedKeepsSessions(env: Env, s: Sys, e: Event)
    requires e.PassStart? || e.ServeOne? || e.PassEnd?
    requires SessionsOk(s) && StepConnected(env, s, e).Next?
    ensures SessionsOk(StepConnected(env, s, e).s)
  {
    hide Serve, Sweep, IndexOk;
    var t := StepConnected(env, s, e).s;
    if e.ServeOne? {
      ServeShape(env, s.d, s.c.j, e.q);
      ServeKeepsIndex(env, s.d, s.c.j, e.q);
      assert forall j :: Live(t.d, j) ==> Live(s.d, j);
    } else if e.PassEnd? && s.c.cleared {
      PassEndKeepsSessions(s, t);
    }
  }

  lemma SessionsKept(env: Env, s: Sys, e: Event)
    requires SessionsOk(s) && LocksOk(s) && Step(env, s, e).Next?
    ensures SessionsOk(Step(env, s, e).s)
  {
    hide StepScan, StepIncoming, StepConnected, NullsOk, AddrsOk, GuidsOk, IndexOk, LocksOk;
    if e.Arrive? || e.Break? || e.AcceptSocket? || e.AcceptorLock? || e.AcceptorPush? {
      OthersKeepSessions(env, s, e);
    } else if e.ScanOne? {
      ScanKeepsSessions(env, s, e.q);
    } else if e.PassStart? || e.ServeOne? || e.PassEnd? {
      ConnectedKeepsSessions(env, s, e);
    } else {
      IncomingKeepsSessions(env, s, e);
    }
  }

  lemma OthersKeepSessions(env: Env, s: Sys, e: Event)
    requires e.Arrive? || e.Break? || e.AcceptSocket? || e.AcceptorLock? || e.AcceptorPush?
    requires SessionsOk(s) && Step(env, s, e).Next?
    ensures SessionsOk(Step(env, s, e).s)
  {
    hide StepScan, StepIncoming, StepConnected, IndexOk;
    var t := Step(env, s, e).s;
    assert t.d.sessions == s.d.sessions && t.d.index == s.d.index && t.d.created == s.d.created && t.i == s.i && t.c == s.c;
    SameSessionsKeepIndex(s.d, t.d);
    assert forall j :: Live(t.d, j) <==> Live(s.d, j);
  }

  lemma IndexPoints(s: Sys, u: string)
    requires SessionsOk(s) && u in s.d.index
    ensures exists j :: Live(s.d, j) && s.d.sessions[j].value.addr == s.d.index[u]
    ensures forall j :: Live(s.d, j) && s.d.sessions[j].value.addr == s.d.index[u] ==>
              s.d.sessions[j].value.username == u
  {
    hide NullsOk, GuidsOk;
    var k :| Live(s.d, k) && s.d.sessions[k].value.username == u && s.d.sessions[k].value.addr == s.d.index[u];
  }

  /** While a username stays indexed, its entry stays the same: a later login of the user does not replace it. */
  lemma IndexEntriesStay(env: Env, s: Sys, e: Event, u: string)
    requires Step(env, s, e).Next? && u in s.d.index && u in Step(env, s, e).s.d.index
    ensures Step(env, s, e).s.d.index[u] == s.d.index[u]
  {
    hide Visit, Serve, Sweep, EmplaceAll;
    match e
    case ScanOne(q) => VisitLeavesSessions(env, s.d, s.i.i, q);
    case ServeOne(q) => ServeShape(env, s.d, s.c.j, q);
    case PassEnd => SweepFrame(s.d);
    case _ =>
  }

  // --- Completeness of the index ---

  /** Every live session is found through its username. */
  ghost predicate IndexComplete(d: Data) {
    forall j :: Live(d, j) ==>
      d.sessions[j].value.username in d.index && d.index[d.sessions[j].value.username] == d.sessions[j].value.addr
  }

  /** No two live sessions belong to the same user. */
  ghost predicate UsersDistinct(d: Data) {
    forall j, k :: 0 <= j < k < |d.sessions| && Live(d, j) && Live(d, k) ==>
      d.sessions[j].value.username != d.sessions[k].value.username
  }

  lemma CompleteMeansDistinct(s: Sys)
    requires AddrsOk(s) && IndexComplete(s.d)
    ensures UsersDistinct(s.d)
  {
  }

  lemma {:induction false} AppendKeepsComplete(d: Data, x: Session)
    requires IndexOk(d) && IndexComplete(d) && UsersDistinct(AppendSession(d, x))
    ensures IndexComplete(AppendSession(d, x))
  {
    var t := AppendSession(d, x);
    if x.username in d.index {
      var j :| Live(d, j) && d.sessions[j].value.username == x.username && d.sessions[j].value.addr == d.index[x.username];
      assert Live(t, j) && Live(t, |d.sessions|);
    }
    forall j | Live(t, j)
      ensures t.sessions[j].value.username in t.index && t.index[t.sessions[j].value.username] == t.sessions[j].value.addr
    {
      if j < |d.sessions| {
        assert Live(d, j);
      }
    }
  }

  /** As long as live usernames stay distinct, the index stays complete. */
  lemma CompleteKept(env: Env, s: Sys, e: Event)
    requires SessionsOk(s) && IndexComplete(s.d) && UsersDistinct(s.d) && Step(env, s, e).Next?
    requires UsersDistinct(Step(env, s, e).s.d)
    ensures IndexComplete(Step(env, s, e).s.d)
  {
    hide Visit, Serve, Sweep, NullsOk, AddrsOk, GuidsOk, IndexOk, EmplaceAll, Origin;
    var t := Step(env, s, e).s;
    match e
    case ScanOne(q) => VisitLeavesSessions(env, s.d, s.i.i, q); SameSessionsComplete(s.d, t.d);
    case Append => AppendKeepsComplete(s.d, s.i.s);
    case ServeOne(q) =>
      ServeShape(env, s.d, s.c.j, q);
      ServeKeepsComplete(env, s.d, s.c.j, q);
    case PassEnd =>
      SweepFrame(s.d);
      SweepIsStable(s.d);
      forall k | Live(Sweep(s.d), k)
        ensures Live(s.d, Origin(s.d, k)) && Sweep(s.d).sessions[k] == s.d.sessions[Origin(s.d, k)]
      {
      }
    case _ => SameSessionsComplete(s.d, t.d);
  }

  lemma SameSessionsComplete(d: Data, t: Data)
    requires IndexComplete(d) && t.sessions == d.sessions && t.index == d.index
    ensures IndexComplete(t)
  {
    assert forall j :: Live(t, j) <==> Live(d, j);
  }

  lemma ServeKeepsComplete(env: Env, d: Data, j: nat, q: Fate)
    requires j < |d.sessions| && IndexComplete(d) && UsersDistinct(d) && !Serve(env, d, j, q).Crash?
    ensures IndexComplete(Serve(env, d, j, q).d)
  {
    hide Serve;
    ServeShape(env, d, j, q);
    var t := Serve(env, d, j, q).d;
    forall k | Live(t, k)
      ensures t.sessions[k].value.username in t.index && t.index[t.sessions[k].value.username] == t.sessions[k].value.addr
    {
      assert Live(d, k) && Live(d, j);
    }
  }
}
