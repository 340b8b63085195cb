/** The map server as an object, and its registration as steps of joint runs. */
module MapServerProcess {
  import opened Prelude
  import opened Domain
  import opened Handlers
  import opened Registration

  /** How one wait ends: with no message in time, or with this one; `sent`: whether the answer to it arrives. */
  datatype Wait = Wait(m: Option<Outbound>, sent: bool)

  /** What the map server checks about the challenge. */
  datatype Checks = Checks(goodKey: bool, sameVersion: bool)

  /** One wait, unless the function has already returned. */
  function Waited(v: Details, p: Peer, w: Wait, c: Checks): Reaction {
    if p.phase.Returned? then Reaction(p, None)
    else if w.m.None? then Reaction(GiveUp(p), None)
    else React(v, p, w.m.value, c.goodKey, c.sameVersion)
  }

  predicate IsGoodChallenge(w: Wait, c: Checks) {
    w.m.Some? && w.m.value.Challenge? && c.goodKey
  }

  predicate IsResponse(w: Wait) {
    w.m.Some? && w.m.value.RegistrationResponse?
  }

  predicate IsList(w: Wait) {
    w.m.Some? && w.m.value.RequiredMaps?
  }

  class Process {
    const details: Details
    var decoded: Option<seq<Location>>
    ghost var said: seq<Inbound>   // everything put on the socket

    constructor (details: Details)
      ensures this.details == details && decoded.None? && said == []
    {
      this.details, decoded, said := details, None, [];
    }

    method Put(m: Inbound)
      modifies this`said
      ensures said == old(said) + [m]
    {
      said := said + [m];
    }

    /**
     * The function as written: three waits in a row. It succeeds exactly when they bring a challenge with the
     * right key and version, a response and a list of required maps; then the request, the list of its maps and
     * the acknowledgement were put on the socket, in this order, and the required maps are kept.
     */
    method RegisterWithMasterServer(challenge: Wait, response: Wait, list: Wait, c: Checks) returns (ok: bool)
      requires decoded.None? && said == []
      modifies this
      ensures ok <==> IsGoodChallenge(challenge, c) && c.sameVersion && IsResponse(response) && IsList(list)
      ensures var request := RegistrationRequest(details.name, details.host, details.port);
              said == if !IsGoodChallenge(challenge, c) then []
                      else if !c.sameVersion then [VersionMismatch]
                      else if !IsResponse(response) then [request]
                      else [request, AdvertiseMaps(WithoutIds(details.maps))] + if IsList(list) then [MapAck] else []
      ensures decoded == if ok then Some(WithoutIds(list.m.value.maps)) else None
      ensures var r1 := Waited(details, WAITING, challenge, c);
              var r2 := Waited(details, r1.peer, response, c);
              var r3 := Waited(details, r2.peer, list, c);
              && r3.peer.phase == Returned(ok) && decoded == r3.peer.decoded
              && said == SaidIn(r1) + SaidIn(r2) + SaidIn(r3)
    {
      if challenge.m.None? || !challenge.m.value.Challenge? || !c.goodKey {
        return false;
      }
      if !c.sameVersion {
        Put(VersionMismatch);
        return false;
      }
      Put(RegistrationRequest(details.name, details.host, details.port));
      if response.m.None? || !response.m.value.RegistrationResponse? {
        return false;
      }
      Put(AdvertiseMaps(WithoutIds(details.maps)));
      if list.m.None? || !list.m.value.RequiredMaps? {
        return false;
      }
      decoded := Some(WithoutIds(list.m.value.maps));
      Put(MapAck);
      return true;
    }
  }

  // --- The object in joint runs ---

  /** Some joint run on this socket passes through this state. */
  ghost predicate ReachableDuo(env: Env, v: Details, id: SockId, d: Duo) {
    exists t: seq<Duo>, es :: IsRun(env, v, t, es, id) && t[|es|] == d
  }

  lemma ConnectedReachable(env: Env, v: Details, id: SockId)
    ensures ReachableDuo(env, v, id, Connected(id))
  {
    assert IsRun(env, v, [Connected(id)], [], id);
  }

  lemma Extend(env: Env, v: Details, id: SockId, d: Duo, e: Event, d': Duo)
    requires ReachableDuo(env, v, id, d) && Step(env, v, d, e) == Next(d')
    ensures ReachableDuo(env, v, id, d')
  {
    hide Step;
    var t: seq<Duo>, es :| IsRun(env, v, t, es, id) && t[|es|] == d;
    var t', es' := t + [d'], es + [e];
    assert IsRun(env, v, t', es', id) && t'[|es'|] == d';
  }

  /** What happens at the other end, and to the socket, during a wait. */
  function Meanwhile(env: Env, v: Details, d: Duo, vs: seq<Event>): Result {
    if vs == [] then Next(d)
    else
      var before, e := Meanwhile(env, v, d, vs[..|vs| - 1]), vs[|vs| - 1];
      if before.Off? || !(e.ServerVisit? || e.SocketFails?) then Off else Step(env, v, before.d, e)
  }

  /** During the wait `vs` happens, and the wait ends as `w` says. */
  predicate Ends(env: Env, v: Details, d: Duo, vs: seq<Event>, w: Wait) {
    d.peer.phase.Returned? ||
    var r := Meanwhile(env, v, d, vs);
    r.Next? && (w.m.Some? ==> r.d.peer.seen < |r.d.k.outbox| && w.m.value == r.d.k.outbox[r.d.peer.seen])
  }

  function AfterWait(env: Env, v: Details, d: Duo, vs: seq<Event>, w: Wait, c: Checks): Duo
    requires Ends(env, v, d, vs, w)
  {
    if d.peer.phase.Returned? then d
    else
      var d1 := Meanwhile(env, v, d, vs).d;
      if w.m.None? then d1.(peer := GiveUp(d1.peer)) else PeerRead(v, d1, PeerReads(c.goodKey, c.sameVersion, w.sent))
  }

  lemma {:induction false} MeanwhileReaches(env: Env, v: Details, id: SockId, d: Duo, vs: seq<Event>)
    requires ReachableDuo(env, v, id, d) && Meanwhile(env, v, d, vs).Next?
    ensures var d' := Meanwhile(env, v, d, vs).d;
            ReachableDuo(env, v, id, d') && d'.peer == d.peer && d'.said == d.said
  {
    if vs != [] {
      hide ReachableDuo, Dispatch;
      var n := |vs| - 1;
      MeanwhileReaches(env, v, id, d, vs[..n]);
      Extend(env, v, id, Meanwhile(env, v, d, vs[..n]).d, vs[n], Meanwhile(env, v, d, vs).d);
    }
  }

  /** A wait is steps of a joint run, however it ends. */
  lemma WaitReaches(env: Env, v: Details, id: SockId, d: Duo, vs: seq<Event>, w: Wait, c: Checks)
    requires ReachableDuo(env, v, id, d) && Ends(env, v, d, vs, w)
    ensures var d', r := AfterWait(env, v, d, vs, w, c), Waited(v, d.peer, w, c);
            ReachableDuo(env, v, id, d') && d'.peer == r.peer && d'.said == d.said + SaidIn(r)
  {
    hide ReachableDuo, ServerStep, React;
    if !d.peer.phase.Returned? {
      MeanwhileReaches(env, v, id, d, vs);
      var e := if w.m.None? then PeerGivesUp else PeerReads(c.goodKey, c.sameVersion, w.sent);
      Extend(env, v, id, Meanwhile(env, v, d, vs).d, e, AfterWait(env, v, d, vs, w, c));
    }
  }

  /** The joint state in which the object stands: it has returned, with this list and these messages behind it. */
  ghost predicate Stands(p: Process, ok: bool, env: Env, id: SockId, d: Duo)
    reads p
  {
    && ReachableDuo(env, p.details, id, d) && d.peer.phase == Returned(ok)
    && d.peer.decoded == p.decoded && d.said == p.said
  }

  /**
   * The whole call in a joint run: with any visits `us`, `vs`, `ws` of the login server during the three waits,
   * and any socket failure, the call is steps of that run.
   */
  method RegisterInRun(
    p: Process, challenge: Wait, response: Wait, list: Wait, c: Checks,
    ghost env: Env, ghost id: SockId, ghost us: seq<Event>, ghost vs: seq<Event>, ghost ws: seq<Event>)
    returns (ok: bool, ghost d: Duo)
    requires p.decoded.None? && p.said == []
    requires Ends(env, p.details, Connected(id), us, challenge)
    requires var d1 := AfterWait(env, p.details, Connected(id), us, challenge, c);
             Ends(env, p.details, d1, vs, response)
             && Ends(env, p.details, AfterWait(env, p.details, d1, vs, response, c), ws, list)
    modifies p
    ensures Stands(p, ok, env, id, d)
  {
    hide ReachableDuo, Ends, AfterWait, Waited;
    ConnectedReachable(env, p.details, id);
    WaitReaches(env, p.details, id, Connected(id), us, challenge, c);
    ghost var d1 := AfterWait(env, p.details, Connected(id), us, challenge, c);
    WaitReaches(env, p.details, id, d1, vs, response, c);
    ghost var d2 := AfterWait(env, p.details, d1, vs, response, c);
    WaitReaches(env, p.details, id, d2, ws, list, c);
    d := AfterWait(env, p.details, d2, ws, list, c);
    ok := p.RegisterWithMasterServer(challenge, response, list, c);
  }

  /**
   * Whenever the login server registers this process, now or at any later state of such a run, the call has
   * returned true; the record holds the process's details and a non-empty sub-list of what it advertised that
   * is, up to database ids, the list the process decoded.
   */
  lemma RegisteredProcessAgrees(
    p: Process, ok: bool, env: Env, t: seq<Duo>, es: seq<Event>, id: SockId, j: nat, k: nat)
    requires IsRun(env, p.details, t, es, id) && j <= k < |t| && Stands(p, ok, env, id, t[j]) && t[k].side.AsServer?
    ensures ok && p.decoded == Some(WithoutIds(t[k].side.m.maps)) && Agreement(p.details, t[k].peer, t[k].side.m)
  {
    ReturnIsFinal(env, p.details, t, es, id, j, k);
    hide IsRun, Embeds;
    RegistrationAgrees(env, p.details, t, es, id, k);
  }

  /** A process whose call returned true was never answered NOT_NEEDED. */
  lemma SuccessfulProcessWasWanted(p: Process, env: Env, id: SockId, d: Duo)
    requires Stands(p, true, env, id, d)
    ensures NotNeeded !in d.k.outbox
  {
    hide Step;
    var t: seq<Duo>, es :| IsRun(env, p.details, t, es, id) && t[|es|] == d;
    SuccessWasOffered(env, p.details, t, es, id, |es|);
  }
}
