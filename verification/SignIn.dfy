/** The gate of one replica together with the lookups that it waits for, among the lookups of other
    replicas, logins and logouts: who is let in, and who is refused. */
module SignIn {
  import opened Wrappers
  import Gate = SessionGate
  import Sessions = SessionCache

  /** `replica` is the gate's own; `sids` are the session ids that the requests carry, possibly empty. A
      request's lookup runs in the thread with the request's number; `begun` are those that have. */
  datatype State = State(replica: nat, gate: Gate.State, sids: map<nat, string>, sessions: Sessions.State,
                         begun: set<nat>)

  /** A request arrives; another step of the gate; a step of the lookups and sessions; or the end of a
      lookup, which tells the gate what it found. */
  datatype Event =
    | Arrive(request: nat, isPublic: bool, json: bool, sid: string)
    | AtGate(step: Gate.Event)
    | Below(event: Sessions.Event)
    | Report(request: nat, lookup: Gate.Lookup)

  function Initial(workers: nat, replica: nat): State {
    State(replica, Gate.Initial(workers), map[], Sessions.START, {})
  }

  predicate ReturnedBy(x: Sessions.Return, thread: nat, user: Sessions.User) {
    x.thread == thread && x.traced.entry.user == user
  }

  /** The lookup in the request's thread has ended in this way. */
  ghost predicate Reported(s: Sessions.State, request: nat, result: Sessions.LookupResult) {
    match result
    case SignedIn(user) => exists x :: x in s.returned && ReturnedBy(x, request, user)
    case UnknownSession => exists m :: m in s.misses && m.thread == request
    case NoCookie => true
    case Unavailable => true
  }

  /** A thread begins one lookup for a request here, once it runs, with the request's session id and on
      this replica; threads with numbers that are no requests here are free to begin any. */
  predicate MayBegin(s: State, e: Sessions.Event) {
    e.Peek? && e.thread in s.sids ==>
      e.thread in s.gate.running && e.thread !in s.begun && e.replica == s.replica && e.sid == s.sids[e.thread]
  }

  ghost function Do(workers: nat, s: State, e: Event): State {
    match e
    case Arrive(r, isPublic, json, sid) =>
      if r in s.begun || r in s.gate.wantsJson then s
      else s.(gate := Gate.Do(workers, s.gate, Gate.Arrive(r, isPublic, json)), sids := s.sids[r := sid])
    case AtGate(step) =>
      if step.Finish? || step.Arrive? then s else s.(gate := Gate.Do(workers, s.gate, step))
    case Below(event) =>
      if !MayBegin(s, event) then s
      else s.(sessions := Sessions.Do(s.sessions, event),
              begun := if event.Peek? then s.begun + {event.thread} else s.begun)
    case Report(r, lookup) =>
      if r !in s.sids || lookup.sid != s.sids[r] || !Reported(s.sessions, r, Gate.Outcome(lookup)) then s
      else s.(gate := Gate.Do(workers, s.gate, Gate.Finish(r, lookup)))
  }

  ghost function Execute(workers: nat, replica: nat, events: seq<Event>): State {
    if events == [] then Initial(workers, replica)
    else Do(workers, Execute(workers, replica, events[..|events| - 1]), events[|events| - 1])
  }

  // ---------------------------------------------------------------- the invariant

  ghost predicate ResultReported(s: State, r: nat)
    requires r in s.gate.results
  {
    && Reported(s.sessions, r, s.gate.results[r])
    && (s.gate.results[r].NoCookie? ==> r in s.sids && s.sids[r] == "")
  }

  ghost predicate ResultsReported(s: State) {
    forall r :: r in s.gate.results ==> ResultReported(s, r)
  }

  /** If the thread is that of a request here, it looks up that request's session, here. */
  predicate Own(s: State, thread: nat, replica: nat, sid: string) {
    thread in s.begun && (thread in s.sids ==> replica == s.replica && sid == s.sids[thread])
  }

  predicate ThreadsOwn(s: State) {
    forall t :: t in s.sessions.threads ==> Own(s, t, s.sessions.threads[t].replica, s.sessions.threads[t].sid)
  }

  predicate ReturnsOwn(s: State) {
    forall x :: x in s.sessions.returned ==> Own(s, x.thread, x.replica, x.sid)
  }

  predicate MissesOwn(s: State) {
    forall m :: m in s.sessions.misses ==> Own(s, m.thread, s.replica, m.sid)
  }

  ghost predicate Inv(workers: nat, s: State) {
    && Gate.Inv(workers, s.gate) && Sessions.Inv(s.sessions) && s.sids.Keys == s.gate.wantsJson.Keys
    && ThreadsOwn(s) && ReturnsOwn(s) && MissesOwn(s) && ResultsReported(s)
  }

  lemma HistoriesGrow(s: Sessions.State, e: Sessions.Event)
    ensures s.returned <= Sessions.Do(s, e).returned && s.misses <= Sessions.Do(s, e).misses
  {
  }

  lemma ReportedStays(s: Sessions.State, e: Sessions.Event, request: nat, result: Sessions.LookupResult)
    requires Reported(s, request, result)
    ensures Reported(Sessions.Do(s, e), request, result)
  {
    HistoriesGrow(s, e);
    match result
    case SignedIn(user) =>
      var x :| x in s.returned && ReturnedBy(x, request, user);
      assert x in Sessions.Do(s, e).returned;
    case UnknownSession =>
      var m :| m in s.misses && m.thread == request;
      assert m in Sessions.Do(s, e).misses;
    case _ =>
  }

  /** Only the end of a lookup gives a request its result. */
  lemma ResultsOfStep(workers: nat, g: Gate.State, e: Gate.Event, r: nat)
    requires r in Gate.Do(workers, g, e).results
    ensures (r in g.results && Gate.Do(workers, g, e).results[r] == g.results[r])
         || (e.Finish? && e.request == r && Gate.Do(workers, g, e).results[r] == Gate.Outcome(e.lookup))
  {
  }

  lemma ResultStays(workers: nat, s: State, e: Event, r: nat)
    requires Inv(workers, s) && Do(workers, s, e) != s && r in Do(workers, s, e).gate.results
    ensures ResultReported(Do(workers, s, e), r)
  {
    match e {
      case Arrive(q, isPublic, json, _) =>
        ResultsOfStep(workers, s.gate, Gate.Arrive(q, isPublic, json), r);
        assert ResultReported(s, r);
      case AtGate(step) =>
        ResultsOfStep(workers, s.gate, step, r);
        assert ResultReported(s, r);
      case Below(event) =>
        assert ResultReported(s, r);
        ReportedStays(s.sessions, event, r, s.gate.results[r]);
      case Report(q, lookup) =>
        ResultsOfStep(workers, s.gate, Gate.Finish(q, lookup), r);
        if r in s.gate.results && Do(workers, s, e).gate.results[r] == s.gate.results[r] {
          assert ResultReported(s, r);
        }
    }
  }

  /** Where the threads of a step of the lookups come from, and what they leave behind. */
  lemma ThreadOfStep(s: Sessions.State, e: Sessions.Event, t: nat)
    requires t in Sessions.Do(s, e).threads
    ensures var after := Sessions.Do(s, e).threads[t];
            if t in s.threads then after.replica == s.threads[t].replica && after.sid == s.threads[t].sid
            else e == Sessions.Peek(t, after.replica, after.sid)
  {
  }

  lemma ReturnOfStep(s: Sessions.State, e: Sessions.Event, x: Sessions.Return)
    requires x in Sessions.Do(s, e).returned && x !in s.returned
    ensures x.thread in s.threads && x.replica == s.threads[x.thread].replica && x.sid == s.threads[x.thread].sid
  {
  }

  lemma MissOfStep(s: Sessions.State, e: Sessions.Event, m: Sessions.Miss)
    requires m in Sessions.Do(s, e).misses && m !in s.misses
    ensures m.thread in s.threads && m.sid == s.threads[m.thread].sid
  {
  }

  lemma OwnAfterStep(workers: nat, s: State, event: Sessions.Event)
    requires Inv(workers, s) && MayBegin(s, event)
    ensures var t := Do(workers, s, Below(event)); ThreadsOwn(t) && ReturnsOwn(t) && MissesOwn(t)
  {
    var t := Do(workers, s, Below(event));
    forall thread | thread in t.sessions.threads
      ensures Own(t, thread, t.sessions.threads[thread].replica, t.sessions.threads[thread].sid)
    {
      ThreadOfStep(s.sessions, event, thread);
    }
    forall x | x in t.sessions.returned
      ensures Own(t, x.thread, x.replica, x.sid)
    {
      if x !in s.sessions.returned { ReturnOfStep(s.sessions, event, x); }
    }
    forall m | m in t.sessions.misses
      ensures Own(t, m.thread, t.replica, m.sid)
    {
      if m !in s.sessions.misses { MissOfStep(s.sessions, event, m); }
    }
  }

  lemma InvStays(workers: nat, s: State, e: Event)
    requires Inv(workers, s)
    ensures Inv(workers, Do(workers, s, e))
  {
    var t := Do(workers, s, e);
    if t != s {
      match e {
        case Arrive(r, isPublic, json, _) => Gate.InvStays(workers, s.gate, Gate.Arrive(r, isPublic, json));
        case AtGate(step) =>
          Gate.InvStays(workers, s.gate, step);
          Gate.RequestsOfStep(workers, s.gate, step);
        case Below(event) =>
          Sessions.InvStays(s.sessions, event);
          OwnAfterStep(workers, s, event);
        case Report(r, lookup) =>
          Gate.InvStays(workers, s.gate, Gate.Finish(r, lookup));
          Gate.RequestsOfStep(workers, s.gate, Gate.Finish(r, lookup));
      }
      forall r | r in t.gate.results
        ensures ResultReported(t, r)
      {
        ResultStays(workers, s, e, r);
      }
    }
  }

  lemma {:induction false} Always(workers: nat, replica: nat, events: seq<Event>)
    ensures Inv(workers, Execute(workers, replica, events)) && Execute(workers, replica, events).replica == replica
  {
    if events != [] {
      Always(workers, replica, events[..|events| - 1]);
      InvStays(workers, Execute(workers, replica, events[..|events| - 1]), events[|events| - 1]);
    }
  }

  // ---------------------------------------------------------------- the theorems

  /** The request's own lookup handed out the user, for the session id that the request carries and on
      this replica, from a row that was read while that session lived, less than 30 seconds plus that
      entry's own read-to-store delay before the lookup ended. */
  ghost predicate LivedLately(s: State, request: nat, user: Sessions.User)
    requires request in s.sids
  {
    exists x :: x in s.sessions.returned && ReturnedBy(x, request, user)
             && x.sid == s.sids[request] && x.replica == s.replica && Sessions.ReturnGenuine(s.sessions, x)
  }

  /** In every run, whoever is handed on as a user is that user: the session whose id the request carries
      is that user's, and lived lately. */
  lemma LetInLately(workers: nat, replica: nat, events: seq<Event>, r: nat, user: Sessions.User)
    requires var g := Execute(workers, replica, events).gate; r in g.answers && g.answers[r] == Gate.Passed(Some(user))
    ensures var s := Execute(workers, replica, events); r in s.sids && LivedLately(s, r, user)
  {
    Always(workers, replica, events);
    var s := Execute(workers, replica, events);
    assert Gate.Justified(s.gate, r, s.gate.answers[r]);
    assert ResultReported(s, r);
    var x :| x in s.sessions.returned && ReturnedBy(x, r, user);
    var i :| 0 <= i < |s.sessions.returned| && s.sessions.returned[i] == x;
    assert Sessions.ReturnGenuine(s.sessions, s.sessions.returned[i]);
    assert Own(s, x.thread, x.replica, x.sid);
  }

  /** So a request is not let in on a session of its own that ended 30 seconds plus the delay, or more,
      before its lookup ended. */
  lemma NotLetInAfterLogout(workers: nat, replica: nat, events: seq<Event>, r: nat, user: Sessions.User)
    requires var s := Execute(workers, replica, events);
             && r in s.gate.answers && s.gate.answers[r] == Gate.Passed(Some(user))
             && r in s.sids && s.sids[r] in s.sessions.ended
    ensures var s := Execute(workers, replica, events);
            exists x :: x in s.sessions.returned && ReturnedBy(x, r, user) && x.sid == s.sids[r]
                     && x.at - s.sessions.ended[s.sids[r]]
                        < Sessions.SESSION_CACHE_TTL + (x.traced.entry.stored - x.traced.readAt)
  {
    LetInLately(workers, replica, events, r, user);
    var s := Execute(workers, replica, events);
    var x :| x in s.sessions.returned && ReturnedBy(x, r, user)
          && x.sid == s.sids[r] && x.replica == s.replica && Sessions.ReturnGenuine(s.sessions, x);
  }

  /** The request's lookup found no row for the session id it carries, which did not live when it asked. */
  ghost predicate RefusedRightly(s: State, request: nat)
    requires request in s.sids
  {
    exists m :: m in s.sessions.misses && m.thread == request && m.sid == s.sids[request]
             && Sessions.Absent(s.sessions, m.sid, m.askedAt)
  }

  /** In every run, a request is refused, or sent to the login page, only if it carries no session id, or
      one whose session was not yet created, or deleted already, when its own lookup asked the store.
      Nobody with a living session is logged out by an outage, a full queue or a timeout. */
  lemma RefusedOnlyWithoutSession(workers: nat, replica: nat, events: seq<Event>, r: nat)
    requires var g := Execute(workers, replica, events).gate;
             r in g.answers && g.answers[r] in {Gate.Unauthorized, Gate.ToLogin}
    ensures var s := Execute(workers, replica, events); r in s.sids && (s.sids[r] == "" || RefusedRightly(s, r))
  {
    Always(workers, replica, events);
    var s := Execute(workers, replica, events);
    assert Gate.Justified(s.gate, r, s.gate.answers[r]);
    assert ResultReported(s, r);
    if s.sids[r] != "" {
      var m :| m in s.sessions.misses && m.thread == r;
      var i :| 0 <= i < |s.sessions.misses| && s.sessions.misses[i] == m;
      assert Sessions.Absent(s.sessions, s.sessions.misses[i].sid, s.sessions.misses[i].askedAt);
      assert Own(s, m.thread, s.replica, m.sid);
    }
  }

  /** The request `r` first arrives with the `i`th event, before any thread has begun under its number. */
  ghost predicate FirstArrival(workers: nat, replica: nat, events: seq<Event>, i: nat, r: nat, isPublic: bool,
                               json: bool, sid: string) {
    && i < |events| && events[i] == Arrive(r, isPublic, json, sid)
    && (forall j :: 0 <= j < i && events[j].Arrive? ==> events[j].request != r)
    && r !in Execute(workers, replica, events[..i]).begun
  }

  ghost predicate Treated(s: State, r: nat, isPublic: bool, json: bool, sid: string) {
    Gate.Treated(s.gate, r, isPublic, json) && r in s.sids && s.sids[r] == sid
  }

  lemma {:induction false} NotArrived(workers: nat, replica: nat, events: seq<Event>, r: nat)
    requires forall j :: 0 <= j < |events| && events[j].Arrive? ==> events[j].request != r
    ensures r !in Execute(workers, replica, events).sids
  {
    if events != [] {
      NotArrived(workers, replica, events[..|events| - 1], r);
    }
  }

  lemma TreatedOnArrival(workers: nat, s: State, r: nat, isPublic: bool, json: bool, sid: string)
    requires Inv(workers, s) && r !in s.sids && r !in s.begun
    ensures Treated(Do(workers, s, Arrive(r, isPublic, json, sid)), r, isPublic, json, sid)
  {
    Gate.TreatedOnArrival(workers, s.gate, r, isPublic, json);
  }

  lemma TreatedStays(workers: nat, s: State, e: Event, r: nat, isPublic: bool, json: bool, sid: string)
    requires Inv(workers, s) && Treated(s, r, isPublic, json, sid)
    ensures Treated(Do(workers, s, e), r, isPublic, json, sid)
  {
    match e
    case Arrive(q, isPublic', json', _) =>
      Gate.TreatedStays(workers, s.gate, Gate.Arrive(q, isPublic', json'), r, isPublic, json);
    case AtGate(step) => Gate.TreatedStays(workers, s.gate, step, r, isPublic, json);
    case Below(_) =>
    case Report(q, lookup) => Gate.TreatedStays(workers, s.gate, Gate.Finish(q, lookup), r, isPublic, json);
  }

  lemma LastStep(workers: nat, replica: nat, events: seq<Event>, s: State, e: Event)
    requires events != [] && s == Execute(workers, replica, events[..|events| - 1]) && e == events[|events| - 1]
    ensures Execute(workers, replica, events) == Do(workers, s, e)
  {
  }

  lemma TreatedAtFirst(workers: nat, replica: nat, events: seq<Event>, i: nat, r: nat, isPublic: bool, json: bool,
                       sid: string) returns (s: State)
    requires FirstArrival(workers, replica, events, i, r, isPublic, json, sid)
    ensures s == Execute(workers, replica, events[..i]) && Inv(workers, s)
    ensures Treated(Do(workers, s, events[i]), r, isPublic, json, sid)
  {
    s := Execute(workers, replica, events[..i]);
    Always(workers, replica, events[..i]);
    NotArrived(workers, replica, events[..i], r);
    TreatedOnArrival(workers, s, r, isPublic, json, sid);
  }

  lemma {:induction false} TreatedSince(workers: nat, replica: nat, events: seq<Event>, i: nat, r: nat, isPublic: bool,
                                        json: bool, sid: string) returns (s: State)
    requires FirstArrival(workers, replica, events, i, r, isPublic, json, sid)
    ensures s == Execute(workers, replica, events) && Treated(s, r, isPublic, json, sid)
  {
    var before, e := events[..|events| - 1], events[|events| - 1];
    var earlier: State;
    if i == |before| {
      assert events[..i] == before;
      earlier := TreatedAtFirst(workers, replica, events, i, r, isPublic, json, sid);
    } else {
      assert before[..i] == events[..i];
      earlier := TreatedSince(workers, replica, before, i, r, isPublic, json, sid);
      Always(workers, replica, before);
      TreatedStays(workers, earlier, e, r, isPublic, json, sid);
    }
    s := Do(workers, earlier, e);
    LastStep(workers, replica, events, earlier, e);
  }

  /** In every run, a request goes on without a lookup if and only if its path is public; and one that is
      handed on otherwise is handed on as the user of a lookup that found, for the session id it arrived
      with, a session that lived lately. */
  lemma PassedUnseenIffPublic(workers: nat, replica: nat, events: seq<Event>, i: nat, r: nat, isPublic: bool,
                              json: bool, sid: string)
    requires FirstArrival(workers, replica, events, i, r, isPublic, json, sid)
    ensures var s := Execute(workers, replica, events);
            && (r in s.gate.answers && s.gate.answers[r] == Gate.Passed(None) <==> isPublic)
            && r in s.sids && s.sids[r] == sid
            && (!isPublic && r in s.gate.answers && s.gate.answers[r].Passed? ==>
                  s.gate.answers[r].user.Some? && LivedLately(s, r, s.gate.answers[r].user.value))
  {
    var s := TreatedSince(workers, replica, events, i, r, isPublic, json, sid);
    if !isPublic && r in s.gate.answers && s.gate.answers[r].Passed? {
      LetInLately(workers, replica, events, r, s.gate.answers[r].user.value);
    }
  }
}
