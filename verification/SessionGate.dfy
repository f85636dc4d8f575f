/** Admission control of session lookups: a semaphore of twice as many permits as there are lookup
    threads, a thread pool with a queue, and a deadline after which a request stops waiting for a
    lookup that may go on running. */
module SessionGate {
  import opened Wrappers
  import Sessions = SessionCache

  datatype Reason = AuthSaturated | AuthTimeout | AuthBackendError

  /** What the gate does with a request: hand it on, refuse it, send it to the login page, or ask
      the client to try again (status 503). */
  datatype Response = Passed(user: Option<Sessions.User>) | Unauthorized | ToLogin | TryAgain(reason: Reason)

  /** What a lookup thread has worked with: its replica's cache, the session id, the store's answer. */
  datatype Lookup = Lookup(cache: map<string, Sessions.Entry>, sid: string, checked: real,
                           answer: Sessions.StoreAnswer, finished: real)

  function Outcome(l: Lookup): Sessions.LookupResult {
    Sessions.LookUp(l.cache, l.sid, l.checked, l.answer, l.finished).1
  }

  /** `queue` is the thread pool's queue; a queued lookup in `cancelled` will be skipped. `admitted`
      and `releases` are histories: who ever got a permit, and how often each gave one back. */
  datatype State = State(permits: nat, wantsJson: map<nat, bool>, waiting: set<nat>, holding: set<nat>,
                         queue: seq<nat>, cancelled: set<nat>, running: set<nat>,
                         results: map<nat, Sessions.LookupResult>, answers: map<nat, Response>,
                         admitted: set<nat>, releases: multiset<nat>)

  datatype Event =
    | Arrive(request: nat, isPublic: bool, json: bool)
    | Admit(request: nat)
    | Saturate(request: nat)
    | Start
    | Finish(request: nat, lookup: Lookup)
    | Resume(request: nat)
    | TimeOut(request: nat)
    | Disconnect(request: nat)

  function Initial(workers: nat): State {
    State(2 * workers, map[], {}, {}, [], {}, {}, map[], map[], {}, multiset{})
  }

  function Respond(result: Sessions.LookupResult, json: bool): Response {
    match result
    case SignedIn(user) => Passed(Some(user))
    case Unavailable => TryAgain(AuthBackendError)
    case _ => if json then Unauthorized else ToLogin
  }

  /** The request stops waiting: it gives its permit back, and a lookup still queued is cancelled. */
  function Release(s: State, r: nat): State {
    s.(permits := s.permits + 1, holding := s.holding - {r}, releases := s.releases + multiset{r},
       cancelled := if r in s.queue then s.cancelled + {r} else s.cancelled)
  }

  /** The state after an event; an event that cannot happen changes nothing. */
  function Do(workers: nat, s: State, e: Event): State {
    match e
    case Arrive(r, isPublic, json) =>
      if r in s.wantsJson then s
      else if isPublic then s.(wantsJson := s.wantsJson[r := json], answers := s.answers[r := Passed(None)])
      else s.(wantsJson := s.wantsJson[r := json], waiting := s.waiting + {r})
    case Admit(r) =>
      if r !in s.waiting || s.permits == 0 then s
      else s.(permits := s.permits - 1, waiting := s.waiting - {r}, holding := s.holding + {r},
              admitted := s.admitted + {r}, queue := s.queue + [r])
    case Saturate(r) =>
      if r !in s.waiting then s
      else s.(waiting := s.waiting - {r}, answers := s.answers[r := TryAgain(AuthSaturated)])
    case Start =>
      if s.queue == [] || |s.running| >= workers then s
      else if s.queue[0] in s.cancelled then s.(queue := s.queue[1..])
      else s.(queue := s.queue[1..], running := s.running + {s.queue[0]})
    case Finish(r, lookup) =>
      if r !in s.running then s
      else if r in s.holding then s.(running := s.running - {r}, results := s.results[r := Outcome(lookup)])
      else s.(running := s.running - {r})
    case Resume(r) =>
      if r !in s.holding || r !in s.results || r !in s.wantsJson then s
      else Release(s, r).(answers := s.answers[r := Respond(s.results[r], s.wantsJson[r])])
    case TimeOut(r) =>
      if r !in s.holding then s
      else Release(s, r).(answers := s.answers[r := TryAgain(AuthTimeout)])
    case Disconnect(r) =>
      if r in s.holding then Release(s, r) else s.(waiting := s.waiting - {r})
  }

  function Execute(workers: nat, events: seq<Event>): State {
    if events == [] then Initial(workers)
    else Do(workers, Execute(workers, events[..|events| - 1]), events[|events| - 1])
  }

  // ---------------------------------------------------------------- the gate as code

  class Gate {
    const workers: nat
    var permits: nat
    var wantsJson: map<nat, bool>
    var waiting: set<nat>
    var holding: set<nat>
    var queue: seq<nat>
    var cancelled: set<nat>
    var running: set<nat>
    var results: map<nat, Sessions.LookupResult>
    var answers: map<nat, Response>
    ghost var admitted: set<nat>
    ghost var releases: multiset<nat>

    ghost function Now(): State
      reads this
    {
      State(permits, wantsJson, waiting, holding, queue, cancelled, running, results, answers, admitted, releases)
    }

    constructor (workers: nat)
      ensures this.workers == workers && Now() == Initial(workers)
    {
      this.workers := workers;
      permits := 2 * workers;
      wantsJson, waiting, holding, queue, cancelled, running := map[], {}, {}, [], {}, {};
      results, answers := map[], map[];
      admitted, releases := {}, multiset{};
    }

    method Arrival(r: nat, isPublic: bool, json: bool)
      requires r !in wantsJson
      modifies this
      ensures Now() == Do(workers, old(Now()), Arrive(r, isPublic, json))
      ensures answers == if isPublic then old(answers)[r := Passed(None)] else old(answers)
      ensures waiting == if isPublic then old(waiting) else old(waiting) + {r}
    {
      wantsJson := wantsJson[r := json];
      if isPublic {
        answers := answers[r := Passed(None)];
        return;
      }
      waiting := waiting + {r};
    }

    /** One attempt to get a permit; `expired` says that half a second has gone by without one. */
    method Acquire(r: nat, expired: bool)
      requires r in waiting
      modifies this
      ensures Now() == Do(workers, old(Now()), if expired then Saturate(r) else Admit(r))
      ensures expired ==> r !in waiting && answers == old(answers)[r := TryAgain(AuthSaturated)]
      ensures !expired && old(permits) > 0 ==>
                && permits == old(permits) - 1 && r !in waiting && holding == old(holding) + {r}
                && queue == old(queue) + [r] && answers == old(answers)
      ensures !expired && old(permits) == 0 ==> Now() == old(Now())
    {
      if expired {
        waiting := waiting - {r};
        answers := answers[r := TryAgain(AuthSaturated)];
      } else if permits > 0 {
        permits := permits - 1;
        waiting, holding := waiting - {r}, holding + {r};
        queue := queue + [r];
        admitted := admitted + {r};
      }
    }

    /** An idle thread takes the next queued lookup. */
    method TakeNext()
      modifies this
      ensures Now() == Do(workers, old(Now()), Start)
      ensures old(queue) != [] && |old(running)| < workers ==>
                && queue == old(queue)[1..]
                && running == if old(queue)[0] in cancelled then old(running) else old(running) + {old(queue)[0]}
      ensures old(queue) == [] || |old(running)| >= workers ==> Now() == old(Now())
    {
      if queue == [] || |running| >= workers { return; }
      var next := queue[0];
      queue := queue[1..];
      if next !in cancelled {
        running := running + {next};
      }
    }

    method Complete(r: nat, lookup: Lookup)
      requires r in running
      modifies this
      ensures Now() == Do(workers, old(Now()), Finish(r, lookup))
      ensures running == old(running) - {r}
      ensures results == if r in holding then old(results)[r := Outcome(lookup)] else old(results)
    {
      running := running - {r};
      if r in holding {
        results := results[r := Outcome(lookup)];
      }
    }

    /** The rest of the request once its wait is over: the permit always goes back first. */
    method Continue(r: nat, timedOut: bool)
      requires r in holding && r in wantsJson && (timedOut || r in results)
      modifies this
      ensures Now() == Do(workers, old(Now()), if timedOut then TimeOut(r) else Resume(r))
      ensures permits == old(permits) + 1 && holding == old(holding) - {r}
      ensures cancelled == if r in queue then old(cancelled) + {r} else old(cancelled)
      ensures answers.Keys == old(answers).Keys + {r}
      ensures answers[r] == if timedOut then TryAgain(AuthTimeout)
                            else match results[r]
                                 case SignedIn(user) => Passed(Some(user))
                                 case Unavailable => TryAgain(AuthBackendError)
                                 case _ => if wantsJson[r] then Unauthorized else ToLogin
    {
      var response := TryAgain(AuthTimeout);
      if !timedOut {
        response := Respond(results[r], wantsJson[r]);
      }
      GiveBack(r);
      answers := answers[r := response];
    }

    method GiveBack(r: nat)
      requires r in holding
      modifies this
      ensures Now() == Release(old(Now()), r)
    {
      if r in queue {
        cancelled := cancelled + {r};
      }
      holding := holding - {r};
      permits := permits + 1;
      releases := releases + multiset{r};
    }
  }

  // ---------------------------------------------------------------- the invariant

  function Live(s: State): set<nat> {
    set r | r in s.queue && r !in s.cancelled
  }

  predicate Distinct(queue: seq<nat>) {
    forall i, j :: 0 <= i < j < |queue| ==> queue[i] != queue[j]
  }

  predicate Permits(workers: nat, s: State) {
    && s.permits + |s.holding| == 2 * workers
    && |s.running| <= workers
    && s.holding <= s.admitted && s.waiting !! s.admitted
    && s.holding <= s.wantsJson.Keys && s.waiting <= s.wantsJson.Keys && s.admitted <= s.wantsJson.Keys
  }

  ghost predicate ReleasedOnce(s: State) {
    forall r :: s.releases[r] == if r in s.admitted && r !in s.holding then 1 else 0
  }

  /** Every lookup is in one place: queued, running, or done; and a request that waits has one. */
  predicate Places(s: State) {
    && Distinct(s.queue)
    && (forall r :: r in s.queue ==> r in s.admitted && r !in s.running && r !in s.results)
    && (forall r :: r in s.queue && r !in s.cancelled ==> r in s.holding)
    && s.running <= s.admitted && s.running !! s.results.Keys && s.results.Keys <= s.admitted
    && (forall r :: r in s.holding ==> r in s.queue || r in s.running || r in s.results)
    && s.cancelled !! s.holding && s.cancelled <= s.admitted
  }

  /** Every response has its reason. */
  predicate Reasons(s: State) {
    forall r :: r in s.answers ==> r in s.wantsJson && Justified(s, r, s.answers[r])
  }

  predicate Justified(s: State, r: nat, a: Response)
    requires r in s.wantsJson
  {
    match a
    case Passed(None) => r !in s.admitted && r !in s.waiting
    case TryAgain(AuthSaturated) => r !in s.admitted && r !in s.waiting
    case TryAgain(AuthTimeout) => r in s.admitted && r !in s.holding
    case _ => r in s.admitted && r !in s.holding && r in s.results && a == Respond(s.results[r], s.wantsJson[r])
  }

  ghost predicate Inv(workers: nat, s: State) {
    Permits(workers, s) && ReleasedOnce(s) && Places(s) && Reasons(s)
  }

  lemma PermitsAfterAdmit(workers: nat, s: State, r: nat)
    requires Permits(workers, s) && r in s.waiting && s.permits > 0
    ensures Permits(workers, Do(workers, s, Admit(r)))
  {
    assert r !in s.holding;
    assert |s.holding + {r}| == |s.holding| + 1;
  }

  lemma PermitsAfterStart(workers: nat, s: State)
    requires Permits(workers, s) && Places(s)
    ensures Permits(workers, Do(workers, s, Start))
  {
    if s.queue != [] {
      assert |s.running + {s.queue[0]}| == |s.running| + 1 by { assert s.queue[0] in s.queue; }
    }
  }

  lemma PermitsAfterFinish(workers: nat, s: State, r: nat, lookup: Lookup)
    requires Permits(workers, s)
    ensures Permits(workers, Do(workers, s, Finish(r, lookup)))
  {
    if r in s.running {
      assert |s.running - {r}| == |s.running| - 1;
    }
  }

  lemma PermitsAfterRelease(workers: nat, s: State, r: nat)
    requires Permits(workers, s) && r in s.holding
    ensures Permits(workers, Release(s, r))
  {
    assert |s.holding - {r}| == |s.holding| - 1;
  }

  lemma PermitsStay(workers: nat, s: State, e: Event)
    requires Permits(workers, s) && Places(s)
    ensures Permits(workers, Do(workers, s, e))
  {
    var t := Do(workers, s, e);
    if t != s {
      match e
      case Admit(r) => PermitsAfterAdmit(workers, s, r);
      case Start => PermitsAfterStart(workers, s);
      case Finish(r, lookup) => PermitsAfterFinish(workers, s, r, lookup);
      case Arrive(_, _, _) =>
      case Saturate(_) =>
      case _ => if e.request in s.holding { PermitsAfterRelease(workers, s, e.request); }
    }
  }

  lemma ReleasesAfterRelease(s: State, r: nat)
    requires ReleasedOnce(s) && s.holding <= s.admitted && r in s.holding
    ensures ReleasedOnce(Release(s, r))
  {
    assert forall q :: (s.releases + multiset{r})[q] == s.releases[q] + if q == r then 1 else 0;
  }

  lemma ReleasesAfterAdmit(workers: nat, s: State, r: nat)
    requires ReleasedOnce(s) && s.waiting !! s.admitted
    ensures ReleasedOnce(Do(workers, s, Admit(r)))
  {
  }

  lemma ReleasesStay(workers: nat, s: State, e: Event)
    requires Permits(workers, s) && ReleasedOnce(s)
    ensures ReleasedOnce(Do(workers, s, e))
  {
    match e
    case Admit(r) => ReleasesAfterAdmit(workers, s, r);
    case Arrive(_, _, _) =>
    case Saturate(_) =>
    case Start =>
    case Finish(_, _) =>
    case _ => if e.request in s.holding { ReleasesAfterRelease(s, e.request); }
  }

  lemma PlacesAfterAdmit(s: State, r: nat)
    requires Places(s) && s.waiting !! s.admitted && s.holding <= s.admitted && r in s.waiting
    ensures Places(s.(waiting := s.waiting - {r}, holding := s.holding + {r}, admitted := s.admitted + {r},
                      queue := s.queue + [r]))
  {
    var queue := s.queue + [r];
    assert forall q :: q in queue <==> q in s.queue || q == r;
  }

  lemma PlacesAfterStart(workers: nat, s: State)
    requires Places(s)
    ensures Places(Do(workers, s, Start))
  {
    if s.queue != [] {
      var r := Do(workers, s, Start);
      assert forall q :: q in s.queue <==> q == s.queue[0] || q in s.queue[1..];
      assert s.queue[0] !in s.queue[1..];
    }
  }

  lemma PlacesAfterFinish(workers: nat, s: State, r: nat, lookup: Lookup)
    requires Places(s)
    ensures Places(Do(workers, s, Finish(r, lookup)))
  {
  }

  lemma PlacesAfterRelease(s: State, r: nat)
    requires Places(s) && s.holding <= s.admitted && r in s.holding
    ensures Places(Release(s, r))
  {
  }

  /** Places speaks of the lookups only. */
  lemma SamePlaces(s: State, r: State)
    requires Places(s) && r.queue == s.queue && r.cancelled == s.cancelled && r.running == s.running
    requires r.results == s.results && r.holding == s.holding && r.admitted == s.admitted
    ensures Places(r)
  {
  }

  lemma PlacesStay(workers: nat, s: State, e: Event)
    requires Inv(workers, s)
    ensures Places(Do(workers, s, e))
  {
    var r := Do(workers, s, e);
    match e
    case Start => PlacesAfterStart(workers, s);
    case Finish(q, lookup) => PlacesAfterFinish(workers, s, q, lookup);
    case Admit(q) =>
      if r != s {
        PlacesAfterAdmit(s, q);
        SamePlaces(s.(waiting := s.waiting - {q}, holding := s.holding + {q},
                      admitted := s.admitted + {q}, queue := s.queue + [q]), r);
      }
    case Arrive(_, _, _) => SamePlaces(s, r);
    case Saturate(_) => SamePlaces(s, r);
    case _ =>
      if e.request in s.holding {
        PlacesAfterRelease(s, e.request);
        if r != s { SamePlaces(Release(s, e.request), r); }
      } else {
        SamePlaces(s, r);
      }
  }

  lemma JustifiedStays(workers: nat, s: State, e: Event, r: nat)
    requires Permits(workers, s) && Reasons(s) && r in s.answers
    ensures var after := Do(workers, s, e);
            && r in after.answers && r in after.wantsJson
            && Justified(after, r, s.answers[r]) && after.answers[r] == s.answers[r]
  {
    assert Justified(s, r, s.answers[r]);
  }

  lemma NewAnswerJustified(workers: nat, s: State, e: Event, r: nat)
    requires Permits(workers, s) && r in Do(workers, s, e).answers && r !in s.answers
    ensures var after := Do(workers, s, e);
            r in after.wantsJson && Justified(after, r, after.answers[r])
  {
  }

  lemma ReasonsStay(workers: nat, s: State, e: Event)
    requires Inv(workers, s)
    ensures Reasons(Do(workers, s, e))
  {
    var after := Do(workers, s, e);
    forall r | r in after.answers
      ensures r in after.wantsJson && Justified(after, r, after.answers[r])
    {
      if r in s.answers {
        JustifiedStays(workers, s, e, r);
      } else {
        NewAnswerJustified(workers, s, e, r);
      }
    }
  }

  lemma InvStays(workers: nat, s: State, e: Event)
    requires Inv(workers, s)
    ensures Inv(workers, Do(workers, s, e))
  {
    PermitsStay(workers, s, e);
    ReleasesStay(workers, s, e);
    PlacesStay(workers, s, e);
    ReasonsStay(workers, s, e);
  }

  lemma {:induction false} Always(workers: nat, events: seq<Event>)
    ensures Inv(workers, Execute(workers, events))
  {
    if events == [] {
    } else {
      Always(workers, events[..|events| - 1]);
      InvStays(workers, Execute(workers, events[..|events| - 1]), events[|events| - 1]);
    }
  }

  // ---------------------------------------------------------------- permits and threads

  /** In every reachable state the free permits and the holders make up the semaphore, and a request
      has given its permit back exactly once if it was admitted and waits no longer, and never else. */
  lemma PermitsConserved(workers: nat, events: seq<Event>, r: nat)
    ensures var s := Execute(workers, events);
            && s.permits + |s.holding| == 2 * workers
            && s.releases[r] == if r in s.admitted && r !in s.holding then 1 else 0
  {
    Always(workers, events);
  }

  lemma PartsAddUp(whole: set<nat>, a: set<nat>, b: set<nat>, c: set<nat>)
    requires whole == a + b + c && a !! b && (a + b) !! c
    ensures |whole| == |a| + |b| + |c|
  {
    assert |a + b| == |a| + |b|;
  }

  lemma PermitsAccountedForIn(s: State)
    requires Places(s)
    ensures |s.holding| == |Live(s)| + |s.running * s.holding| + |s.results.Keys * s.holding|
    ensures Live(s) !! s.running
  {
    HoldingParts(s);
    PartsAddUp(s.holding, Live(s), s.running * s.holding, s.results.Keys * s.holding);
  }

  lemma HoldingParts(s: State)
    requires Places(s)
    ensures Live(s) !! s.running && Live(s) !! s.results.Keys && s.running !! s.results.Keys
    ensures s.holding == Live(s) + s.running * s.holding + s.results.Keys * s.holding
  {
    forall r | r in s.holding
      ensures r in Live(s) + s.running * s.holding + s.results.Keys * s.holding
    {
      assert r !in s.cancelled;
    }
  }

  /** In every reachable state a permit stands for one lookup: queued, running, or finished and not yet
      picked up. */
  lemma PermitsAccountedFor(workers: nat, events: seq<Event>)
    ensures var s := Execute(workers, events);
            |s.holding| == |Live(s)| + |s.running * s.holding| + |s.results.Keys * s.holding|
  {
    Always(workers, events);
    PermitsAccountedForIn(Execute(workers, events));
  }

  lemma Split(a: set<nat>, b: set<nat>)
    ensures |a| == |a * b| + |a - b|
    ensures |a - b| <= |a|
  {
    assert a == a * b + (a - b);
  }

  lemma LookupsBoundedIn(workers: nat, s: State)
    requires Permits(workers, s) && Places(s)
    ensures |s.running| <= workers && Live(s) !! s.running
    ensures |Live(s)| + |s.running| <= 2 * workers + |s.running - s.holding| <= 3 * workers
  {
    PermitsAccountedForIn(s);
    Split(s.running, s.holding);
  }

  /** At most as many lookups run as there are threads; and those running or still queued are at most
      twice the threads plus the ones that run on after their request has given up: three times the
      threads in all. */
  lemma LookupsBounded(workers: nat, events: seq<Event>)
    ensures var s := Execute(workers, events);
            && |s.running| <= workers && Live(s) !! s.running
            && |Live(s)| + |s.running| <= 2 * workers + |s.running - s.holding| <= 3 * workers
  {
    Always(workers, events);
    LookupsBoundedIn(workers, Execute(workers, events));
  }

  predicate GivesUp(e: Event) {
    e.TimeOut? || e.Disconnect?
  }

  lemma StillWaiting(workers: nat, s: State, e: Event)
    requires Places(s) && s.running <= s.holding && !GivesUp(e)
    ensures Do(workers, s, e).running <= Do(workers, s, e).holding
  {
    if e.Start? && s.queue != [] {
      assert s.queue[0] in s.queue;
    }
  }

  lemma {:induction false} NobodyGaveUp(workers: nat, events: seq<Event>)
    requires forall i :: 0 <= i < |events| ==> !GivesUp(events[i])
    ensures Execute(workers, events).running <= Execute(workers, events).holding
  {
    if events == [] {
    } else {
      var before, e := events[..|events| - 1], events[|events| - 1];
      NobodyGaveUp(workers, before);
      Always(workers, before);
      StillWaiting(workers, Execute(workers, before), e);
    }
  }

  /** As long as no request gives up on its lookup, the documented bound holds. */
  lemma BoundWithoutTimeouts(workers: nat, events: seq<Event>)
    requires forall i :: 0 <= i < |events| ==> !GivesUp(events[i])
    ensures var s := Execute(workers, events); |Live(s)| + |s.running| <= 2 * workers
  {
    NobodyGaveUp(workers, events);
    LookupsBounded(workers, events);
    var s := Execute(workers, events);
    assert s.running - s.holding == {};
  }

  // ---------------------------------------------------------------- the bound is reached

  /** A set of states that no event leaves, such as the reachable ones. */
  ghost predicate Closed(workers: nat, states: iset<State>) {
    forall s, e :: s in states ==> Do(workers, s, e) in states
  }

  function Range(first: nat, count: nat): (r: set<nat>)
    ensures |r| == count && forall i :: i in r <==> first <= i < first + count
  {
    if count == 0 then {} else Range(first, count - 1) + {first + count - 1}
  }

  function Numbers(first: nat, count: nat): (r: seq<nat>)
    ensures |r| == count && forall i :: 0 <= i < count ==> r[i] == first + i
  {
    if count == 0 then [] else Numbers(first, count - 1) + [first + count - 1]
  }

  /** No request has a number from `bound` on. */
  predicate Below(s: State, bound: nat) {
    forall r :: r in s.wantsJson ==> r < bound
  }

  /** `t` is `s` with the requests numbered from `first` admitted. */
  predicate MoreAdmitted(s: State, t: State, first: nat, count: nat) {
    && t.permits == s.permits - count && t.running == s.running && t.cancelled == s.cancelled
    && t.holding == s.holding + Range(first, count)
    && t.queue == s.queue + Numbers(first, count)
    && Below(t, first + count)
  }

  /** A new request arrives and gets a permit at once. */
  lemma ReachAdmission(workers: nat, states: iset<State>, s: State, r: nat) returns (t: State)
    requires Closed(workers, states) && s in states && r !in s.wantsJson && s.permits > 0
    ensures t in states
    ensures t == s.(permits := s.permits - 1, holding := s.holding + {r}, queue := s.queue + [r],
                    wantsJson := s.wantsJson[r := false], waiting := t.waiting, admitted := t.admitted)
  {
    var arrived := Do(workers, s, Arrive(r, false, false));
    t := Do(workers, arrived, Admit(r));
  }

  lemma OneMoreAdmitted(s: State, t: State, u: State, first: nat, count: nat)
    requires MoreAdmitted(s, t, first, count) && 0 < t.permits
    requires u == t.(permits := t.permits - 1, holding := t.holding + {first + count},
                     queue := t.queue + [first + count],
                     wantsJson := t.wantsJson[first + count := false], waiting := u.waiting, admitted := u.admitted)
    ensures MoreAdmitted(s, u, first, count + 1)
  {
    NumbersGrow(s.queue, first, count);
    RangeGrows(first, count);
    assert u.holding == s.holding + (Range(first, count) + {first + count});
  }

  lemma AdmitNext(workers: nat, states: iset<State>, s: State, t: State, first: nat, count: nat, more: nat)
    returns (u: State)
    requires MoreAdmitted(s, t, first, count) && count < s.permits && more == count + 1
    requires Closed(workers, states) && t in states
    ensures u in states && MoreAdmitted(s, u, first, more)
  {
    u := ReachAdmission(workers, states, t, first + count);
    OneMoreAdmitted(s, t, u, first, count);
  }

  lemma NumbersGrow(queue: seq<nat>, first: nat, count: nat)
    ensures queue + Numbers(first, count) + [first + count] == queue + Numbers(first, count + 1)
  {
  }

  lemma NobodyAdmitted(s: State, first: nat)
    requires Below(s, first)
    ensures MoreAdmitted(s, s, first, 0)
  {
  }

  /** `count` new requests, numbered from `first`, are admitted. */
  lemma {:induction false} AdmitMany(workers: nat, states: iset<State>, s: State, first: nat, count: nat)
    returns (t: State)
    requires Closed(workers, states) && s in states && count <= s.permits && Below(s, first)
    ensures t in states && MoreAdmitted(s, t, first, count)
  {
    if count == 0 {
      t := s;
      NobodyAdmitted(s, first);
    } else {
      var most := AdmitMany(workers, states, s, first, count - 1);
      t := AdmitNext(workers, states, s, most, first, count - 1, count);
    }
  }

  /** The first `count` lookups of a queue that starts at request `first` are running. */
  predicate MoreStarted(s: State, t: State, first: nat, length: nat, count: nat) {
    && count <= length
    && t == s.(queue := t.queue, running := t.running)
    && t.queue == Numbers(first + count, length - count) && t.running == Range(first, count)
  }

  lemma NumbersTail(first: nat, count: nat)
    ensures Numbers(first, count + 1)[1..] == Numbers(first + 1, count)
  {
  }

  lemma RangeGrows(first: nat, count: nat)
    ensures Range(first, count) + {first + count} == Range(first, count + 1)
  {
  }

  /** The first of the queued lookups begins to run. */
  lemma ReachStart(workers: nat, states: iset<State>, s: State, first: nat, left: nat) returns (t: State)
    requires Closed(workers, states) && s in states
    requires s.queue == Numbers(first, left + 1) && s.cancelled == {} && |s.running| < workers
    ensures t in states && t == s.(queue := Numbers(first + 1, left), running := s.running + {first})
  {
    t := Do(workers, s, Start);
    NumbersTail(first, left);
  }

  lemma OneMoreStarted(s: State, t: State, u: State, first: nat, length: nat, count: nat)
    requires MoreStarted(s, t, first, length, count) && count < length
    requires u == t.(queue := Numbers(first + count + 1, length - (count + 1)), running := t.running + {first + count})
    ensures MoreStarted(s, u, first, length, count + 1)
  {
    RangeGrows(first, count);
    assert first + count + 1 == first + (count + 1);
  }

  lemma StartNext(workers: nat, states: iset<State>, s: State, t: State, first: nat, length: nat, count: nat,
                  more: nat) returns (u: State)
    requires MoreStarted(s, t, first, length, count) && count < length && count < workers && s.cancelled == {}
    requires Closed(workers, states) && t in states && more == count + 1
    ensures u in states && MoreStarted(s, u, first, length, more)
  {
    u := ReachStart(workers, states, t, first + count, length - more);
    OneMoreStarted(s, t, u, first, length, count);
  }

  lemma {:induction false} StartMany(workers: nat, states: iset<State>, s: State, first: nat, length: nat, count: nat)
    returns (t: State)
    requires Closed(workers, states) && s in states
    requires s.cancelled == {} && s.running == {} && s.queue == Numbers(first, length)
    requires count <= length && count <= workers
    ensures t in states && MoreStarted(s, t, first, length, count)
  {
    if count == 0 {
      t := s;
    } else {
      var most := StartMany(workers, states, s, first, length, count - 1);
      t := StartNext(workers, states, s, most, first, length, count - 1, count);
    }
  }

  /** The requests below `count` have given up, and nothing else has changed. */
  predicate MoreGone(s: State, t: State, count: nat) {
    && t == s.(permits := t.permits, holding := t.holding, releases := t.releases, answers := t.answers)
    && t.permits == s.permits + count && t.holding == s.holding - Range(0, count)
  }

  lemma OneMoreGone(workers: nat, states: iset<State>, s: State, t: State, count: nat, more: nat) returns (u: State)
    requires MoreGone(s, t, count) && count in s.holding && count !in s.queue && more == count + 1
    requires Closed(workers, states) && t in states
    ensures MoreGone(s, u, more) && u in states
  {
    u := Do(workers, t, TimeOut(count));
    assert u.holding == s.holding - Range(0, count) - {count};
    assert u.holding == s.holding - Range(0, count + 1);
  }

  /** The requests numbered below `count` give up while their lookups run. */
  lemma {:induction false} TimeOutMany(workers: nat, states: iset<State>, s: State, count: nat) returns (t: State)
    requires Closed(workers, states) && s in states && forall r :: 0 <= r < count ==> r in s.holding && r !in s.queue
    ensures t in states && MoreGone(s, t, count)
  {
    if count == 0 {
      t := s;
    } else {
      t := TimeOutMany(workers, states, s, count - 1);
      t := OneMoreGone(workers, states, s, t, count - 1, count);
    }
  }

  lemma LiveNumbers(s: State, first: nat, count: nat)
    requires s.queue == Numbers(first, count) && s.cancelled == {}
    ensures |Live(s)| == count
  {
    assert Live(s) == Range(first, count) by {
      forall r | r in Range(first, count)
        ensures r in s.queue
      {
        assert s.queue[r - first] == r;
      }
    }
  }

  lemma JoinNumbers(first: nat, a: nat, b: nat)
    ensures Numbers(first, a) + Numbers(first + a, b) == Numbers(first, a + b)
  {
  }

  lemma AllFull(workers: nat, started: State, timedOut: State, full: State)
    requires started.cancelled == {} && started.queue == Numbers(workers, workers)
    requires started.running == Range(0, workers)
    requires MoreGone(started, timedOut, workers) && MoreAdmitted(timedOut, full, 2 * workers, workers)
    ensures |full.running| == workers && |Live(full)| == 2 * workers
  {
    JoinNumbers(workers, workers, workers);
    LiveNumbers(full, workers, 2 * workers);
  }

  lemma FromInitial(workers: nat, s: State, count: nat)
    requires MoreAdmitted(Initial(workers), s, 0, count)
    ensures s.queue == Numbers(0, count) && s.holding == Range(0, count)
  {
    assert [] + Numbers(0, count) == Numbers(0, count) && {} + Range(0, count) == Range(0, count);
  }

  lemma ReachAdmitted(workers: nat, states: iset<State>) returns (s: State)
    requires Closed(workers, states) && Initial(workers) in states
    ensures s in states && s.cancelled == {} && s.running == {} && s.permits == 0
    ensures s.queue == Numbers(0, 2 * workers) && s.holding == Range(0, 2 * workers)
    ensures Below(s, 2 * workers)
  {
    s := AdmitMany(workers, states, Initial(workers), 0, 2 * workers);
    FromInitial(workers, s, 2 * workers);
  }

  /** As many lookups run as there are threads, and the requests that wait for them hold half the permits. */
  lemma ReachStarted(workers: nat, states: iset<State>) returns (s: State)
    requires Closed(workers, states) && Initial(workers) in states
    ensures s in states && s.cancelled == {} && s.permits == 0
    ensures s.queue == Numbers(workers, workers) && s.running == Range(0, workers) && s.holding == Range(0, 2 * workers)
    ensures Below(s, 2 * workers)
  {
    var admitted := ReachAdmitted(workers, states);
    s := StartMany(workers, states, admitted, 0, 2 * workers, workers);
  }

  lemma ReachFull(workers: nat, states: iset<State>) returns (s: State)
    requires Closed(workers, states) && Initial(workers) in states
    ensures s in states && |s.running| == workers && |Live(s)| == 2 * workers
  {
    var started := ReachStarted(workers, states);
    var timedOut := TimeOutMany(workers, states, started, workers);
    s := AdmitMany(workers, states, timedOut, 2 * workers, workers);
    AllFull(workers, started, timedOut, s);
  }

  ghost predicate Reachable(workers: nat, s: State) {
    exists events :: Execute(workers, events) == s
  }

  lemma ReachableClosed(workers: nat, s: State, e: Event)
    requires Reachable(workers, s)
    ensures Reachable(workers, Do(workers, s, e))
  {
    var events :| Execute(workers, events) == s;
    assert (events + [e])[..|events|] == events;
    assert Execute(workers, events + [e]) == Do(workers, s, e);
  }

  /** The bound of three times the threads cannot be improved, whatever the number of threads. */
  lemma BoundReached(workers: nat)
    ensures exists events ::
              |Execute(workers, events).running| == workers && |Live(Execute(workers, events))| == 2 * workers
  {
    var states := iset s | Reachable(workers, s);
    forall s, e | s in states
      ensures Do(workers, s, e) in states
    {
      ReachableClosed(workers, s, e);
    }
    assert Execute(workers, []) == Initial(workers);
    var full := ReachFull(workers, states);
    var events :| Execute(workers, events) == full;
  }

  // ---------------------------------------------------------------- who is let in without a lookup

  /** The request `r` first arrives with the `i`th event. */
  ghost predicate FirstArrival(events: seq<Event>, i: nat, r: nat, isPublic: bool, json: bool) {
    && i < |events| && events[i] == Arrive(r, isPublic, json)
    && forall j :: 0 <= j < i && events[j].Arrive? ==> events[j].request != r
  }

  /** A public request has been passed and is never looked up; any other is never passed unseen. */
  predicate Treated(s: State, r: nat, isPublic: bool, json: bool) {
    && r in s.wantsJson && s.wantsJson[r] == json
    && if isPublic then r in s.answers && s.answers[r] == Passed(None) && r !in s.admitted && r !in s.waiting
       else r in s.answers ==> s.answers[r] != Passed(None)
  }

  lemma TreatedStays(workers: nat, s: State, e: Event, r: nat, isPublic: bool, json: bool)
    requires Inv(workers, s) && Treated(s, r, isPublic, json)
    ensures Treated(Do(workers, s, e), r, isPublic, json)
  {
  }

  lemma TreatedOnArrival(workers: nat, s: State, r: nat, isPublic: bool, json: bool)
    requires Inv(workers, s) && r !in s.wantsJson
    ensures Treated(Do(workers, s, Arrive(r, isPublic, json)), r, isPublic, json)
  {
  }

  /** Only an arrival makes a request known. */
  lemma RequestsOfStep(workers: nat, s: State, e: Event)
    ensures !e.Arrive? ==> Do(workers, s, e).wantsJson == s.wantsJson
    ensures e.Arrive? ==> Do(workers, s, e).wantsJson.Keys == s.wantsJson.Keys + {e.request}
  {
  }

  lemma {:induction false} NotArrived(workers: nat, events: seq<Event>, r: nat)
    requires forall j :: 0 <= j < |events| && events[j].Arrive? ==> events[j].request != r
    ensures r !in Execute(workers, events).wantsJson
  {
    if events != [] {
      NotArrived(workers, events[..|events| - 1], r);
      RequestsOfStep(workers, Execute(workers, events[..|events| - 1]), events[|events| - 1]);
    }
  }

  /** In every run, from its first arrival on, a request for a public path is passed and never admitted to
      a lookup, and any other request is never passed without one. */
  lemma PassedUnseenIffPublic(workers: nat, events: seq<Event>, i: nat, r: nat, isPublic: bool,
                              json: bool)
    requires FirstArrival(events, i, r, isPublic, json)
    ensures var s := Execute(workers, events);
            && (r in s.answers && s.answers[r] == Passed(None) <==> isPublic)
            && (isPublic ==> r !in s.admitted)
            && r in s.wantsJson && s.wantsJson[r] == json
  {
    var _ := TreatedSince(workers, events, i, r, isPublic, json);
  }

  lemma LastStep(workers: nat, events: seq<Event>, before: State, e: Event)
    requires events != [] && before == Execute(workers, events[..|events| - 1]) && e == events[|events| - 1]
    ensures Execute(workers, events) == Do(workers, before, e)
  {
  }

  lemma TreatedAtFirst(workers: nat, events: seq<Event>, i: nat, r: nat, isPublic: bool, json: bool)
    returns (before: State)
    requires FirstArrival(events, i, r, isPublic, json)
    ensures before == Execute(workers, events[..i]) && Inv(workers, before)
    ensures Treated(Do(workers, before, events[i]), r, isPublic, json)
  {
    before := Execute(workers, events[..i]);
    Always(workers, events[..i]);
    NotArrived(workers, events[..i], r);
    TreatedOnArrival(workers, before, r, isPublic, json);
  }

  lemma {:induction false} TreatedSince(workers: nat, events: seq<Event>, i: nat, r: nat, isPublic: bool, json: bool)
    returns (s: State)
    requires FirstArrival(events, i, r, isPublic, json)
    ensures s == Execute(workers, events) && Treated(s, r, isPublic, json)
  {
    var before, e := events[..|events| - 1], events[|events| - 1];
    var earlier: State;
    if i == |before| {
      assert events[..i] == before;
      earlier := TreatedAtFirst(workers, events, i, r, isPublic, json);
    } else {
      earlier := TreatedSince(workers, before, i, r, isPublic, json);
      Always(workers, before);
      TreatedStays(workers, earlier, e, r, isPublic, json);
    }
    s := Do(workers, earlier, e);
    LastStep(workers, events, earlier, e);
  }

  /** A request is answered once: no later event changes its answer. */
  lemma {:induction false} AnsweredForGood(workers: nat, events: seq<Event>, i: nat, r: nat)
    requires i <= |events| && r in Execute(workers, events[..i]).answers
    ensures r in Execute(workers, events).answers
    ensures Execute(workers, events).answers[r] == Execute(workers, events[..i]).answers[r]
  {
    if i == |events| {
      assert events[..i] == events;
    } else {
      var before := events[..|events| - 1];
      assert before[..i] == events[..i];
      AnsweredForGood(workers, before, i, r);
      Always(workers, before);
      JustifiedStays(workers, Execute(workers, before), events[|events| - 1], r);
    }
  }

  /** The requests in the order in which they got their permits. */
  function Admissions(workers: nat, events: seq<Event>): seq<nat> {
    if events == [] then []
    else
      var before, e := events[..|events| - 1], events[|events| - 1];
      var s := Execute(workers, before);
      Admissions(workers, before) + if e.Admit? && e.request in s.waiting && s.permits > 0 then [e.request] else []
  }

  predicate LastOnes(queue: seq<nat>, all: seq<nat>) {
    |queue| <= |all| && queue == all[|all| - |queue|..]
  }

  lemma QueueOfStep(workers: nat, s: State, e: Event, all: seq<nat>)
    requires LastOnes(s.queue, all)
    ensures LastOnes(Do(workers, s, e).queue,
                     all + if e.Admit? && e.request in s.waiting && s.permits > 0 then [e.request] else [])
  {
    if e.Admit? && e.request in s.waiting && s.permits > 0 {
      assert Do(workers, s, e).queue == s.queue + [e.request];
    } else {
      assert all + [] == all;
      if e.Start? && s.queue != [] {
        assert s.queue[1..] == all[|all| - |s.queue[1..]|..];
      }
    }
  }

  /** Lookups leave the queue in the order in which their requests were admitted, and never overtake. */
  lemma {:induction false} FirstComeFirstServed(workers: nat, events: seq<Event>)
    ensures LastOnes(Execute(workers, events).queue, Admissions(workers, events))
  {
    if events != [] {
      var before := events[..|events| - 1];
      FirstComeFirstServed(workers, before);
      QueueOfStep(workers, Execute(workers, before), events[|events| - 1], Admissions(workers, before));
    }
  }

  // ---------------------------------------------------------------- no forced logout

  /** The lookup `l` of request `r` finished in the run. */
  ghost predicate Finished(events: seq<Event>, r: nat, l: Lookup) {
    Finish(r, l) in events
  }

  /** A result is the outcome of the request's own lookup. */
  lemma {:induction false} ResultsFromLookups(workers: nat, events: seq<Event>, r: nat)
    requires r in Execute(workers, events).results
    ensures exists l :: Finished(events, r, l) && Execute(workers, events).results[r] == Outcome(l)
  {
    if events != [] {
      var before, e := events[..|events| - 1], events[|events| - 1];
      var s, t := Execute(workers, before), Execute(workers, events);
      if r in s.results && t.results[r] == s.results[r] {
        ResultsFromLookups(workers, before, r);
        var l :| Finished(before, r, l) && s.results[r] == Outcome(l);
        assert Finished(events, r, l);
      } else {
        assert e.Finish? && e.request == r;
        assert Finished(events, r, e.lookup);
      }
    }
  }

  /** A request is refused, or sent to the login page when it is no API call, only if its own lookup
      carried no session id or the store answered that lookup with no row. */
  lemma NoForcedLogout(workers: nat, events: seq<Event>, r: nat)
    requires var s := Execute(workers, events); r in s.answers && s.answers[r] in {Unauthorized, ToLogin}
    ensures exists l :: Finished(events, r, l) && (l.sid == "" || l.answer == Sessions.NoRow)
    ensures var s := Execute(workers, events); r in s.wantsJson && (s.wantsJson[r] <==> s.answers[r] == Unauthorized)
  {
    Always(workers, events);
    var s := Execute(workers, events);
    assert Justified(s, r, s.answers[r]);
    ResultsFromLookups(workers, events, r);
    var l :| Finished(events, r, l) && s.results[r] == Outcome(l);
    Sessions.NoSessionOnlyByEvidence(l.cache, l.sid, l.checked, l.answer, l.finished);
  }

  /** A request is handed on as a user only if its own lookup found that user, in its replica's cache
      when young enough, or in the store. */
  lemma LetInByOwnLookup(workers: nat, events: seq<Event>, r: nat, user: Sessions.User)
    requires var s := Execute(workers, events); r in s.answers && s.answers[r] == Passed(Some(user))
    ensures exists l :: Finished(events, r, l) && FoundBy(l, user)
  {
    Always(workers, events);
    var s := Execute(workers, events);
    assert Justified(s, r, s.answers[r]);
    ResultsFromLookups(workers, events, r);
    var l :| Finished(events, r, l) && s.results[r] == Outcome(l);
    assert FoundBy(l, user);
  }

  predicate FoundBy(l: Lookup, user: Sessions.User) {
    l.sid != "" &&
    if l.sid in l.cache && Sessions.IsYoung(l.cache[l.sid], l.checked) then l.cache[l.sid].user == user
    else l.answer == Sessions.Row(user)
  }

  /** What a lookup comes to for the request that asked for it. */
  predicate AnswerTo(l: Lookup, json: bool, a: Response) {
    var refused := if json then Unauthorized else ToLogin;
    if l.sid == "" then a == refused
    else if l.sid in l.cache && l.checked - l.cache[l.sid].stored < 30.0 then a == Passed(Some(l.cache[l.sid].user))
    else match l.answer
         case Row(user) => a == Passed(Some(user))
         case NoRow => a == refused
         case StoreError => a == TryAgain(AuthBackendError)
  }

  /** A request that waits when its lookup ends goes on with what its own lookup found, and gives its
      permit back. */
  lemma AnsweredByOwnLookup(workers: nat, events: seq<Event>, r: nat)
    requires r in Execute(workers, events).holding && r in Execute(workers, events).results
    ensures var s, t := Execute(workers, events), Execute(workers, events + [Resume(r)]);
            && r in t.answers && t.permits == s.permits + 1 && t.holding == s.holding - {r}
            && r in s.wantsJson && exists l :: Finished(events, r, l) && AnswerTo(l, s.wantsJson[r], t.answers[r])
  {
    Always(workers, events);
    var s := Execute(workers, events);
    assert (events + [Resume(r)])[..|events|] == events;
    ResultsFromLookups(workers, events, r);
    var l :| Finished(events, r, l) && s.results[r] == Outcome(l);
    assert AnswerTo(l, s.wantsJson[r], Respond(s.results[r], s.wantsJson[r]));
  }

  /** A request that was not let in by a lookup and not refused by one got "try again" for its reason:
      no permit, too late, or a store that could not be reached. */
  lemma TryAgainHasReason(workers: nat, events: seq<Event>, r: nat)
    requires r in Execute(workers, events).answers && Execute(workers, events).answers[r].TryAgain?
    ensures var s := Execute(workers, events);
            match s.answers[r].reason
            case AuthSaturated => r !in s.admitted
            case AuthTimeout => r in s.admitted && s.releases[r] == 1
            case AuthBackendError =>
              exists l :: Finished(events, r, l) && l.sid != "" && l.answer == Sessions.StoreError
  {
    Always(workers, events);
    var s := Execute(workers, events);
    assert Justified(s, r, s.answers[r]);
    if s.answers[r].reason == AuthBackendError {
      ResultsFromLookups(workers, events, r);
      var l :| Finished(events, r, l) && s.results[r] == Outcome(l);
    }
  }
}
