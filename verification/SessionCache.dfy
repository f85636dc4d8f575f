/** Session lookup with a per-replica cache: the sequential lookup, and any interleaving of
    lookups on any number of replicas with logins and logouts. */
module SessionCache {
  import opened Wrappers

  const SESSION_CACHE_TTL := 30.0

  datatype User = User(userId: nat, username: string, role: string)

  /** A cache entry: when it was stored, and the fields of the session row. */
  datatype Entry = Entry(stored: real, user: User)

  /** What the session store answers. */
  datatype StoreAnswer = Row(user: User) | NoRow | StoreError

  /** The result of a lookup. The two reasons for not knowing a user are kept apart from the
      store being out of reach. */
  datatype LookupResult = SignedIn(user: User) | NoCookie | UnknownSession | Unavailable

  predicate IsYoung(e: Entry, now: real) {
    now - e.stored < SESSION_CACHE_TTL
  }

  /** One lookup that nothing interrupts: `checked` is the time of the age check, `finished` the
      time at which a row found in the store is put into the cache. */
  function LookUp(cache: map<string, Entry>, sid: string, checked: real, answer: StoreAnswer, finished: real)
    : (map<string, Entry>, LookupResult)
  {
    if sid == "" then (cache, NoCookie)
    else if sid in cache && IsYoung(cache[sid], checked) then (cache, SignedIn(cache[sid].user))
    else
      match answer
      case Row(user) => (cache[sid := Entry(finished, user)], SignedIn(user))
      case NoRow => (cache - {sid}, UnknownSession)
      case StoreError => (cache, Unavailable)
  }

  class SessionLookup {
    var cache: map<string, Entry>

    constructor ()
      ensures cache == map[]
    {
      cache := map[];
    }

    method GetCurrentUser(sid: string, checked: real, answer: StoreAnswer, finished: real) returns (r: LookupResult)
      modifies this
      ensures (cache, r) == LookUp(old(cache), sid, checked, answer, finished)
    {
      if sid == "" { return NoCookie; }
      if sid in cache {
        var cached := cache[sid];
        if checked - cached.stored < SESSION_CACHE_TTL { return SignedIn(cached.user); }
      }
      match answer {
        case Row(user) =>
          cache := cache[sid := Entry(finished, user)];
          return SignedIn(user);
        case StoreError =>
          return Unavailable;
        case NoRow =>
      }
      cache := cache - {sid};
      r := UnknownSession;
    }
  }

  predicate SameAt(cache: map<string, Entry>, after: map<string, Entry>, sid: string) {
    (sid in after <==> sid in cache) && (sid in cache ==> after[sid] == cache[sid])
  }

  predicate YoungAt(cache: map<string, Entry>, sid: string, now: real) {
    sid in cache && now - cache[sid].stored < 30.0
  }

  /** A lookup says that nobody is signed in only if it carried no session id or its own read of the
      store found no row; a store error leaves the cache as it was; and someone is signed in by an entry
      that is younger than 30 seconds or, without one, by the row that was read, which is then kept. */
  lemma NoSessionOnlyByEvidence(cache: map<string, Entry>, sid: string, checked: real, answer: StoreAnswer,
                                finished: real)
    ensures var (after, r) := LookUp(cache, sid, checked, answer, finished);
            && (r == NoCookie <==> sid == "")
            && (r == UnknownSession ==> answer == NoRow && sid !in after)
            && (r == Unavailable ==> answer == StoreError)
            && (YoungAt(cache, sid, checked) && sid != "" ==> r == SignedIn(cache[sid].user) && after == cache)
            && (!YoungAt(cache, sid, checked) && sid != "" ==>
                 && (answer == NoRow <==> r == UnknownSession) && (answer == StoreError <==> r == Unavailable)
                 && (answer.Row? ==> r == SignedIn(answer.user) && sid in after
                                     && after[sid] == Entry(finished, answer.user)))
            && (answer == StoreError ==> after == cache)
            && (forall other :: other != sid ==> SameAt(cache, after, other))
  {
  }

  // ---------------------------------------------------------------- interleavings

  /** An entry together with the moment at which its row was read. */
  datatype Traced = Traced(entry: Entry, readAt: real)

  /** How far a lookup thread has come. */
  datatype Phase =
    | Peeked(replica: nat, sid: string, found: Option<Traced>)
    | Querying(replica: nat, sid: string)
    | Fetched(replica: nat, sid: string, user: User, readAt: real)
    | Missed(replica: nat, sid: string, askedAt: real)

  /** A user handed out by a lookup on a replica: when, from an entry stored when, from a row read when. */
  datatype Return = Return(at: real, thread: nat, replica: nat, sid: string, traced: Traced)

  /** A lookup that found no row when it asked. */
  datatype Miss = Miss(thread: nat, sid: string, askedAt: real)

  /** A session that was created: for whom, and when. */
  datatype Session = Session(user: User, since: real)

  /** `issued` and `ended` record every session ever created and when it was deleted; `returned` and
      `misses` how the lookups ended that had an answer. */
  datatype State = State(now: real, store: map<string, User>, issued: map<string, Session>, ended: map<string, real>,
                         caches: map<nat, map<string, Traced>>, threads: map<nat, Phase>,
                         returned: seq<Return>, misses: seq<Miss>)

  datatype Event =
    | Tick(elapsed: real)
    | LogIn(newSid: string, user: User)
    | LogOut(oldSid: string)
    | Peek(thread: nat, replica: nat, sid: string)
    | CheckAge(thread: nat)
    | Query(thread: nat)
    | QueryFails(thread: nat)
    | Remember(thread: nat)
    | Forget(thread: nat)

  const START := State(0.0, map[], map[], map[], map[], map[], [], [])

  function CacheOf(s: State, replica: nat): map<string, Traced> {
    if replica in s.caches then s.caches[replica] else map[]
  }

  function Get(cache: map<string, Traced>, sid: string): Option<Traced> {
    if sid in cache then Some(cache[sid]) else None
  }

  /** The state after an event; an event that cannot happen changes nothing. */
  function Do(s: State, e: Event): State {
    match e
    case Tick(elapsed) => if elapsed >= 0.0 then s.(now := s.now + elapsed) else s
    case LogIn(sid, user) =>
      if sid == "" || sid in s.issued then s
      else s.(store := s.store[sid := user], issued := s.issued[sid := Session(user, s.now)])
    case LogOut(sid) =>
      if sid in s.store then s.(store := s.store - {sid}, ended := s.ended[sid := s.now]) else s
    case Peek(t, replica, sid) =>
      if t in s.threads || sid == "" then s
      else s.(threads := s.threads[t := Peeked(replica, sid, Get(CacheOf(s, replica), sid))])
    case CheckAge(t) =>
      if t !in s.threads || !s.threads[t].Peeked? then s
      else
        var Peeked(replica, sid, found) := s.threads[t];
        if found.Some? && IsYoung(found.value.entry, s.now) then
          s.(threads := s.threads - {t}, returned := s.returned + [Return(s.now, t, replica, sid, found.value)])
        else s.(threads := s.threads[t := Querying(replica, sid)])
    case Query(t) =>
      if t !in s.threads || !s.threads[t].Querying? then s
      else
        var Querying(replica, sid) := s.threads[t];
        if sid in s.store then s.(threads := s.threads[t := Fetched(replica, sid, s.store[sid], s.now)])
        else s.(threads := s.threads[t := Missed(replica, sid, s.now)])
    case QueryFails(t) =>
      if t !in s.threads || !s.threads[t].Querying? then s else s.(threads := s.threads - {t})
    case Remember(t) =>
      if t !in s.threads || !s.threads[t].Fetched? then s
      else
        var Fetched(replica, sid, user, readAt) := s.threads[t];
        var traced := Traced(Entry(s.now, user), readAt);
        s.(threads := s.threads - {t},
           caches := s.caches[replica := CacheOf(s, replica)[sid := traced]],
           returned := s.returned + [Return(s.now, t, replica, sid, traced)])
    case Forget(t) =>
      if t !in s.threads || !s.threads[t].Missed? then s
      else
        var Missed(replica, sid, askedAt) := s.threads[t];
        s.(threads := s.threads - {t}, caches := s.caches[replica := CacheOf(s, replica) - {sid}],
           misses := s.misses + [Miss(t, sid, askedAt)])
  }

  function Execute(events: seq<Event>): State {
    if events == [] then START else Do(Execute(events[..|events| - 1]), events[|events| - 1])
  }

  // ---------------------------------------------------------------- the invariant

  /** The row of `sid` was read at `readAt`: it has these fields, and the session lived then. */
  predicate Genuine(s: State, sid: string, user: User, readAt: real) {
    && sid in s.issued && s.issued[sid].user == user && s.issued[sid].since <= readAt <= s.now
    && (sid in s.ended ==> readAt <= s.ended[sid])
  }

  /** At that time the session was not yet created, or deleted already. */
  predicate Absent(s: State, sid: string, at: real) {
    at <= s.now && (sid in s.issued ==> at <= s.issued[sid].since || (sid in s.ended && s.ended[sid] <= at))
  }

  predicate GenuineEntry(s: State, sid: string, t: Traced) {
    Genuine(s, sid, t.entry.user, t.readAt) && t.readAt <= t.entry.stored <= s.now
  }

  predicate StoreConsistent(s: State) {
    && (forall sid :: sid in s.store ==> sid in s.issued && s.issued[sid].user == s.store[sid] && sid !in s.ended)
    && (forall sid :: sid in s.issued ==> s.issued[sid].since <= s.now && (sid in s.store || sid in s.ended))
    && (forall sid :: sid in s.ended ==> sid in s.issued && s.ended[sid] <= s.now)
  }

  predicate CachesGenuine(s: State) {
    forall replica, sid :: replica in s.caches && sid in s.caches[replica] ==>
      GenuineEntry(s, sid, s.caches[replica][sid])
  }

  predicate PhaseGenuine(s: State, p: Phase) {
    match p
    case Peeked(_, sid, found) => found.Some? ==> GenuineEntry(s, sid, found.value)
    case Querying(_, _) => true
    case Fetched(_, sid, user, readAt) => Genuine(s, sid, user, readAt)
    case Missed(_, sid, askedAt) => Absent(s, sid, askedAt)
  }

  predicate ThreadsGenuine(s: State) {
    forall t :: t in s.threads ==> PhaseGenuine(s, s.threads[t])
  }

  predicate ReturnGenuine(s: State, r: Return) {
    GenuineEntry(s, r.sid, r.traced) && r.at - r.traced.entry.stored < SESSION_CACHE_TTL
  }

  predicate ReturnsGenuine(s: State) {
    forall i :: 0 <= i < |s.returned| ==> ReturnGenuine(s, s.returned[i])
  }

  predicate MissesTrue(s: State) {
    forall i :: 0 <= i < |s.misses| ==> Absent(s, s.misses[i].sid, s.misses[i].askedAt)
  }

  predicate Inv(s: State) {
    StoreConsistent(s) && CachesGenuine(s) && ThreadsGenuine(s) && ReturnsGenuine(s) && MissesTrue(s)
  }

  /** Evidence stays good while time passes, sessions are created, and sessions are deleted now. */
  predicate Later(s: State, r: State) {
    && s.now <= r.now
    && (forall sid :: sid in r.issued ==>
          if sid in s.issued then r.issued[sid] == s.issued[sid] else s.now <= r.issued[sid].since)
    && s.issued.Keys <= r.issued.Keys && s.ended.Keys <= r.ended.Keys
    && (forall sid :: sid in r.ended ==> if sid in s.ended then r.ended[sid] == s.ended[sid] else s.now <= r.ended[sid])
  }

  lemma GenuineStays(s: State, r: State, sid: string, user: User, readAt: real)
    requires Later(s, r) && Genuine(s, sid, user, readAt)
    ensures Genuine(r, sid, user, readAt)
  {
  }

  lemma EntryStays(s: State, r: State, sid: string, t: Traced)
    requires Later(s, r) && GenuineEntry(s, sid, t)
    ensures GenuineEntry(r, sid, t)
  {
    GenuineStays(s, r, sid, t.entry.user, t.readAt);
  }

  lemma PhaseStays(s: State, r: State, p: Phase)
    requires Later(s, r) && PhaseGenuine(s, p)
    ensures PhaseGenuine(r, p)
  {
  }

  lemma ReturnsStay(s: State, r: State)
    requires Later(s, r) && ReturnsGenuine(s) && s.returned <= r.returned
    requires forall i :: |s.returned| <= i < |r.returned| ==> ReturnGenuine(r, r.returned[i])
    ensures ReturnsGenuine(r)
  {
    forall i | 0 <= i < |r.returned|
      ensures ReturnGenuine(r, r.returned[i])
    {
      if i < |s.returned| {
        assert ReturnGenuine(s, s.returned[i]);
        EntryStays(s, r, s.returned[i].sid, s.returned[i].traced);
      }
    }
  }

  /** A step of a lookup does not touch the clock or the sessions. */
  lemma LookupTouchesNoSession(s: State, e: Event)
    requires !e.Tick? && !e.LogIn? && !e.LogOut?
    ensures Do(s, e).now == s.now && Do(s, e).issued == s.issued && Do(s, e).ended == s.ended
  {
  }

  lemma DoIsLater(s: State, e: Event)
    requires Inv(s)
    ensures Later(s, Do(s, e))
  {
    match e
    case Tick(_) =>
    case LogIn(_, _) =>
    case LogOut(_) =>
    case _ => LookupTouchesNoSession(s, e);
  }

  lemma StoreStays(s: State, e: Event)
    requires Inv(s)
    ensures StoreConsistent(Do(s, e))
  {
  }

  /** The cache of one replica after a lookup of `sid` has put an entry there, or taken it out. */
  lemma CacheWritten(s: State, r: State, replica: nat, cache: map<string, Traced>)
    requires Inv(s) && Later(s, r)
    requires forall sid :: sid in cache ==> GenuineEntry(r, sid, cache[sid])
    requires r.caches == s.caches[replica := cache]
    ensures CachesGenuine(r)
  {
    forall other, sid | other in r.caches && sid in r.caches[other]
      ensures GenuineEntry(r, sid, r.caches[other][sid])
    {
      if other != replica {
        EntryStays(s, r, sid, s.caches[other][sid]);
      }
    }
  }

  /** What is in one replica's cache stays genuine. */
  lemma CacheKept(s: State, r: State, replica: nat)
    requires Inv(s) && Later(s, r)
    ensures forall sid :: sid in CacheOf(s, replica) ==> GenuineEntry(r, sid, CacheOf(s, replica)[sid])
  {
    forall sid | sid in CacheOf(s, replica)
      ensures GenuineEntry(r, sid, CacheOf(s, replica)[sid])
    {
      EntryStays(s, r, sid, CacheOf(s, replica)[sid]);
    }
  }

  lemma CachesUnwritten(s: State, r: State)
    requires Inv(s) && Later(s, r) && r.caches == s.caches
    ensures CachesGenuine(r)
  {
    forall replica, sid | replica in r.caches && sid in r.caches[replica]
      ensures GenuineEntry(r, sid, r.caches[replica][sid])
    {
      EntryStays(s, r, sid, s.caches[replica][sid]);
    }
  }

  lemma CachesStay(s: State, r: State, e: Event)
    requires Inv(s) && r == Do(s, e) && Later(s, r)
    ensures CachesGenuine(r)
  {
    if r.caches == s.caches {
      CachesUnwritten(s, r);
    } else {
      var phase := s.threads[e.thread];
      assert PhaseGenuine(s, phase);
      CacheKept(s, r, phase.replica);
      CacheWritten(s, r, phase.replica, r.caches[phase.replica]);
    }
  }

  /** What a lookup has just seen in a cache, or read from the store, is genuine. */
  lemma PeekedIsGenuine(s: State, r: State, replica: nat, sid: string)
    requires Inv(s) && Later(s, r)
    ensures PhaseGenuine(r, Peeked(replica, sid, Get(CacheOf(s, replica), sid)))
  {
    CacheKept(s, r, replica);
  }

  lemma FetchedIsGenuine(s: State, r: State, replica: nat, sid: string)
    requires Inv(s) && Later(s, r) && sid in s.store
    ensures PhaseGenuine(r, Fetched(replica, sid, s.store[sid], s.now))
  {
    GenuineStays(s, r, sid, s.store[sid], s.now);
  }

  lemma MissedIsAbsent(s: State, r: State, sid: string)
    requires Inv(s) && Later(s, r) && sid !in s.store
    ensures Absent(r, sid, s.now)
  {
  }

  /** How the phase of a lookup may change: not at all, or by a look into the cache or the store. */
  lemma ThreadAdvances(s: State, e: Event, t: nat)
    requires t in Do(s, e).threads && !(t in s.threads && s.threads[t] == Do(s, e).threads[t])
    ensures match Do(s, e).threads[t]
            case Peeked(replica, sid, found) => found == Get(CacheOf(s, replica), sid)
            case Fetched(_, sid, user, readAt) => sid in s.store && user == s.store[sid] && readAt == s.now
            case Missed(_, sid, askedAt) => sid !in s.store && askedAt == s.now
            case _ => true
  {
  }

  lemma ThreadsStay(s: State, r: State, e: Event)
    requires Inv(s) && r == Do(s, e) && Later(s, r)
    ensures ThreadsGenuine(r)
  {
    forall t | t in r.threads
      ensures PhaseGenuine(r, r.threads[t])
    {
      if t in s.threads && s.threads[t] == r.threads[t] {
        PhaseStays(s, r, s.threads[t]);
      } else {
        ThreadAdvances(s, e, t);
        match r.threads[t]
        case Peeked(replica, sid, _) => PeekedIsGenuine(s, r, replica, sid);
        case Fetched(replica, sid, _, _) => FetchedIsGenuine(s, r, replica, sid);
        case Missed(_, sid, _) => MissedIsAbsent(s, r, sid);
        case _ =>
      }
    }
  }

  lemma ReturnsOfEvent(s: State, r: State, e: Event)
    requires Inv(s) && r == Do(s, e) && Later(s, r)
    ensures ReturnsGenuine(r)
  {
    if r.returned != s.returned {
      assert PhaseGenuine(s, s.threads[e.thread]);
    }
    ReturnsStay(s, r);
  }

  lemma AbsentStays(s: State, r: State, sid: string, at: real)
    requires Later(s, r) && Absent(s, sid, at)
    ensures Absent(r, sid, at)
  {
  }

  lemma MissesOfEvent(s: State, r: State, e: Event)
    requires Inv(s) && r == Do(s, e) && Later(s, r)
    ensures MissesTrue(r)
  {
    forall i | 0 <= i < |r.misses|
      ensures Absent(r, r.misses[i].sid, r.misses[i].askedAt)
    {
      if i >= |s.misses| {
        assert PhaseGenuine(s, s.threads[e.thread]);
      }
      AbsentStays(s, r, r.misses[i].sid, r.misses[i].askedAt);
    }
  }

  lemma InvStays(s: State, e: Event)
    requires Inv(s)
    ensures Inv(Do(s, e)) && Later(s, Do(s, e))
  {
    DoIsLater(s, e);
    StoreStays(s, e);
    CachesStay(s, Do(s, e), e);
    ThreadsStay(s, Do(s, e), e);
    ReturnsOfEvent(s, Do(s, e), e);
    MissesOfEvent(s, Do(s, e), e);
  }

  lemma {:induction false} Always(events: seq<Event>)
    ensures Inv(Execute(events))
  {
    if events == [] {
    } else {
      Always(events[..|events| - 1]);
      InvStays(Execute(events[..|events| - 1]), events[|events| - 1]);
    }
  }

  // ---------------------------------------------------------------- the theorems

  /** Bounded staleness, in every interleaving: a user handed out at `at` has the fields of a row
      that was in the store when it was read, less than 30 seconds plus that lookup's own
      read-to-store delay before. */
  lemma BoundedStaleness(events: seq<Event>, i: nat)
    requires i < |Execute(events).returned|
    ensures var s := Execute(events);
            var r := s.returned[i];
            && r.sid in s.issued && r.traced.entry.user == s.issued[r.sid].user
            && s.issued[r.sid].since <= r.traced.readAt
            && r.at - r.traced.readAt < SESSION_CACHE_TTL + (r.traced.entry.stored - r.traced.readAt)
            && (r.sid in s.ended ==> r.traced.readAt <= s.ended[r.sid])
  {
    Always(events);
    assert ReturnGenuine(Execute(events), Execute(events).returned[i]);
  }

  /** No replica accepts a session from 30 seconds plus the longest read-to-store delay after its
      logout on. */
  lemma LogoutTakesEffect(events: seq<Event>, sid: string, delay: real, i: nat)
    requires var s := Execute(events); sid in s.ended && i < |s.returned| && s.returned[i].sid == sid
    requires forall j :: 0 <= j < |Execute(events).returned| ==>
               var t := Execute(events).returned[j].traced; t.entry.stored - t.readAt <= delay
    ensures Execute(events).returned[i].at < Execute(events).ended[sid] + SESSION_CACHE_TTL + delay
  {
    BoundedStaleness(events, i);
  }

  lemma Extend(events: seq<Event>, e: Event)
    ensures Execute(events + [e]) == Do(Execute(events), e)
  {
    assert (events + [e])[..|events|] == events;
  }

  /** The read-to-store delay cannot be left out of the bound: however short it is, some run hands
      out a user 30 seconds or more after the logout. */
  lemma DelayIsNeeded(sid: string, user: User, delay: real) returns (events: seq<Event>)
    requires sid != "" && 0.0 < delay < SESSION_CACHE_TTL
    ensures var s := Execute(events);
            && sid in s.ended && |s.returned| == 2 && s.returned[1].sid == sid
            && s.returned[1].traced.entry.stored - s.returned[1].traced.readAt == delay
            && s.returned[1].at >= s.ended[sid] + SESSION_CACHE_TTL
  {
    var e0: seq<Event> := [];
    Extend(e0, LogIn(sid, user));
    var e1 := e0 + [LogIn(sid, user)];
    Extend(e1, Peek(0, 0, sid));
    var e2 := e1 + [Peek(0, 0, sid)];
    Extend(e2, CheckAge(0));
    var e3 := e2 + [CheckAge(0)];
    Extend(e3, Query(0));
    var e4 := e3 + [Query(0)];
    assert Execute(e4).threads[0] == Fetched(0, sid, user, 0.0);
    Extend(e4, LogOut(sid));
    var e5 := e4 + [LogOut(sid)];
    Extend(e5, Tick(delay));
    var e6 := e5 + [Tick(delay)];
    Extend(e6, Remember(0));
    var e7 := e6 + [Remember(0)];
    var traced := Traced(Entry(delay, user), 0.0);
    assert CacheOf(Execute(e7), 0) == map[sid := traced] && Execute(e7).now == delay && Execute(e7).threads == map[];
    assert Execute(e7).returned == [Return(delay, 0, 0, sid, traced)] && Execute(e7).ended == map[sid := 0.0];
    events := AcceptedLate(e7, sid, traced, delay);
  }

  lemma AcceptedLate(before: seq<Event>, sid: string, traced: Traced, delay: real) returns (events: seq<Event>)
    requires sid != "" && 0.0 < delay < SESSION_CACHE_TTL
    requires var s := Execute(before);
             && CacheOf(s, 0) == map[sid := traced] && s.now == delay == traced.entry.stored
             && s.threads == map[]
    ensures var s := Execute(before);
            Execute(events) == s.(now := 30.0 + delay / 2.0,
                                  returned := s.returned + [Return(30.0 + delay / 2.0, 0, 0, sid, traced)])
  {
    var wait := Tick(SESSION_CACHE_TTL - delay / 2.0);
    Extend(before, wait);
    Extend(before + [wait], Peek(0, 0, sid));
    Extend(before + [wait] + [Peek(0, 0, sid)], CheckAge(0));
    UndisturbedCached(Execute(before + [wait]), 0, 0, sid, true);
    events := before + [wait] + [Peek(0, 0, sid)] + [CheckAge(0)];
  }

  /** The cache of a replica as the code keeps it, without the moments of reading. */
  function Untraced(cache: map<string, Traced>): map<string, Entry> {
    map sid | sid in cache :: cache[sid].entry
  }

  /** All the steps of one lookup, with nothing in between; `answers` says whether the store does. */
  function Undisturbed(s: State, t: nat, replica: nat, sid: string, answers: bool): State {
    var checked := Do(Do(s, Peek(t, replica, sid)), CheckAge(t));
    var asked := Do(checked, if answers then Query(t) else QueryFails(t));
    Do(Do(asked, Remember(t)), Forget(t))
  }

  function Answer(s: State, sid: string, answers: bool): StoreAnswer {
    if !answers then StoreError else if sid in s.store then Row(s.store[sid]) else NoRow
  }

  lemma UndisturbedCached(s: State, t: nat, replica: nat, sid: string, answers: bool)
    requires t !in s.threads && sid != ""
    requires sid in CacheOf(s, replica) && IsYoung(CacheOf(s, replica)[sid].entry, s.now)
    ensures Undisturbed(s, t, replica, sid, answers)
         == s.(returned := s.returned + [Return(s.now, t, replica, sid, CacheOf(s, replica)[sid])])
  {
    var peeked := Do(s, Peek(t, replica, sid));
    assert peeked.threads - {t} == s.threads;
  }

  lemma UndisturbedChecked(s: State, t: nat, replica: nat, sid: string)
    requires t !in s.threads && sid != ""
    requires !(sid in CacheOf(s, replica) && IsYoung(CacheOf(s, replica)[sid].entry, s.now))
    ensures Do(Do(s, Peek(t, replica, sid)), CheckAge(t)) == s.(threads := s.threads[t := Querying(replica, sid)])
  {
  }

  /** The rest of an undisturbed lookup, from its question to the store on. */
  function Asked(s: State, t: nat, answers: bool): State {
    Do(Do(Do(s, if answers then Query(t) else QueryFails(t)), Remember(t)), Forget(t))
  }

  lemma UndisturbedFound(s: State, checked: State, t: nat, replica: nat, sid: string)
    requires t !in s.threads && checked == s.(threads := s.threads[t := Querying(replica, sid)]) && sid in s.store
    ensures var traced := Traced(Entry(s.now, s.store[sid]), s.now);
            Asked(checked, t, true)
              == s.(caches := s.caches[replica := CacheOf(s, replica)[sid := traced]],
                    returned := s.returned + [Return(s.now, t, replica, sid, traced)])
  {
    var asked := Do(checked, Query(t));
    assert asked == s.(threads := s.threads[t := Fetched(replica, sid, s.store[sid], s.now)]);
    assert asked.threads - {t} == s.threads;
  }

  lemma UndisturbedMissed(s: State, checked: State, t: nat, replica: nat, sid: string)
    requires t !in s.threads && checked == s.(threads := s.threads[t := Querying(replica, sid)]) && sid !in s.store
    ensures Asked(checked, t, true)
         == s.(caches := s.caches[replica := CacheOf(s, replica) - {sid}], misses := s.misses + [Miss(t, sid, s.now)])
  {
    var asked := Do(checked, Query(t));
    assert asked == s.(threads := s.threads[t := Missed(replica, sid, s.now)]);
    assert asked.threads - {t} == s.threads;
  }

  lemma UndisturbedFailed(s: State, checked: State, t: nat, replica: nat, sid: string)
    requires t !in s.threads && checked == s.(threads := s.threads[t := Querying(replica, sid)])
    ensures Asked(checked, t, false) == s
  {
    assert checked.threads - {t} == s.threads;
  }

  /** What an undisturbed lookup does that asks the store. */
  ghost predicate AnsweredAs(s: State, r: State, t: nat, replica: nat, sid: string, answer: StoreAnswer) {
    match answer
    case StoreError => r == s
    case NoRow =>
      r == s.(caches := s.caches[replica := CacheOf(s, replica) - {sid}], misses := s.misses + [Miss(t, sid, s.now)])
    case Row(user) =>
      var traced := Traced(Entry(s.now, user), s.now);
      r == s.(caches := s.caches[replica := CacheOf(s, replica)[sid := traced]],
              returned := s.returned + [Return(s.now, t, replica, sid, traced)])
  }

  lemma UndisturbedAnswered(s: State, checked: State, t: nat, replica: nat, sid: string, answers: bool)
    requires t !in s.threads && checked == s.(threads := s.threads[t := Querying(replica, sid)])
    ensures AnsweredAs(s, Asked(checked, t, answers), t, replica, sid, Answer(s, sid, answers))
  {
    if !answers {
      UndisturbedFailed(s, checked, t, replica, sid);
    } else if sid in s.store {
      UndisturbedFound(s, checked, t, replica, sid);
    } else {
      UndisturbedMissed(s, checked, t, replica, sid);
    }
  }

  /** What a lookup on one replica may change: that replica's cache, and one more user handed out. */
  ghost predicate Effect(s: State, r: State, replica: nat, sid: string, cache: map<string, Entry>,
                         result: LookupResult) {
    && r == s.(caches := r.caches, returned := r.returned, misses := r.misses)
    && Untraced(CacheOf(r, replica)) == cache
    && (forall other :: other != replica ==> CacheOf(r, other) == CacheOf(s, other))
    && (if result.SignedIn? then HandedOut(s, r, replica, sid, result.user) else r.returned == s.returned)
    && (if result.UnknownSession? then |r.misses| == |s.misses| + 1 else r.misses == s.misses)
  }

  predicate HandedOut(s: State, r: State, replica: nat, sid: string, user: User) {
    && |r.returned| == |s.returned| + 1 && r.returned[..|s.returned|] == s.returned
    && var last := r.returned[|s.returned|];
       last.at == s.now && last.replica == replica && last.sid == sid && last.traced.entry.user == user
  }

  /** The steps of a lookup, with nothing in between, are the sequential lookup: they hand out the
      same user, or nobody, and leave the same cache and nothing else behind. */
  lemma StepsAreLookUp(s: State, t: nat, replica: nat, sid: string, answers: bool)
    requires t !in s.threads && sid != ""
    ensures var (cache, result) := LookUp(Untraced(CacheOf(s, replica)), sid, s.now, Answer(s, sid, answers), s.now);
            Effect(s, Undisturbed(s, t, replica, sid, answers), replica, sid, cache, result)
  {
    if sid in CacheOf(s, replica) && IsYoung(CacheOf(s, replica)[sid].entry, s.now) {
      UndisturbedCached(s, t, replica, sid, answers);
    } else {
      UndisturbedChecked(s, t, replica, sid);
      var checked := Do(Do(s, Peek(t, replica, sid)), CheckAge(t));
      var r := Undisturbed(s, t, replica, sid, answers);
      UndisturbedAnswered(s, checked, t, replica, sid, answers);
      AnsweredEffect(s, r, t, replica, sid, answers);
    }
  }

  lemma AnsweredEffect(s: State, r: State, t: nat, replica: nat, sid: string, answers: bool)
    requires sid != "" && !(sid in CacheOf(s, replica) && IsYoung(CacheOf(s, replica)[sid].entry, s.now))
    requires AnsweredAs(s, r, t, replica, sid, Answer(s, sid, answers))
    ensures var (cache, result) := LookUp(Untraced(CacheOf(s, replica)), sid, s.now, Answer(s, sid, answers), s.now);
            Effect(s, r, replica, sid, cache, result)
  {
    var cache := CacheOf(s, replica);
    match Answer(s, sid, answers)
    case StoreError =>
    case NoRow => assert Untraced(cache - {sid}) == Untraced(cache) - {sid};
    case Row(user) =>
      var traced := Traced(Entry(s.now, user), s.now);
      assert Untraced(cache[sid := traced]) == Untraced(cache)[sid := traced.entry];
  }
}
