/** The login limiter: recorded failures per client address, pruned to a sliding window when a login
    begins, extended when one fails, forgotten when one succeeds. Logins of one address interleave,
    and a login keeps writing to the list it was given even after a success has dropped that list. */
module LoginLimiter {

  const LOGIN_WINDOW_SECONDS := 300.0

  /** The entries a login that begins at `now` keeps. */
  function Pruned(times: seq<real>, now: real): (kept: seq<real>)
    ensures forall t :: t in kept <==> t in times && now - t <= LOGIN_WINDOW_SECONDS
  {
    if times == [] then []
    else
      var kept := Pruned(times[..|times| - 1], now);
      if now - times[|times| - 1] <= LOGIN_WINDOW_SECONDS then kept + [times[|times| - 1]] else kept
  }

  /** A list of failures: whose it is, what it holds, and everything it was ever given. */
  datatype Attempts = Attempts(ip: string, kept: seq<real>, recorded: seq<real>)

  /** `current` names the list the dictionary holds for an address; `inFlight` the list each login
      under way writes to; `strays` counts, per address, the failures since its last success of logins
      that had begun before that success. */
  datatype State = State(now: real, current: map<string, nat>, lists: seq<Attempts>, inFlight: map<nat, nat>,
                         strays: map<string, nat>)

  datatype Event =
    | Tick(elapsed: real)
    | Begin(login: nat, ip: string)
    | Fail(login: nat)
    | Succeed(login: nat)
    | Abort(login: nat)

  const START := State(0.0, map[], [], map[], map[])

  predicate WellFormed(s: State) {
    && (forall ip :: ip in s.current ==> s.current[ip] < |s.lists| && s.lists[s.current[ip]].ip == ip)
    && (forall r :: r in s.inFlight ==> s.inFlight[r] < |s.lists|)
  }

  /** The dictionary's list for an address, created if there is none. */
  function WithList(s: State, ip: string): State {
    if ip in s.current then s else s.(current := s.current[ip := |s.lists|], lists := s.lists + [Attempts(ip, [], [])])
  }

  function Strays(s: State, ip: string): nat {
    if ip in s.strays then s.strays[ip] else 0
  }

  function DoBegin(limit: nat, s: State, login: nat, ip: string): State
    requires WellFormed(s)
  {
    var with := WithList(s, ip);
    var list := with.lists[with.current[ip]];
    var kept := Pruned(list.kept, s.now);
    var pruned := with.(lists := with.lists[with.current[ip] := list.(kept := kept)]);
    if |kept| >= limit then pruned else pruned.(inFlight := s.inFlight[login := with.current[ip]])
  }

  /** The failure goes to the list the login was given. */
  function Failed(s: State, login: nat): State
    requires WellFormed(s) && login in s.inFlight
  {
    var id := s.inFlight[login];
    var list := s.lists[id];
    s.(lists := s.lists[id := Attempts(list.ip, list.kept + [s.now], list.recorded + [s.now])],
       inFlight := s.inFlight - {login})
  }

  function DoFail(s: State, login: nat): State
    requires WellFormed(s) && login in s.inFlight
  {
    var id := s.inFlight[login];
    var ip := s.lists[id].ip;
    Failed(s, login).(strays := if IsCurrent(s, ip, id) then s.strays else s.strays[ip := Strays(s, ip) + 1])
  }

  /** The state after an event; an event that cannot happen changes nothing. */
  function Do(limit: nat, s: State, e: Event): State
    requires WellFormed(s)
  {
    match e
    case Tick(elapsed) => if elapsed >= 0.0 then s.(now := s.now + elapsed) else s
    case Begin(login, ip) => if login in s.inFlight then s else DoBegin(limit, s, login, ip)
    case Fail(login) => if login in s.inFlight then DoFail(s, login) else s
    case Succeed(login) =>
      if login !in s.inFlight then s
      else
        var ip := s.lists[s.inFlight[login]].ip;
        s.(current := s.current - {ip}, inFlight := s.inFlight - {login}, strays := s.strays - {ip})
    case Abort(login) => s.(inFlight := s.inFlight - {login})
  }

  lemma BeginWellFormed(limit: nat, s: State, login: nat, ip: string)
    requires WellFormed(s)
    ensures WellFormed(DoBegin(limit, s, login, ip))
  {
  }

  lemma StaysWellFormed(limit: nat, s: State, e: Event)
    requires WellFormed(s)
    ensures WellFormed(Do(limit, s, e))
  {
    match e
    case Begin(login, ip) => BeginWellFormed(limit, s, login, ip);
    case _ =>
  }

  function Execute(limit: nat, events: seq<Event>): (s: State)
    ensures WellFormed(s)
  {
    if events == [] then START
    else
      var s := Execute(limit, events[..|events| - 1]);
      StaysWellFormed(limit, s, events[|events| - 1]);
      Do(limit, s, events[|events| - 1])
  }

  // ---------------------------------------------------------------- the limiter as code

  /** One list object: the dictionary and the logins under way refer to it. */
  class AttemptList {
    ghost const id: nat
    ghost const ip: string
    var times: seq<real>
    ghost var recorded: seq<real>

    ghost function Value(): Attempts
      reads this
    {
      Attempts(ip, times, recorded)
    }

    constructor (ghost id: nat, ghost ip: string)
      ensures this.id == id && Value() == Attempts(ip, [], [])
    {
      this.id, this.ip := id, ip;
      times, recorded := [], [];
    }

    method Prune(now: real)
      modifies this
      ensures Value() == old(Value()).(kept := Pruned(old(times), now))
    {
      var kept: seq<real> := [];
      for i := 0 to |times|
        invariant Value() == old(Value())
        invariant kept == Pruned(times[..i], now)
      {
        assert times[..i + 1][..i] == times[..i];
        if now - times[i] <= LOGIN_WINDOW_SECONDS {
          kept := kept + [times[i]];
        }
      }
      assert times[..|times|] == times;
      times := kept;
    }

    method Append(now: real)
      modifies this
      ensures Value() == Attempts(ip, old(times) + [now], old(recorded) + [now])
    {
      times := times + [now];
      recorded := recorded + [now];
    }
  }

  ghost function Values(lists: seq<AttemptList>): (r: seq<Attempts>)
    reads lists
    ensures |r| == |lists| && forall i :: 0 <= i < |lists| ==> r[i] == lists[i].Value()
  {
    seq(|lists|, i requires 0 <= i < |lists| reads lists => lists[i].Value())
  }

  class Limiter {
    const limit: nat
    var attempts: map<string, AttemptList>
    var writing: map<nat, AttemptList>
    ghost var lists: seq<AttemptList>
    ghost var strays: map<string, nat>

    ghost predicate Known(list: AttemptList)
      reads this`lists
    {
      list.id < |lists| && lists[list.id] == list
    }

    ghost predicate Valid()
      reads this`lists, this`attempts, this`writing
    {
      && (forall i :: 0 <= i < |lists| ==> lists[i].id == i)
      && (forall ip :: ip in attempts ==> Known(attempts[ip]) && attempts[ip].ip == ip)
      && (forall r :: r in writing ==> Known(writing[r]))
    }

    ghost function Current(): map<string, nat>
      reads this`attempts
    {
      map ip | ip in attempts :: attempts[ip].id
    }

    ghost function Writing(): map<nat, nat>
      reads this`writing
    {
      map r | r in writing :: writing[r].id
    }

    ghost function At(now: real): (s: State)
      requires Valid()
      reads this, lists
      ensures WellFormed(s)
    {
      State(now, Current(), Values(lists), Writing(), strays)
    }

    constructor (limit: nat)
      ensures this.limit == limit && Valid() && At(0.0) == START
    {
      this.limit := limit;
      attempts, writing := map[], map[];
      lists, strays := [], map[];
    }

    method SetDefault(ip: string, now: real) returns (list: AttemptList)
      requires Valid()
      modifies this
      ensures Valid() && old(lists) <= lists && fresh(lists[|old(lists)|..]) && writing == old(writing)
      ensures ip in attempts && list == attempts[ip] && (list in old(lists) || fresh(list))
      ensures At(now) == WithList(old(At(now)), ip)
    {
      if ip in attempts {
        list := attempts[ip];
      } else {
        list := NewList(ip);
      }
    }

    /** The insertion: one list object more, which the dictionary refers to. */
    method NewList(ip: string) returns (list: AttemptList)
      requires Valid() && ip !in attempts
      modifies this`attempts, this`lists
      ensures Valid() && fresh(list) && lists == old(lists) + [list] && attempts == old(attempts)[ip := list]
      ensures Current() == old(Current())[ip := |old(lists)|]
      ensures Values(lists) == old(Values(lists)) + [Attempts(ip, [], [])]
    {
      list := new AttemptList(|lists|, ip);
      attempts := attempts[ip := list];
      lists := lists + [list];
    }

    method PruneList(list: AttemptList, now: real)
      requires Valid() && Known(list)
      modifies list
      ensures Valid() && list.times == Pruned(old(list.times), now)
      ensures At(now) == old(At(now)).(lists := old(At(now)).lists[list.id := old(list.Value()).(kept := list.times)])
    {
      ghost var before := At(now);
      list.Prune(now);
      assert Values(lists) == before.lists[list.id := list.Value()];
    }

    method Hold(login: nat, list: AttemptList, now: real)
      requires Valid() && Known(list)
      modifies this`writing
      ensures Valid() && writing == old(writing)[login := list]
      ensures At(now) == old(At(now)).(inFlight := old(Writing())[login := list.id])
    {
      ghost var before := Writing();
      writing := writing[login := list];
      assert Writing() == before[login := list.id];
    }

    method LetGo(login: nat, now: real)
      requires Valid()
      modifies this`writing
      ensures Valid() && writing == old(writing) - {login}
      ensures At(now) == old(At(now)).(inFlight := old(Writing()) - {login})
    {
      ghost var before := Writing();
      writing := writing - {login};
      assert Writing() == before - {login};
    }

    /** The part of a login before its first await: either refused with status 429, or under way. */
    method BeginLogin(login: nat, ip: string, now: real) returns (admitted: bool)
      requires Valid() && login !in writing
      modifies this, lists
      ensures Valid() && old(lists) <= lists && fresh(lists[|old(lists)|..])
      ensures At(now) == DoBegin(limit, old(At(now)), login, ip)
      ensures admitted <==> login in writing
    {
      var list := SetDefault(ip, now);
      PruneList(list, now);
      admitted := |list.times| < limit;
      if admitted {
        Hold(login, list, now);
      }
    }

    method AppendTo(list: AttemptList, now: real)
      requires Valid() && Known(list)
      modifies list
      ensures Valid()
      ensures At(now) == old(At(now)).(lists := old(At(now)).lists[list.id := list.Value()])
      ensures list.Value() == Attempts(list.ip, old(list.times) + [now], old(list.recorded) + [now])
    {
      ghost var before := At(now);
      list.Append(now);
      assert Values(lists) == before.lists[list.id := list.Value()];
    }

    method Drop(ip: string, now: real)
      requires Valid()
      modifies this`attempts
      ensures Valid()
      ensures At(now) == old(At(now)).(current := old(Current()) - {ip})
    {
      ghost var before := Current();
      attempts := attempts - {ip};
      assert Current() == before - {ip};
    }

    method AppendAndLetGo(login: nat, now: real)
      requires Valid() && login in writing
      modifies this`writing, lists
      ensures Valid() && At(now) == Failed(old(At(now)), login)
    {
      var list := writing[login];
      AppendTo(list, now);
      LetGo(login, now);
    }

    ghost method SetStrays(counts: map<string, nat>, now: real)
      requires Valid()
      modifies this`strays
      ensures Valid() && At(now) == old(At(now)).(strays := counts)
    {
      strays := counts;
    }

    /** No such user, or a wrong password: the failure goes to the list the login was given. */
    method RecordFailure(login: nat, now: real)
      requires Valid() && login in writing
      modifies this, lists
      ensures Valid() && lists == old(lists)
      ensures At(now) == DoFail(old(At(now)), login)
    {
      ghost var before := At(now);
      AppendAndLetGo(login, now);
      SetStrays(DoFail(before, login).strays, now);
    }

    /** A session has been created: the dictionary forgets the address. */
    method ForgetFailures(login: nat, ip: string, now: real)
      requires Valid() && login in writing && writing[login].ip == ip
      modifies this
      ensures Valid() && lists == old(lists)
      ensures At(now) == Do(limit, old(At(now)), Succeed(login))
    {
      ghost var before := At(now);
      assert login in before.inFlight && before.lists[before.inFlight[login]].ip == ip;
      Drop(ip, now);
      LetGo(login, now);
      SetStrays(strays - {ip}, now);
    }
  }

  // ---------------------------------------------------------------- counting

  /** How many entries are no older than `from`. */
  function Since(times: seq<real>, from: real): nat {
    if times == [] then 0
    else Since(times[..|times| - 1], from) + if times[|times| - 1] >= from then 1 else 0
  }

  /** How many entries lie in the closed window that begins at `from`. */
  function InWindow(times: seq<real>, from: real): nat {
    if times == [] then 0
    else
      var last := times[|times| - 1];
      InWindow(times[..|times| - 1], from) + if from <= last <= from + LOGIN_WINDOW_SECONDS then 1 else 0
  }

  lemma {:induction false} SinceMonotone(times: seq<real>, from: real, later: real)
    requires from <= later
    ensures Since(times, later) <= Since(times, from)
  {
    if times != [] { SinceMonotone(times[..|times| - 1], from, later); }
  }

  lemma {:induction false} InWindowIsSince(times: seq<real>, from: real)
    ensures InWindow(times, from) <= Since(times, from)
  {
    if times != [] { InWindowIsSince(times[..|times| - 1], from); }
  }

  lemma {:induction false} PrunedSince(times: seq<real>, now: real, from: real)
    requires from >= now - LOGIN_WINDOW_SECONDS
    ensures Since(Pruned(times, now), from) == Since(times, from)
  {
    if times != [] {
      var kept := Pruned(times[..|times| - 1], now);
      PrunedSince(times[..|times| - 1], now, from);
      assert (kept + [times[|times| - 1]])[..|kept|] == kept;
    }
  }

  lemma {:induction false} PrunedSize(times: seq<real>, now: real)
    ensures |Pruned(times, now)| == Since(times, now - LOGIN_WINDOW_SECONDS)
  {
    if times != [] { PrunedSize(times[..|times| - 1], now); }
  }

  lemma Appended(times: seq<real>, t: real, from: real)
    ensures Since(times + [t], from) == Since(times, from) + if t >= from then 1 else 0
    ensures InWindow(times + [t], from)
         == InWindow(times, from) + if from <= t <= from + LOGIN_WINDOW_SECONDS then 1 else 0
  {
    assert (times + [t])[..|times|] == times;
  }

  // ---------------------------------------------------------------- the invariant

  function Flying(s: State, id: nat): set<nat> {
    set r | r in s.inFlight && s.inFlight[r] == id
  }

  function FlyingFrom(s: State, ip: string): set<nat>
    requires WellFormed(s)
  {
    set r | r in s.inFlight && s.lists[s.inFlight[r]].ip == ip
  }

  predicate IsCurrent(s: State, ip: string, id: nat) {
    ip in s.current && s.current[ip] == id
  }

  /** Logins under way that write to a list the dictionary no longer holds. */
  function Orphans(s: State, ip: string): set<nat>
    requires WellFormed(s)
  {
    set r | r in s.inFlight && s.lists[s.inFlight[r]].ip == ip && !IsCurrent(s, ip, s.inFlight[r])
  }

  /** The address never had more than `k` logins under way. Other addresses may have any number. */
  ghost predicate Busy(limit: nat, k: nat, ip: string, events: seq<Event>) {
    && (events != [] ==> Busy(limit, k, ip, events[..|events| - 1]))
    && |FlyingFrom(Execute(limit, events), ip)| <= k
  }

  /** What a list has recorded so far: nothing later than now, and all that is recent is still kept. */
  ghost predicate History(now: real, list: Attempts) {
    && (forall t :: t in list.recorded ==> t <= now)
    && (forall from :: from >= now - LOGIN_WINDOW_SECONDS ==> Since(list.kept, from) == Since(list.recorded, from))
  }

  predicate RecentBounded(bound: int, now: real, list: Attempts, flying: nat) {
    Since(list.recorded, now - LOGIN_WINDOW_SECONDS) + flying <= bound
  }

  ghost predicate WindowsBounded(bound: int, list: Attempts) {
    forall from :: InWindow(list.recorded, from) <= bound
  }

  ghost predicate ListBounded(bound: int, s: State, id: nat)
    requires id < |s.lists|
  {
    && History(s.now, s.lists[id]) && WindowsBounded(bound, s.lists[id])
    && RecentBounded(bound, s.now, s.lists[id], |Flying(s, id)|)
  }

  /** So it is for every list that ever belonged to the address. */
  ghost predicate ListsBounded(bound: int, s: State, ip: string) {
    forall id :: 0 <= id < |s.lists| && s.lists[id].ip == ip ==> ListBounded(bound, s, id)
  }

  ghost predicate StraysBounded(k: nat, s: State, ip: string)
    requires WellFormed(s)
  {
    Strays(s, ip) + |Orphans(s, ip)| <= k - 1
  }

  lemma HistoryAges(now: real, later: real, list: Attempts)
    requires now <= later && History(now, list)
    ensures History(later, list)
  {
  }

  /** A failure is recorded. */
  lemma FailureRecorded(bound: int, now: real, list: Attempts, flying: nat)
    requires History(now, list) && WindowsBounded(bound, list) && RecentBounded(bound, now, list, flying) && flying > 0
    ensures var longer := Attempts(list.ip, list.kept + [now], list.recorded + [now]);
            History(now, longer) && WindowsBounded(bound, longer) && RecentBounded(bound, now, longer, flying - 1)
  {
    var longer := Attempts(list.ip, list.kept + [now], list.recorded + [now]);
    Appended(list.recorded, now, now - LOGIN_WINDOW_SECONDS);
    forall from | from >= now - LOGIN_WINDOW_SECONDS
      ensures Since(longer.kept, from) == Since(longer.recorded, from)
    {
      Appended(list.kept, now, from);
      Appended(list.recorded, now, from);
    }
    forall from
      ensures InWindow(longer.recorded, from) <= bound
    {
      Appended(list.recorded, now, from);
      InWindowIsSince(list.recorded, from);
      if now - LOGIN_WINDOW_SECONDS <= from { SinceMonotone(list.recorded, now - LOGIN_WINDOW_SECONDS, from); }
    }
  }

  /** A list is pruned; if the login is then admitted, fewer than `limit` recent failures were there. */
  lemma ListPruned(now: real, list: Attempts)
    requires History(now, list)
    ensures var pruned := list.(kept := Pruned(list.kept, now));
            History(now, pruned) && |pruned.kept| == Since(list.recorded, now - LOGIN_WINDOW_SECONDS)
  {
    var pruned := list.(kept := Pruned(list.kept, now));
    PrunedSize(list.kept, now);
    forall from | from >= now - LOGIN_WINDOW_SECONDS
      ensures Since(pruned.kept, from) == Since(pruned.recorded, from)
    {
      PrunedSince(list.kept, now, from);
    }
  }

  lemma {:induction false} SubsetSize(a: set<nat>, b: set<nat>)
    requires a <= b
    ensures |a| <= |b|
  {
    if a != {} {
      var x :| x in a;
      SubsetSize(a - {x}, b - {x});
    }
  }

  lemma TickKeeps(limit: nat, bound: int, s: State, ip: string, elapsed: real)
    requires WellFormed(s) && ListsBounded(bound, s, ip) && elapsed >= 0.0
    ensures ListsBounded(bound, Do(limit, s, Tick(elapsed)), ip)
  {
    var t := Do(limit, s, Tick(elapsed));
    forall id | 0 <= id < |t.lists| && t.lists[id].ip == ip
      ensures ListBounded(bound, t, id)
    {
      assert ListBounded(bound, s, id);
      HistoryAges(s.now, t.now, s.lists[id]);
      SinceMonotone(s.lists[id].recorded, s.now - LOGIN_WINDOW_SECONDS, t.now - LOGIN_WINDOW_SECONDS);
      assert Flying(t, id) == Flying(s, id);
    }
  }

  /** A login leaves without a trace in any list. */
  lemma LeaveKeeps(bound: int, s: State, t: State, ip: string, login: nat)
    requires WellFormed(s) && ListsBounded(bound, s, ip)
    requires t.now == s.now && t.lists == s.lists && t.inFlight == s.inFlight - {login}
    ensures ListsBounded(bound, t, ip)
  {
    forall id | 0 <= id < |t.lists| && t.lists[id].ip == ip
      ensures ListBounded(bound, t, id)
    {
      assert ListBounded(bound, s, id);
      SubsetSize(Flying(t, id), Flying(s, id));
    }
  }

  lemma FailKeeps(bound: int, s: State, ip: string, login: nat)
    requires WellFormed(s) && ListsBounded(bound, s, ip) && login in s.inFlight
    ensures ListsBounded(bound, DoFail(s, login), ip)
  {
    var t := DoFail(s, login);
    var changed := s.inFlight[login];
    forall id | 0 <= id < |t.lists| && t.lists[id].ip == ip
      ensures ListBounded(bound, t, id)
    {
      assert ListBounded(bound, s, id);
      if id == changed {
        assert login in Flying(s, id) && Flying(t, id) == Flying(s, id) - {login};
        FailureRecorded(bound, s.now, s.lists[id], |Flying(s, id)|);
      } else {
        assert Flying(t, id) == Flying(s, id);
      }
    }
  }

  lemma WithListKeeps(bound: int, s: State, from: string, ip: string)
    requires WellFormed(s) && ListsBounded(bound, s, ip) && bound >= 0
    ensures WellFormed(WithList(s, from)) && ListsBounded(bound, WithList(s, from), ip)
  {
    var t := WithList(s, from);
    forall id | 0 <= id < |t.lists| && t.lists[id].ip == ip
      ensures ListBounded(bound, t, id)
    {
      assert Flying(t, id) == Flying(s, id);
      if id < |s.lists| {
        assert ListBounded(bound, s, id);
      } else {
        assert Flying(t, id) == {};
      }
    }
  }

  lemma BeginKeepsList(limit: nat, k: nat, with: State, t: State, login: nat, from: string, id: nat)
    requires WellFormed(with) && from in with.current && id < |with.lists| && ListBounded(limit - 1 + k, with, id)
    requires login !in with.inFlight && k >= 1
    requires t == DoBegin(limit, with, login, from) && WellFormed(t) && |FlyingFrom(t, with.lists[id].ip)| <= k
    ensures ListBounded(limit - 1 + k, t, id)
  {
    if id != with.current[from] {
      assert Flying(t, id) == Flying(with, id);
    } else {
      ListPruned(with.now, with.lists[id]);
      if login in t.inFlight {
        SubsetSize(Flying(t, id), FlyingFrom(t, from));
      } else {
        assert Flying(t, id) == Flying(with, id);
      }
    }
  }

  lemma BeginKeeps(limit: nat, k: nat, s: State, ip: string, login: nat, from: string)
    requires WellFormed(s) && ListsBounded(limit - 1 + k, s, ip) && k >= 1 && login !in s.inFlight
    requires WellFormed(DoBegin(limit, s, login, from)) && |FlyingFrom(DoBegin(limit, s, login, from), ip)| <= k
    ensures ListsBounded(limit - 1 + k, DoBegin(limit, s, login, from), ip)
  {
    var with, t := WithList(s, from), DoBegin(limit, s, login, from);
    var bound := limit - 1 + k;
    WithListKeeps(bound, s, from, ip);
    assert t == DoBegin(limit, with, login, from);
    forall id | 0 <= id < |t.lists| && t.lists[id].ip == ip
      ensures ListBounded(bound, t, id)
    {
      assert with.lists[id].ip == ip;
      BeginKeepsList(limit, k, with, t, login, from, id);
    }
  }

  lemma ListsStay(limit: nat, k: nat, s: State, e: Event, ip: string)
    requires WellFormed(s) && ListsBounded(limit - 1 + k, s, ip) && k >= 1
    requires WellFormed(Do(limit, s, e)) && |FlyingFrom(Do(limit, s, e), ip)| <= k
    ensures ListsBounded(limit - 1 + k, Do(limit, s, e), ip)
  {
    var t := Do(limit, s, e);
    if t != s {
      match e
      case Tick(elapsed) => TickKeeps(limit, limit - 1 + k, s, ip, elapsed);
      case Begin(login, from) => BeginKeeps(limit, k, s, ip, login, from);
      case Fail(login) => FailKeeps(limit - 1 + k, s, ip, login);
      case Succeed(login) => LeaveKeeps(limit - 1 + k, s, t, ip, login);
      case Abort(login) => LeaveKeeps(limit - 1 + k, s, t, ip, login);
    }
  }

  /** A success turns the other logins of its address into orphans; it was one of at most `k`. */
  lemma StraysAfterSuccess(k: nat, s: State, t: State, login: nat, ip: string)
    requires WellFormed(s) && WellFormed(t) && |FlyingFrom(s, ip)| <= k && login in FlyingFrom(s, ip)
    requires t.lists == s.lists && t.inFlight == s.inFlight - {login}
    ensures |Orphans(t, ip)| <= k - 1
  {
    SubsetSize(Orphans(t, ip), FlyingFrom(s, ip) - {login});
  }

  lemma OrphansAfterFail(s: State, login: nat, ip: string)
    requires WellFormed(s) && login in s.inFlight && WellFormed(DoFail(s, login))
    ensures Orphans(DoFail(s, login), ip) == Orphans(s, ip) - {login}
  {
    var t := DoFail(s, login);
    assert forall id :: 0 <= id < |s.lists| ==> t.lists[id].ip == s.lists[id].ip;
  }

  lemma StraysAfterFail(k: nat, s: State, login: nat, ip: string)
    requires WellFormed(s) && login in s.inFlight && WellFormed(DoFail(s, login))
    requires StraysBounded(k, s, ip)
    ensures StraysBounded(k, DoFail(s, login), ip)
  {
    OrphansAfterFail(s, login, ip);
    if login in Orphans(s, ip) {
      assert Strays(DoFail(s, login), ip) == Strays(s, ip) + 1;
    } else {
      assert Orphans(s, ip) - {login} == Orphans(s, ip);
    }
  }

  lemma StraysAfterBegin(limit: nat, s: State, login: nat, from: string, ip: string)
    requires WellFormed(s) && login !in s.inFlight && WellFormed(DoBegin(limit, s, login, from))
    ensures Orphans(DoBegin(limit, s, login, from), ip) <= Orphans(s, ip)
  {
  }

  lemma StraysStay(limit: nat, k: nat, s: State, e: Event, ip: string)
    requires WellFormed(s) && WellFormed(Do(limit, s, e)) && |FlyingFrom(s, ip)| <= k
    requires StraysBounded(k, s, ip)
    ensures StraysBounded(k, Do(limit, s, e), ip)
  {
    var t := Do(limit, s, e);
    if t != s {
      match e
      case Tick(_) => assert Orphans(t, ip) == Orphans(s, ip);
      case Begin(login, from) =>
        StraysAfterBegin(limit, s, login, from, ip);
        SubsetSize(Orphans(t, ip), Orphans(s, ip));
      case Fail(login) => StraysAfterFail(k, s, login, ip);
      case Abort(login) => SubsetSize(Orphans(t, ip), Orphans(s, ip));
      case Succeed(login) =>
        if s.lists[s.inFlight[login]].ip == ip {
          StraysAfterSuccess(k, s, t, login, ip);
        } else {
          assert Orphans(t, ip) == Orphans(s, ip);
        }
    }
  }

  lemma {:induction false} Always(limit: nat, k: nat, ip: string, events: seq<Event>)
    requires k >= 1 && Busy(limit, k, ip, events)
    ensures ListsBounded(limit - 1 + k, Execute(limit, events), ip) && StraysBounded(k, Execute(limit, events), ip)
  {
    if events == [] {
    } else {
      var s, e := Execute(limit, events[..|events| - 1]), events[|events| - 1];
      Always(limit, k, ip, events[..|events| - 1]);
      ListsStay(limit, k, s, e, ip);
      StraysStay(limit, k, s, e, ip);
    }
  }

  // ---------------------------------------------------------------- the theorems

  /** What the limiter promises an address: of its logins that began between two successes (they share
      a list), the failures in any window of 300 seconds are at most `limit - 1 + k`, where the address
      never has more than `k` logins under way. */
  lemma WindowsLimited(limit: nat, k: nat, ip: string, events: seq<Event>, id: nat, from: real)
    requires k >= 1 && Busy(limit, k, ip, events)
    requires id < |Execute(limit, events).lists| && Execute(limit, events).lists[id].ip == ip
    ensures InWindow(Execute(limit, events).lists[id].recorded, from) <= limit - 1 + k
  {
    Always(limit, k, ip, events);
    assert ListBounded(limit - 1 + k, Execute(limit, events), id);
  }

  /** When the address has one login at a time, whatever others do, that is the configured limit, and
      no failure since its last success is missing from its list. */
  lemma SequentialLimit(limit: nat, ip: string, events: seq<Event>, from: real)
    requires Busy(limit, 1, ip, events)
    ensures var s := Execute(limit, events);
            Strays(s, ip) == 0 && (ip in s.current ==> InWindow(s.lists[s.current[ip]].recorded, from) <= limit)
  {
    Always(limit, 1, ip, events);
    if ip in Execute(limit, events).current {
      WindowsLimited(limit, 1, ip, events, Execute(limit, events).current[ip], from);
    }
  }

  /** Counting every failure since the last success, also those of logins that had begun before it,
      the bound is looser: such a login still fails into the list that the success dropped. */
  lemma SinceSuccessLimited(limit: nat, k: nat, ip: string, events: seq<Event>, from: real)
    requires k >= 1 && Busy(limit, k, ip, events)
    ensures var s := Execute(limit, events);
            && Strays(s, ip) <= k - 1
            && (ip in s.current ==>
                  InWindow(s.lists[s.current[ip]].recorded, from) + Strays(s, ip) <= limit - 1 + k + (k - 1))
  {
    Always(limit, k, ip, events);
    if ip in Execute(limit, events).current {
      WindowsLimited(limit, k, ip, events, Execute(limit, events).current[ip], from);
    }
  }

  // ---------------------------------------------------------------- who is admitted

  ghost predicate Histories(s: State) {
    forall id :: 0 <= id < |s.lists| ==> History(s.now, s.lists[id])
  }

  lemma HistoryGrows(now: real, list: Attempts)
    requires History(now, list)
    ensures History(now, Attempts(list.ip, list.kept + [now], list.recorded + [now]))
  {
    forall from | from >= now - LOGIN_WINDOW_SECONDS
      ensures Since(list.kept + [now], from) == Since(list.recorded + [now], from)
    {
      Appended(list.kept, now, from);
      Appended(list.recorded, now, from);
    }
  }

  lemma HistoriesStay(limit: nat, s: State, e: Event)
    requires WellFormed(s) && Histories(s)
    ensures Histories(Do(limit, s, e))
  {
    match e
    case Begin(login, ip) =>
      var with := WithList(s, ip);
      assert History(s.now, with.lists[with.current[ip]]);
      ListPruned(s.now, with.lists[with.current[ip]]);
    case Fail(login) =>
      if login in s.inFlight {
        HistoryGrows(s.now, s.lists[s.inFlight[login]]);
      }
    case Tick(elapsed) =>
      if elapsed >= 0.0 {
        forall id | 0 <= id < |s.lists|
          ensures History(s.now + elapsed, s.lists[id])
        {
          HistoryAges(s.now, s.now + elapsed, s.lists[id]);
        }
      }
    case _ =>
  }

  lemma {:induction false} HistoriesAlways(limit: nat, events: seq<Event>)
    ensures Histories(Execute(limit, events))
  {
    if events != [] {
      HistoriesAlways(limit, events[..|events| - 1]);
      HistoriesStay(limit, Execute(limit, events[..|events| - 1]), events[|events| - 1]);
    }
  }

  /** The failures recorded for an address in the last 300 seconds, of logins that began since its last
      success. */
  ghost function RecentFailures(s: State, ip: string): nat
    requires WellFormed(s)
  {
    if ip in s.current then Since(s.lists[s.current[ip]].recorded, s.now - 300.0) else 0
  }

  lemma BeginAdmits(limit: nat, s: State, login: nat, ip: string)
    requires WellFormed(s) && Histories(s) && login !in s.inFlight
    ensures login in Do(limit, s, Begin(login, ip)).inFlight <==> RecentFailures(s, ip) < limit
  {
    if ip in s.current {
      ListPruned(s.now, s.lists[s.current[ip]]);
    }
  }

  /** Who is admitted, exactly: at any point of any run a login is let in if and only if fewer than
      `limit` failures are recorded for its address in the last 300 seconds. */
  lemma AdmittedExact(limit: nat, events: seq<Event>, login: nat, ip: string)
    requires login !in Execute(limit, events).inFlight
    ensures login in Execute(limit, events + [Begin(login, ip)]).inFlight
       <==> RecentFailures(Execute(limit, events), ip) < limit
  {
    HistoriesAlways(limit, events);
    BeginAdmits(limit, Execute(limit, events), login, ip);
    assert (events + [Begin(login, ip)])[..|events|] == events;
  }

  // ---------------------------------------------------------------- the bounds are reached

  /** A set of states that no event leaves which keeps the address at `k` logins under way. */
  ghost predicate Closed(limit: nat, k: nat, ip: string, states: iset<State>) {
    forall s, e :: s in states && WellFormed(s) && Calm(k, ip, Do(limit, s, e)) ==> Do(limit, s, e) in states
  }

  predicate Calm(k: nat, ip: string, s: State) {
    WellFormed(s) && |FlyingFrom(s, ip)| <= k
  }

  function Zeros(n: nat): (r: seq<real>)
    ensures |r| == n
  {
    if n == 0 then [] else Zeros(n - 1) + [0.0]
  }

  lemma {:induction false} ZerosCounted(n: nat)
    ensures Pruned(Zeros(n), 0.0) == Zeros(n) && InWindow(Zeros(n), 0.0) == n
  {
    if n > 0 {
      ZerosCounted(n - 1);
      assert Zeros(n)[..n - 1] == Zeros(n - 1);
    }
  }

  function Below(n: nat): (r: set<nat>)
    ensures |r| == n && forall i :: i in r <==> 0 <= i < n
  {
    if n == 0 then {} else Below(n - 1) + {n - 1}
  }

  /** The logins numbered below `n`, all writing to the list `id`. */
  function Logins(n: nat, id: nat): map<nat, nat> {
    map r | r in Below(n) :: id
  }

  lemma LoginsGrow(n: nat, id: nat)
    ensures n !in Logins(n, id)
    ensures Logins(n, id)[n := id] == Logins(n + 1, id) && Logins(n + 1, id) - {n} == Logins(n, id)
  {
  }

  function StrayCount(ip: string, strays: nat): map<string, nat> {
    if strays == 0 then map[] else map[ip := strays]
  }

  /** One address at time zero: the lists `gone` were dropped with `strays` failures after the last success;
      the current list has `failures`, and the logins numbered below `flying` write to it. */
  predicate Early(s: State, ip: string, gone: seq<Attempts>, strays: nat, failures: nat, flying: nat) {
    && s.now == 0.0 && s.current == map[ip := |gone|] && s.strays == StrayCount(ip, strays)
    && s.lists == gone + [Attempts(ip, Zeros(failures), Zeros(failures))]
    && s.inFlight == Logins(flying, |gone|)
    && forall i :: 0 <= i < |gone| ==> gone[i].ip == ip
  }

  lemma EarlyIsCalm(s: State, ip: string, gone: seq<Attempts>, strays: nat, failures: nat, flying: nat, k: nat)
    requires Early(s, ip, gone, strays, failures, flying) && flying <= k
    ensures Calm(k, ip, s)
  {
    assert WellFormed(s);
    SubsetSize(FlyingFrom(s, ip), Below(flying));
  }

  lemma EarlyBegin(limit: nat, s: State, ip: string, gone: seq<Attempts>, strays: nat, failures: nat, flying: nat)
    requires Early(s, ip, gone, strays, failures, flying) && failures < limit && WellFormed(s)
    ensures Early(Do(limit, s, Begin(flying, ip)), ip, gone, strays, failures, flying + 1)
  {
    ZerosCounted(failures);
    LoginsGrow(flying, |gone|);
    assert s.lists[|gone| := s.lists[|gone|]] == s.lists;
  }

  lemma EarlyFail(limit: nat, s: State, ip: string, gone: seq<Attempts>, strays: nat, failures: nat, flying: nat)
    requires Early(s, ip, gone, strays, failures, flying + 1) && WellFormed(s)
    ensures Early(Do(limit, s, Fail(flying)), ip, gone, strays, failures + 1, flying)
  {
    LoginsGrow(flying, |gone|);
    assert flying in s.inFlight && s.inFlight[flying] == |gone|;
  }

  /** One more login of the address begins, or fails, among the states. */
  lemma BeginNext(limit: nat, k: nat, states: iset<State>, s: State, ip: string, gone: seq<Attempts>, strays: nat,
                  failures: nat, flying: nat) returns (t: State)
    requires Closed(limit, k, ip, states) && s in states
    requires Early(s, ip, gone, strays, failures, flying) && failures < limit && flying < k
    ensures t in states && Early(t, ip, gone, strays, failures, flying + 1)
  {
    EarlyIsCalm(s, ip, gone, strays, failures, flying, k);
    EarlyBegin(limit, s, ip, gone, strays, failures, flying);
    t := Do(limit, s, Begin(flying, ip));
    EarlyIsCalm(t, ip, gone, strays, failures, flying + 1, k);
  }

  lemma FailNext(limit: nat, k: nat, states: iset<State>, s: State, ip: string, gone: seq<Attempts>, strays: nat,
                 failures: nat, flying: nat) returns (t: State)
    requires Closed(limit, k, ip, states) && s in states
    requires Early(s, ip, gone, strays, failures, flying + 1) && flying < k
    ensures t in states && Early(t, ip, gone, strays, failures + 1, flying)
  {
    EarlyIsCalm(s, ip, gone, strays, failures, flying + 1, k);
    EarlyFail(limit, s, ip, gone, strays, failures, flying);
    t := Do(limit, s, Fail(flying));
    EarlyIsCalm(t, ip, gone, strays, failures + 1, flying, k);
  }

  lemma {:induction false} BeginMany(limit: nat, k: nat, states: iset<State>, s: State, ip: string, gone: seq<Attempts>,
                                     strays: nat, failures: nat, more: nat) returns (t: State)
    requires Closed(limit, k, ip, states) && s in states
    requires Early(s, ip, gone, strays, failures, 0) && failures < limit && more <= k
    ensures t in states && Early(t, ip, gone, strays, failures, more)
  {
    if more == 0 {
      t := s;
    } else {
      var most := BeginMany(limit, k, states, s, ip, gone, strays, failures, more - 1);
      t := BeginNext(limit, k, states, most, ip, gone, strays, failures, more - 1);
    }
  }

  lemma {:induction false} FailMany(limit: nat, k: nat, states: iset<State>, s: State, ip: string, gone: seq<Attempts>,
                                    strays: nat, failures: nat, flying: nat, all: nat) returns (t: State)
    requires Closed(limit, k, ip, states) && s in states
    requires Early(s, ip, gone, strays, failures, flying) && flying <= k && failures + flying == all
    ensures t in states && Early(t, ip, gone, strays, all, 0)
    decreases flying
  {
    if flying == 0 {
      t := s;
    } else {
      var next := FailNext(limit, k, states, s, ip, gone, strays, failures, flying - 1);
      t := FailMany(limit, k, states, next, ip, gone, strays, failures + 1, flying - 1, all);
    }
  }

  /** Failures one after the other, as long as the limit allows them. */
  lemma {:induction false} FailSingly(limit: nat, k: nat, states: iset<State>, s: State, ip: string,
                                      gone: seq<Attempts>, strays: nat, failures: nat) returns (t: State)
    requires Closed(limit, k, ip, states) && s in states && Early(s, ip, gone, strays, 0, 0)
    requires failures <= limit && k >= 1
    ensures t in states && Early(t, ip, gone, strays, failures, 0)
  {
    if failures == 0 {
      t := s;
    } else {
      var most := FailSingly(limit, k, states, s, ip, gone, strays, failures - 1);
      var begun := BeginNext(limit, k, states, most, ip, gone, strays, failures - 1, 0);
      t := FailNext(limit, k, states, begun, ip, gone, strays, failures - 1, 0);
    }
  }

  /** `limit - 1` failures one by one, then `k` at once. */
  lemma FailToTheBound(limit: nat, k: nat, states: iset<State>, s: State, ip: string, gone: seq<Attempts>, strays: nat)
    returns (t: State)
    requires Closed(limit, k, ip, states) && s in states && Early(s, ip, gone, strays, 0, 0) && limit >= 1 && k >= 1
    ensures t in states && Early(t, ip, gone, strays, limit - 1 + k, 0)
  {
    var singly := FailSingly(limit, k, states, s, ip, gone, strays, limit - 1);
    var begun := BeginMany(limit, k, states, singly, ip, gone, strays, limit - 1, k);
    t := FailMany(limit, k, states, begun, ip, gone, strays, limit - 1, k, limit - 1 + k);
  }

  /** No list for the address: the first was dropped, `strays` logins have failed into it since, and the
      logins numbered below `flying` still write to it. */
  predicate Dropped(s: State, ip: string, strays: nat, flying: nat) {
    && s.now == 0.0 && s.current == map[] && s.strays == StrayCount(ip, strays)
    && s.lists == [Attempts(ip, Zeros(strays), Zeros(strays))] && s.inFlight == Logins(flying, 0)
  }

  lemma DroppedIsCalm(s: State, ip: string, strays: nat, flying: nat, k: nat)
    requires Dropped(s, ip, strays, flying) && flying <= k
    ensures Calm(k, ip, s)
  {
    assert WellFormed(s);
    SubsetSize(FlyingFrom(s, ip), Below(flying));
  }

  /** The last of the logins under way succeeds; the others become strays. */
  lemma SucceedFirst(limit: nat, k: nat, states: iset<State>, s: State, ip: string) returns (t: State)
    requires Closed(limit, k, ip, states) && s in states && Early(s, ip, [], 0, 0, k) && k >= 1
    ensures t in states && Dropped(t, ip, 0, k - 1)
  {
    EarlyIsCalm(s, ip, [], 0, 0, k, k);
    LoginsGrow(k - 1, 0);
    assert [] + [Attempts(ip, Zeros(0), Zeros(0))] == [Attempts(ip, Zeros(0), Zeros(0))];
    assert map[ip := 0] - {ip} == map[];
    t := Do(limit, s, Succeed(k - 1));
    DroppedIsCalm(t, ip, 0, k - 1, k);
  }

  lemma StrayNext(limit: nat, k: nat, states: iset<State>, s: State, ip: string, strays: nat, flying: nat)
    returns (t: State)
    requires Closed(limit, k, ip, states) && s in states && Dropped(s, ip, strays, flying + 1) && flying < k
    ensures t in states && Dropped(t, ip, strays + 1, flying)
  {
    DroppedIsCalm(s, ip, strays, flying + 1, k);
    LoginsGrow(flying, 0);
    t := Do(limit, s, Fail(flying));
    assert t.strays == StrayCount(ip, strays + 1);
    DroppedIsCalm(t, ip, strays + 1, flying, k);
  }

  lemma {:induction false} StrayMany(limit: nat, k: nat, states: iset<State>, s: State, ip: string, strays: nat,
                                     flying: nat, all: nat) returns (t: State)
    requires Closed(limit, k, ip, states) && s in states && Dropped(s, ip, strays, flying)
    requires flying <= k && strays + flying == all
    ensures t in states && Dropped(t, ip, all, 0)
    decreases flying
  {
    if flying == 0 {
      t := s;
    } else {
      var next := StrayNext(limit, k, states, s, ip, strays, flying - 1);
      t := StrayMany(limit, k, states, next, ip, strays + 1, flying - 1, all);
    }
  }

  /** A login begins, and ends without an outcome: it leaves an empty list behind. */
  lemma EmptyList(limit: nat, k: nat, states: iset<State>, s: State, ip: string, gone: seq<Attempts>, strays: nat)
    returns (t: State)
    requires Closed(limit, k, ip, states) && s in states && limit >= 1 && k >= 1
    requires s == State(0.0, map[], gone, map[], StrayCount(ip, strays))
    requires forall i :: 0 <= i < |gone| ==> gone[i].ip == ip
    ensures t in states && Early(t, ip, gone, strays, 0, 0)
  {
    assert WellFormed(s);
    var begun := Do(limit, s, Begin(0, ip));
    LoginsGrow(0, |gone|);
    assert begun.lists == gone + [Attempts(ip, [], [])];
    assert Early(begun, ip, gone, strays, 0, 1);
    EarlyIsCalm(begun, ip, gone, strays, 0, 1, k);
    t := Do(limit, begun, Abort(0));
    EarlyIsCalm(t, ip, gone, strays, 0, 0, k);
  }

  /** From the start: `limit - 1 + k` failures on one list. */
  lemma ReachLimit(limit: nat, k: nat, states: iset<State>, ip: string) returns (s: State)
    requires Closed(limit, k, ip, states) && START in states && limit >= 1 && k >= 1
    ensures s in states && Early(s, ip, [], 0, limit - 1 + k, 0)
  {
    var empty := EmptyList(limit, k, states, START, ip, [], 0);
    s := FailToTheBound(limit, k, states, empty, ip, [], 0);
  }

  /** From the start: `k - 1` stray failures, and then `limit - 1 + k` on the next list. */
  lemma ReachStrays(limit: nat, k: nat, states: iset<State>, ip: string) returns (s: State)
    requires Closed(limit, k, ip, states) && START in states && limit >= 1 && k >= 1
    ensures s in states && Early(s, ip, [Attempts(ip, Zeros(k - 1), Zeros(k - 1))], k - 1, limit - 1 + k, 0)
  {
    var gone := [Attempts(ip, Zeros(k - 1), Zeros(k - 1))];
    var first := EmptyList(limit, k, states, START, ip, [], 0);
    var begun := BeginMany(limit, k, states, first, ip, [], 0, 0, k);
    var dropped := SucceedFirst(limit, k, states, begun, ip);
    var failed := StrayMany(limit, k, states, dropped, ip, 0, k - 1, k - 1);
    var second := EmptyList(limit, k, states, failed, ip, gone, k - 1);
    s := FailToTheBound(limit, k, states, second, ip, gone, k - 1);
  }

  /** What a state shows of the address: failures in the window from zero on, and strays. */
  ghost predicate Shows(s: State, ip: string, failures: nat, strays: nat) {
    && ip in s.current && s.current[ip] < |s.lists|
    && InWindow(s.lists[s.current[ip]].recorded, 0.0) == failures && Strays(s, ip) == strays
  }

  lemma EarlyShows(s: State, ip: string, gone: seq<Attempts>, strays: nat, failures: nat)
    requires Early(s, ip, gone, strays, failures, 0)
    ensures Shows(s, ip, failures, strays)
  {
    ZerosCounted(failures);
  }

  ghost predicate Reachable(limit: nat, k: nat, ip: string, s: State) {
    exists events :: Busy(limit, k, ip, events) && Execute(limit, events) == s
  }

  lemma ReachableOnward(limit: nat, k: nat, ip: string, s: State, e: Event)
    requires Reachable(limit, k, ip, s) && WellFormed(s) && Calm(k, ip, Do(limit, s, e))
    ensures Reachable(limit, k, ip, Do(limit, s, e))
  {
    var events :| Busy(limit, k, ip, events) && Execute(limit, events) == s;
    assert (events + [e])[..|events|] == events;
    assert Busy(limit, k, ip, events + [e]) && Execute(limit, events + [e]) == Do(limit, s, e);
  }

  lemma ReachableStates(limit: nat, k: nat, ip: string) returns (states: iset<State>)
    ensures Closed(limit, k, ip, states) && START in states && forall s :: s in states ==> Reachable(limit, k, ip, s)
  {
    states := iset s | Reachable(limit, k, ip, s);
    forall s, e | s in states && WellFormed(s) && Calm(k, ip, Do(limit, s, e))
      ensures Do(limit, s, e) in states
    {
      ReachableOnward(limit, k, ip, s, e);
    }
    var none: seq<Event> := [];
    assert FlyingFrom(START, ip) == {};
    assert Busy(limit, k, ip, none) && Execute(limit, none) == START;
  }

  /** The bound of a list is reached, whatever the limit and however many logins may be under way. */
  lemma LimitReached(limit: nat, k: nat, ip: string)
    requires limit >= 1 && k >= 1
    ensures exists s :: Reachable(limit, k, ip, s) && Shows(s, ip, limit - 1 + k, 0)
  {
    var states := ReachableStates(limit, k, ip);
    var s := ReachLimit(limit, k, states, ip);
    EarlyShows(s, ip, [], 0, limit - 1 + k);
  }

  /** The looser bound is reached too, for every limit and every `k`: the failures in one window since
      the last success, strays included, are `limit - 1 + k + (k - 1)`. */
  lemma StraysReached(limit: nat, k: nat, ip: string)
    requires limit >= 1 && k >= 1
    ensures exists s :: Reachable(limit, k, ip, s) && Shows(s, ip, limit - 1 + k, k - 1)
  {
    var states := ReachableStates(limit, k, ip);
    var s := ReachStrays(limit, k, states, ip);
    EarlyShows(s, ip, [Attempts(ip, Zeros(k - 1), Zeros(k - 1))], k - 1, limit - 1 + k);
  }
}
