/** The read-through cache of customers by e-mail: entries live for 300 seconds under a case-folded
    key, the database is asked for the e-mail as given, and a missing customer is cached too. */
module CustomerCache {
  const TTL_SECONDS := 300.0

  /** The fields a lookup answers with. */
  datatype Customer = Customer(id: nat, name: string, email: string, phone: string, company: string,
                               industry: string, revenue: real)

  /** The customers by e-mail, which is unique. */
  type Rows = map<string, Customer>

  /** What a lookup returns: nothing, the empty dictionary, or a customer. */
  datatype Answer = Nothing | EmptyDict | Found(customer: Customer)

  /** What is stored under a key; text that is not JSON can only come from someone else. */
  datatype Body = Marker | Fields(customer: Customer) | Malformed

  /** An entry, when it was stored, and (for the proofs) for which e-mail and when its row was read. */
  datatype Entry = Entry(body: Body, stored: real, askedFor: string, readAt: real)

  function Direct(rows: Rows, email: string): Answer {
    if email in rows then Found(rows[email]) else Nothing
  }

  function Encode(a: Answer): Body {
    if a.Found? then Fields(a.customer) else Marker
  }

  function Decode(b: Body): Answer
    requires !b.Malformed?
  {
    if b.Fields? then Found(b.customer) else EmptyDict
  }

  /** The empty dictionary read as "no customer". */
  function AsIntended(a: Answer): Answer {
    if a.EmptyDict? then Nothing else a
  }

  predicate IsLive(e: Entry, now: real) {
    now - e.stored < TTL_SECONDS
  }

  /** A readable, live entry under the key. */
  predicate Hit(cache: map<string, Entry>, key: string, now: real) {
    key in cache && IsLive(cache[key], now) && !cache[key].body.Malformed?
  }

  /** A cache that is there at all, and whether it answers. */
  datatype Access = NoCache | Unreachable | Reachable

  /** One lookup that nothing interrupts, at one instant. */
  function Find(fold: string -> string, cache: map<string, Entry>, rows: Rows, now: real, email: string, access: Access)
    : (map<string, Entry>, Answer)
  {
    if email == "" then (cache, Nothing)
    else if access == Reachable && Hit(cache, fold(email), now) then (cache, Decode(cache[fold(email)].body))
    else
      var answer := Direct(rows, email);
      if access == Reachable then (cache[fold(email) := Entry(Encode(answer), now, email, now)], answer)
      else (cache, answer)
  }

  function Invalidate(fold: string -> string, cache: map<string, Entry>, email: string, access: Access)
    : map<string, Entry>
  {
    if email == "" || access != Reachable then cache else cache - {fold(email)}
  }

  class CustomerEnrichment {
    const fold: string -> string
    var cache: map<string, Entry>

    constructor (fold: string -> string)
      ensures this.fold == fold && cache == map[]
    {
      this.fold, cache := fold, map[];
    }

    method FindCustomerByEmail(rows: Rows, now: real, email: string, access: Access) returns (answer: Answer)
      modifies this
      ensures (cache, answer) == Find(fold, old(cache), rows, now, email, access)
    {
      if email == "" { return Nothing; }
      var key := fold(email);
      if access == Reachable && key in cache && now - cache[key].stored < TTL_SECONDS {
        match cache[key].body
        case Marker => return EmptyDict;
        case Fields(customer) => return Found(customer);
        case Malformed =>
      }
      answer := Nothing;
      if email in rows {
        answer := Found(rows[email]);
      }
      if access == Reachable {
        cache := cache[key := Entry(if answer.Found? then Fields(answer.customer) else Marker, now, email, now)];
      }
    }

    method InvalidateCustomerCache(email: string, access: Access)
      modifies this
      ensures cache == Invalidate(fold, old(cache), email, access)
    {
      if email == "" || access != Reachable { return; }
      cache := cache - {fold(email)};
    }
  }

  /** Who answers a lookup. An entry under the folded key that is younger than 300 seconds and readable,
      if the cache can be reached; a marker then is the empty dictionary. In any other case the database,
      asked for the e-mail as given, and its answer is stored if the cache can be reached. */
  lemma AnsweredBy(fold: string -> string, cache: map<string, Entry>, rows: Rows, now: real, email: string,
                   access: Access)
    ensures var (after, answer) := Find(fold, cache, rows, now, email, access);
            var key := fold(email);
            var byCache := email != "" && access == Reachable && key in cache && now - cache[key].stored < 300.0
                           && !cache[key].body.Malformed?;
            if byCache then
              && after == cache
              && answer == if cache[key].body.Marker? then EmptyDict else Found(cache[key].body.customer)
            else
              && answer == (if email != "" && email in rows then Found(rows[email]) else Nothing)
              && after.Keys == (if email != "" && access == Reachable then cache.Keys + {key} else cache.Keys)
              && (forall other :: other in cache && (other != key || email == "" || access != Reachable) ==>
                    other in after && after[other] == cache[other])
              && (email != "" && access == Reachable ==>
                    && after[key].stored == now
                    && after[key].body == if answer.Found? then Fields(answer.customer) else Marker)
  {
  }

  // ---------------------------------------------------------------- a serial run with invalidation

  /** Every live, readable entry says what the database says now of the e-mail it was stored for. */
  ghost predicate Coherent(fold: string -> string, cache: map<string, Entry>, rows: Rows, now: real) {
    forall key :: Hit(cache, key, now) ==>
      && cache[key].askedFor != "" && fold(cache[key].askedFor) == key
      && AsIntended(Decode(cache[key].body)) == Direct(rows, cache[key].askedFor)
  }

  datatype Step =
    | Wait(elapsed: real)
    | Lookup(email: string)
    | Put(email: string, customer: Customer)
    | Remove(email: string)

  datatype Serial = Serial(now: real, rows: Rows, cache: map<string, Entry>, answers: seq<(Answer, Answer)>)

  /** A step of a serial run in which every change of a customer is followed by its invalidation. Each
      answer is kept beside what the database would have said. */
  function Next(fold: string -> string, s: Serial, step: Step): Serial {
    match step
    case Wait(elapsed) => if elapsed >= 0.0 then s.(now := s.now + elapsed) else s
    case Lookup(email) =>
      var (cache, answer) := Find(fold, s.cache, s.rows, s.now, email, Reachable);
      s.(cache := cache, answers := s.answers + [(answer, if email == "" then Nothing else Direct(s.rows, email))])
    case Put(email, customer) =>
      s.(rows := s.rows[email := customer], cache := Invalidate(fold, s.cache, email, Reachable))
    case Remove(email) =>
      s.(rows := s.rows - {email}, cache := Invalidate(fold, s.cache, email, Reachable))
  }

  function RunSerially(fold: string -> string, rows: Rows, steps: seq<Step>): Serial {
    if steps == [] then Serial(0.0, rows, map[], [])
    else Next(fold, RunSerially(fold, rows, steps[..|steps| - 1]), steps[|steps| - 1])
  }

  /** The steps look each key up under one spelling. */
  predicate OneSpellingEach(fold: string -> string, steps: seq<Step>) {
    forall i, j :: 0 <= i < |steps| && 0 <= j < |steps| && steps[i].Lookup? && steps[j].Lookup? ==>
      fold(steps[i].email) == fold(steps[j].email) ==> steps[i].email == steps[j].email
  }

  /** Every readable entry was stored for an e-mail that was looked up. */
  ghost predicate LookedUp(cache: map<string, Entry>, steps: seq<Step>) {
    forall key :: key in cache && !cache[key].body.Malformed? ==> Lookup(cache[key].askedFor) in steps
  }

  lemma LookedUpStep(fold: string -> string, rows: Rows, steps: seq<Step>, step: Step)
    requires LookedUp(RunSerially(fold, rows, steps).cache, steps)
    ensures LookedUp(Next(fold, RunSerially(fold, rows, steps), step).cache, steps + [step])
  {
  }

  lemma CoherentStep(fold: string -> string, s: Serial, step: Step)
    requires Coherent(fold, s.cache, s.rows, s.now)
    ensures Coherent(fold, Next(fold, s, step).cache, Next(fold, s, step).rows, Next(fold, s, step).now)
  {
  }

  /** In a serial run that looks each key up under one spelling, and in which every change is followed by
      an invalidation, every lookup answers what the database holds at that instant. */
  lemma {:induction false} SerialLookupsFresh(fold: string -> string, rows: Rows, steps: seq<Step>)
    requires OneSpellingEach(fold, steps)
    ensures var s := RunSerially(fold, rows, steps);
            && Coherent(fold, s.cache, s.rows, s.now) && LookedUp(s.cache, steps)
            && forall i :: 0 <= i < |s.answers| ==> AsIntended(s.answers[i].0) == s.answers[i].1
  {
    if steps == [] {
    } else {
      var before, step := steps[..|steps| - 1], steps[|steps| - 1];
      assert steps == before + [step];
      SerialLookupsFresh(fold, rows, before);
      var s := RunSerially(fold, rows, before);
      CoherentStep(fold, s, step);
      LookedUpStep(fold, rows, before, step);
      if step.Lookup? && Hit(s.cache, fold(step.email), s.now) {
        assert Lookup(s.cache[fold(step.email)].askedFor) in steps && step in steps;
      }
    }
  }

  /** Without a single spelling per key this fails also in a serial run: of two e-mails that the database
      tells apart and the key does not, each is answered with what was looked up for the other. */
  lemma FoldedKeysCollide(fold: string -> string, rows: Rows, now: real, a: string, b: string)
    requires a != "" && b != "" && fold(a) == fold(b) && Direct(rows, a) != Direct(rows, b)
    ensures var (cache, first) := Find(fold, map[], rows, now, b, Reachable);
            && first == Direct(rows, b)
            && AsIntended(Find(fold, cache, rows, now, a, Reachable).1) == first != Direct(rows, a)
  {
  }

  /** Whatever was cached, the next lookup under the key after an invalidation, in whatever spelling, is
      what the database holds at that instant, and entries under other keys are not touched. */
  lemma FreshAfterInvalidation(fold: string -> string, cache: map<string, Entry>, rows: Rows, now: real,
                               email: string, asked: string, access: Access)
    requires email != "" && asked != "" && fold(asked) == fold(email)
    ensures var left := Invalidate(fold, cache, email, Reachable);
            && Find(fold, left, rows, now, asked, access).1 == Direct(rows, asked)
            && forall key :: key in cache && key != fold(email) ==> key in left && left[key] == cache[key]
  {
  }

  /** A customer that the database does not have is answered with the documented nothing exactly when the
      cache is not asked or has no live entry, and with the empty dictionary exactly when a live marker is
      found. */
  lemma AbsentCustomerExact(fold: string -> string, cache: map<string, Entry>, rows: Rows, now: real, email: string,
                            access: Access)
    requires email != "" && email !in rows
    ensures var answer := Find(fold, cache, rows, now, email, access).1;
            && (answer == Nothing <==> !(access == Reachable && Hit(cache, fold(email), now)))
            && (answer == EmptyDict <==>
                  access == Reachable && Hit(cache, fold(email), now) && cache[fold(email)].body == Marker)
  {
  }

  /** An absent customer is answered with nothing once, and with the empty dictionary from then on. */
  lemma AbsentCustomerTwice(fold: string -> string, cache: map<string, Entry>, rows: Rows, now: real, later: real,
                            email: string)
    requires email != "" && email !in rows && !Hit(cache, fold(email), now) && now <= later < now + TTL_SECONDS
    ensures var (filled, first) := Find(fold, cache, rows, now, email, Reachable);
            first == Nothing && Find(fold, filled, rows, later, email, Reachable) == (filled, EmptyDict)
  {
  }

  // ---------------------------------------------------------------- interleavings

  datatype Phase = Reading(email: string) | Fetched(email: string, answer: Answer, readAt: real)

  /** An answer: when, to what question, from an entry stored when, for which e-mail, read when. */
  datatype Reply = Reply(at: real, email: string, answer: Answer, stored: real, askedFor: string, readAt: real)

  datatype State = State(now: real, rows: Rows, cache: map<string, Entry>, threads: map<nat, Phase>,
                         replies: seq<Reply>)

  datatype Event =
    | Tick(elapsed: real)
    | SetRow(row: string, customer: Customer)
    | DropRow(row: string)
    | Get(thread: nat, email: string, reached: bool)
    | Query(thread: nat)
    | Fill(thread: nat, reached: bool)
    | Delete(email: string)
    | Garble(key: string)

  function Start(rows: Rows): State {
    State(0.0, rows, map[], map[], [])
  }

  function Do(fold: string -> string, s: State, e: Event): State {
    match e
    case Tick(elapsed) => if elapsed >= 0.0 then s.(now := s.now + elapsed) else s
    case SetRow(email, customer) => s.(rows := s.rows[email := customer])
    case DropRow(email) => s.(rows := s.rows - {email})
    case Get(t, email, reached) =>
      if t in s.threads || email == "" then s
      else if reached && Hit(s.cache, fold(email), s.now) then
        var entry := s.cache[fold(email)];
        s.(replies := s.replies + [Reply(s.now, email, Decode(entry.body), entry.stored, entry.askedFor, entry.readAt)])
      else s.(threads := s.threads[t := Reading(email)])
    case Query(t) =>
      if t !in s.threads || !s.threads[t].Reading? then s
      else
        var email := s.threads[t].email;
        s.(threads := s.threads[t := Fetched(email, Direct(s.rows, email), s.now)])
    case Fill(t, reached) =>
      if t !in s.threads || !s.threads[t].Fetched? then s
      else
        var Fetched(email, answer, readAt) := s.threads[t];
        var entry := Entry(Encode(answer), s.now, email, readAt);
        s.(threads := s.threads - {t},
           cache := if reached then s.cache[fold(email) := entry] else s.cache,
           replies := s.replies + [Reply(s.now, email, answer, s.now, email, readAt)])
    case Delete(email) => if email == "" then s else s.(cache := s.cache - {fold(email)})
    case Garble(key) => s.(cache := s.cache[key := Entry(Malformed, s.now, "", s.now)])
  }

  function Execute(fold: string -> string, rows: Rows, events: seq<Event>): State {
    if events == [] then Start(rows)
    else Do(fold, Execute(fold, rows, events[..|events| - 1]), events[|events| - 1])
  }

  /** The steps of a lookup, with nothing in between, are the sequential lookup. */
  lemma StepsAreFind(fold: string -> string, s: State, t: nat, email: string)
    requires t !in s.threads && email != ""
    ensures var r := Do(fold, Do(fold, Do(fold, s, Get(t, email, true)), Query(t)), Fill(t, true));
            var (cache, answer) := Find(fold, s.cache, s.rows, s.now, email, Reachable);
            && r == s.(cache := cache, replies := r.replies)
            && |r.replies| == |s.replies| + 1 && r.replies[..|s.replies|] == s.replies
            && r.replies[|s.replies|].answer == answer && r.replies[|s.replies|].email == email
  {
    if !Hit(s.cache, fold(email), s.now) {
      var asked := Do(fold, Do(fold, s, Get(t, email, true)), Query(t));
      assert asked == s.(threads := s.threads[t := Fetched(email, Direct(s.rows, email), s.now)]);
      assert asked.threads - {t} == s.threads;
    }
  }

  /** At some moment of the run, which was the instant `at`, the database gave this answer. */
  ghost predicate WasTrue(fold: string -> string, rows: Rows, events: seq<Event>, email: string, answer: Answer,
                          at: real) {
    exists j :: 0 <= j <= |events| && AnswerAt(Execute(fold, rows, events[..j]), email, answer, at)
  }

  predicate AnswerAt(s: State, email: string, answer: Answer, at: real) {
    s.now == at && Direct(s.rows, email) == answer
  }

  ghost predicate EntriesTrue(fold: string -> string, rows: Rows, events: seq<Event>) {
    var s := Execute(fold, rows, events);
    forall key :: key in s.cache && !s.cache[key].body.Malformed? ==>
      EntryTrue(fold, rows, events, key, s.cache[key])
  }

  ghost predicate EntryTrue(fold: string -> string, rows: Rows, events: seq<Event>, key: string, e: Entry)
    requires !e.body.Malformed?
  {
    && fold(e.askedFor) == key && e.readAt <= e.stored
    && WasTrue(fold, rows, events, e.askedFor, AsIntended(Decode(e.body)), e.readAt)
  }

  ghost predicate ThreadsTrue(fold: string -> string, rows: Rows, events: seq<Event>) {
    var s := Execute(fold, rows, events);
    forall t :: t in s.threads && s.threads[t].Fetched? ==> FetchTrue(fold, rows, events, s.now, s.threads[t])
  }

  ghost predicate FetchTrue(fold: string -> string, rows: Rows, events: seq<Event>, now: real, p: Phase)
    requires p.Fetched?
  {
    p.readAt <= now && !p.answer.EmptyDict? && WasTrue(fold, rows, events, p.email, p.answer, p.readAt)
  }

  ghost predicate RepliesTrue(fold: string -> string, rows: Rows, events: seq<Event>) {
    var s := Execute(fold, rows, events);
    forall i :: 0 <= i < |s.replies| ==> ReplyTrue(fold, rows, events, s.replies[i])
  }

  /** A reply is what the database said of an e-mail with the same key, less than 300 seconds plus the
      filler's own read-to-store delay before. */
  ghost predicate ReplyTrue(fold: string -> string, rows: Rows, events: seq<Event>, r: Reply) {
    && fold(r.askedFor) == fold(r.email)
    && r.readAt <= r.stored && r.at - r.readAt < TTL_SECONDS + (r.stored - r.readAt)
    && WasTrue(fold, rows, events, r.askedFor, AsIntended(r.answer), r.readAt)
  }

  lemma StaysTrue(fold: string -> string, rows: Rows, events: seq<Event>, e: Event, email: string, answer: Answer,
                  at: real)
    requires WasTrue(fold, rows, events, email, answer, at)
    ensures WasTrue(fold, rows, events + [e], email, answer, at)
  {
    var j :| 0 <= j <= |events| && AnswerAt(Execute(fold, rows, events[..j]), email, answer, at);
    assert (events + [e])[..j] == events[..j];
  }

  lemma TrueNow(fold: string -> string, rows: Rows, events: seq<Event>, email: string)
    ensures var s := Execute(fold, rows, events); WasTrue(fold, rows, events, email, Direct(s.rows, email), s.now)
  {
    assert events[..|events|] == events;
    assert AnswerAt(Execute(fold, rows, events[..|events|]), email,
                    Direct(Execute(fold, rows, events).rows, email), Execute(fold, rows, events).now);
  }

  ghost predicate Inv(fold: string -> string, rows: Rows, events: seq<Event>) {
    EntriesTrue(fold, rows, events) && ThreadsTrue(fold, rows, events) && RepliesTrue(fold, rows, events)
  }

  lemma EntriesStay(fold: string -> string, rows: Rows, events: seq<Event>, e: Event, s: State, t: State)
    requires Inv(fold, rows, events) && s == Execute(fold, rows, events) && t == Do(fold, s, e)
    ensures forall key :: key in t.cache && !t.cache[key].body.Malformed? ==>
              EntryTrue(fold, rows, events + [e], key, t.cache[key])
  {
    forall key | key in t.cache && !t.cache[key].body.Malformed?
      ensures EntryTrue(fold, rows, events + [e], key, t.cache[key])
    {
      var entry := t.cache[key];
      if key in s.cache && s.cache[key] == entry {
        assert EntryTrue(fold, rows, events, key, entry);
      } else {
        assert FetchTrue(fold, rows, events, s.now, s.threads[e.thread]);
      }
      StaysTrue(fold, rows, events, e, entry.askedFor, AsIntended(Decode(entry.body)), entry.readAt);
    }
  }

  lemma ThreadsStay(fold: string -> string, rows: Rows, events: seq<Event>, e: Event, s: State, t: State)
    requires Inv(fold, rows, events) && s == Execute(fold, rows, events) && t == Do(fold, s, e)
    ensures forall i :: i in t.threads && t.threads[i].Fetched? ==>
              FetchTrue(fold, rows, events + [e], t.now, t.threads[i])
  {
    forall i | i in t.threads && t.threads[i].Fetched?
      ensures FetchTrue(fold, rows, events + [e], t.now, t.threads[i])
    {
      var phase := t.threads[i];
      if i in s.threads && s.threads[i] == phase {
        assert FetchTrue(fold, rows, events, s.now, phase);
      } else {
        TrueNow(fold, rows, events, phase.email);
      }
      StaysTrue(fold, rows, events, e, phase.email, phase.answer, phase.readAt);
    }
  }

  lemma NewReplyTrue(fold: string -> string, rows: Rows, events: seq<Event>, e: Event, s: State, t: State)
    requires Inv(fold, rows, events) && s == Execute(fold, rows, events) && t == Do(fold, s, e)
    requires |t.replies| > |s.replies|
    ensures ReplyTrue(fold, rows, events + [e], t.replies[|s.replies|])
  {
    var reply := t.replies[|s.replies|];
    if e.Get? {
      assert EntryTrue(fold, rows, events, fold(e.email), s.cache[fold(e.email)]);
    } else {
      assert FetchTrue(fold, rows, events, s.now, s.threads[e.thread]);
    }
    StaysTrue(fold, rows, events, e, reply.askedFor, AsIntended(reply.answer), reply.readAt);
  }

  lemma RepliesOfStep(fold: string -> string, s: State, e: Event)
    ensures |s.replies| <= |Do(fold, s, e).replies| <= |s.replies| + 1
    ensures Do(fold, s, e).replies[..|s.replies|] == s.replies
  {
  }

  lemma RepliesStay(fold: string -> string, rows: Rows, events: seq<Event>, e: Event, s: State, t: State)
    requires Inv(fold, rows, events) && s == Execute(fold, rows, events) && t == Do(fold, s, e)
    ensures forall i :: 0 <= i < |t.replies| ==> ReplyTrue(fold, rows, events + [e], t.replies[i])
  {
    RepliesOfStep(fold, s, e);
    forall i | 0 <= i < |t.replies|
      ensures ReplyTrue(fold, rows, events + [e], t.replies[i])
    {
      if i < |s.replies| {
        var reply := s.replies[i];
        assert reply == t.replies[..|s.replies|][i];
        assert ReplyTrue(fold, rows, events, reply);
        StaysTrue(fold, rows, events, e, reply.askedFor, AsIntended(reply.answer), reply.readAt);
      } else {
        NewReplyTrue(fold, rows, events, e, s, t);
      }
    }
  }

  lemma {:induction false} Always(fold: string -> string, rows: Rows, events: seq<Event>)
    ensures Inv(fold, rows, events)
  {
    if events == [] {
    } else {
      var before, e := events[..|events| - 1], events[|events| - 1];
      Always(fold, rows, before);
      var s := Execute(fold, rows, before);
      assert events == before + [e];
      EntriesStay(fold, rows, before, e, s, Do(fold, s, e));
      ThreadsStay(fold, rows, before, e, s, Do(fold, s, e));
      RepliesStay(fold, rows, before, e, s, Do(fold, s, e));
    }
  }

  /** Bounded staleness, in every interleaving: an answer, the empty dictionary read as nothing, is what
      the database said of an e-mail with the same key at some instant of the run, less than 300 seconds
      plus that filler's own read-to-store delay earlier. */
  lemma BoundedStaleness(fold: string -> string, rows: Rows, events: seq<Event>, i: nat)
    requires i < |Execute(fold, rows, events).replies|
    ensures ReplyTrue(fold, rows, events, Execute(fold, rows, events).replies[i])
  {
    Always(fold, rows, events);
  }

  // ---------------------------------------------------------------- one spelling per key

  /** The event asks for another spelling of the e-mail. */
  predicate AsksOther(fold: string -> string, e: Event, email: string) {
    e.Get? && e.email != email && fold(e.email) == fold(email)
  }

  /** What stands under the key of the e-mail was asked for under that e-mail. */
  ghost predicate OneSpelling(fold: string -> string, s: State, email: string) {
    && (forall t :: t in s.threads && fold(s.threads[t].email) == fold(email) ==> s.threads[t].email == email)
    && (fold(email) in s.cache && !s.cache[fold(email)].body.Malformed? ==> s.cache[fold(email)].askedFor == email)
    && (forall i :: 0 <= i < |s.replies| && s.replies[i].email == email ==> s.replies[i].askedFor == email)
  }

  lemma OneSpellingStep(fold: string -> string, s: State, e: Event, email: string)
    requires OneSpelling(fold, s, email) && !AsksOther(fold, e, email)
    ensures OneSpelling(fold, Do(fold, s, e), email)
  {
  }

  lemma {:induction false} OneSpellingAlways(fold: string -> string, rows: Rows, events: seq<Event>, email: string)
    requires forall j :: 0 <= j < |events| ==> !AsksOther(fold, events[j], email)
    ensures OneSpelling(fold, Execute(fold, rows, events), email)
  {
    if events != [] {
      OneSpellingAlways(fold, rows, events[..|events| - 1], email);
      OneSpellingStep(fold, Execute(fold, rows, events[..|events| - 1]), events[|events| - 1], email);
    }
  }

  /** When no other spelling with the same key is asked for, a reply is what the database said of its own
      e-mail: the cache agrees with the database. */
  lemma AgreesWithDatabase(fold: string -> string, rows: Rows, events: seq<Event>, i: nat)
    requires i < |Execute(fold, rows, events).replies|
    requires forall j :: 0 <= j < |events| ==> !AsksOther(fold, events[j], Execute(fold, rows, events).replies[i].email)
    ensures var r := Execute(fold, rows, events).replies[i];
            && r.at - r.readAt < TTL_SECONDS + (r.stored - r.readAt)
            && WasTrue(fold, rows, events, r.email, AsIntended(r.answer), r.readAt)
  {
    BoundedStaleness(fold, rows, events, i);
    OneSpellingAlways(fold, rows, events, Execute(fold, rows, events).replies[i].email);
  }

  /** A lookup of one e-mail, and then of another, by two requests. */
  function AskTwice(first: string, second: string): seq<Event> {
    [Get(0, first, true)] + [Query(0)] + [Fill(0, true)] + [Get(1, second, true)]
  }

  lemma AnswerOfOther(fold: string -> string, rows: Rows, a: string, b: string)
    requires a != "" && b != "" && fold(a) == fold(b)
    ensures var s := Execute(fold, rows, AskTwice(b, a));
            |s.replies| == 2 && s.replies[1].email == a && AsIntended(s.replies[1].answer) == Direct(rows, b)
  {
    var start := Start(rows);
    assert Execute(fold, rows, []) == start && [] + [Get(0, b, true)] == [Get(0, b, true)];
    Extend(fold, rows, [], Get(0, b, true));
    Extend(fold, rows, [Get(0, b, true)], Query(0));
    Extend(fold, rows, [Get(0, b, true)] + [Query(0)], Fill(0, true));
    Extend(fold, rows, [Get(0, b, true)] + [Query(0)] + [Fill(0, true)], Get(1, a, true));
    ReadEarly(fold, start, b);
    var read := start.(threads := map[0 := Fetched(b, Direct(rows, b), 0.0)]);
    assert Execute(fold, rows, [Get(0, b, true)] + [Query(0)]) == read;
    assert read.threads - {0} == map[];
  }

  predicate ChangesRows(e: Event) {
    e.SetRow? || e.DropRow?
  }

  lemma {:induction false} RowsKept(fold: string -> string, rows: Rows, before: seq<Event>, after: seq<Event>)
    requires forall j :: 0 <= j < |after| ==> !ChangesRows(after[j])
    ensures Execute(fold, rows, before + after).rows == Execute(fold, rows, before).rows
  {
    if after == [] {
      assert before + after == before;
    } else {
      var most, e := after[..|after| - 1], after[|after| - 1];
      RowsKept(fold, rows, before, most);
      Extend(fold, rows, before + most, e);
      assert before + after == before + most + [e] && !ChangesRows(e);
    }
  }

  /** Conversely, two spellings with one key do disagree: whenever the database tells two e-mails with
      the same key apart, a lookup of one, after a lookup of the other, is answered with what the database
      never says of it. */
  lemma SpellingsDisagree(fold: string -> string, rows: Rows, a: string, b: string, at: real)
    requires a != "" && b != "" && fold(a) == fold(b) && Direct(rows, a) != Direct(rows, b)
    ensures var s := Execute(fold, rows, AskTwice(b, a));
            && |s.replies| == 2 && s.replies[1].email == a
            && !WasTrue(fold, rows, AskTwice(b, a), a, AsIntended(s.replies[1].answer), at)
  {
    AnswerOfOther(fold, rows, a, b);
    var events := AskTwice(b, a);
    forall j | 0 <= j <= |events|
      ensures Execute(fold, rows, events[..j]).rows == rows
    {
      RowsKept(fold, rows, [], events[..j]);
      assert [] + events[..j] == events[..j];
    }
  }

  // ---------------------------------------------------------------- invalidation among other steps

  lemma Extend(fold: string -> string, rows: Rows, events: seq<Event>, e: Event)
    ensures Execute(fold, rows, events + [e]) == Do(fold, Execute(fold, rows, events), e)
  {
    assert (events + [e])[..|events|] == events;
  }

  lemma ReadEarly(fold: string -> string, s: State, email: string)
    requires s.threads == map[] && s.cache == map[] && email != ""
    ensures Do(fold, Do(fold, s, Get(0, email, true)), Query(0))
         == s.(threads := map[0 := Fetched(email, Direct(s.rows, email), s.now)])
  {
    assert Do(fold, s, Get(0, email, true)) == s.(threads := map[0 := Reading(email)]);
  }

  /** At or after the `since`th event the database gave this answer. */
  ghost predicate SaidSince(fold: string -> string, rows: Rows, events: seq<Event>, since: nat, email: string,
                            answer: Answer) {
    exists j :: since <= j <= |events| && Direct(Execute(fold, rows, events[..j]).rows, email) == answer
  }

  lemma StillSaid(fold: string -> string, rows: Rows, events: seq<Event>, e: Event, since: nat, email: string,
                  answer: Answer)
    requires SaidSince(fold, rows, events, since, email, answer)
    ensures SaidSince(fold, rows, events + [e], since, email, answer)
  {
    var j :| since <= j <= |events| && Direct(Execute(fold, rows, events[..j]).rows, email) == answer;
    assert (events + [e])[..j] == events[..j];
  }

  lemma SaidNow(fold: string -> string, rows: Rows, events: seq<Event>, since: nat, email: string)
    requires since <= |events|
    ensures SaidSince(fold, rows, events, since, email, Direct(Execute(fold, rows, events).rows, email))
  {
    assert events[..|events|] == events;
  }

  /** Every lookup under the key that stands between its read and its store holds what the database says
      now; in particular when there is none. */
  ghost predicate InStep(fold: string -> string, s: State, key: string) {
    forall t :: t in s.threads && s.threads[t].Fetched? && fold(s.threads[t].email) == key ==>
      s.threads[t].answer == Direct(s.rows, s.threads[t].email)
  }

  predicate NobodyFetched(fold: string -> string, s: State, key: string) {
    forall t :: t in s.threads ==> !(s.threads[t].Fetched? && fold(s.threads[t].email) == key)
  }

  /** Since the invalidation, whatever stands under the key, or was replied under it, has been said. */
  ghost predicate EntrySince(fold: string -> string, rows: Rows, events: seq<Event>, since: nat, key: string) {
    var s := Execute(fold, rows, events);
    key in s.cache && !s.cache[key].body.Malformed? ==>
      SaidSince(fold, rows, events, since, s.cache[key].askedFor, AsIntended(Decode(s.cache[key].body)))
  }

  ghost predicate ThreadsSince(fold: string -> string, rows: Rows, events: seq<Event>, since: nat, key: string) {
    var s := Execute(fold, rows, events);
    forall t :: t in s.threads && s.threads[t].Fetched? && fold(s.threads[t].email) == key ==>
      !s.threads[t].answer.EmptyDict? && SaidSince(fold, rows, events, since, s.threads[t].email, s.threads[t].answer)
  }

  ghost predicate RepliesSince(fold: string -> string, rows: Rows, events: seq<Event>, since: nat, key: string,
                               from: nat) {
    var s := Execute(fold, rows, events);
    forall i :: from <= i < |s.replies| && fold(s.replies[i].email) == key ==>
      SaidSince(fold, rows, events, since, s.replies[i].askedFor, AsIntended(s.replies[i].answer))
  }

  ghost predicate FreshInv(fold: string -> string, rows: Rows, events: seq<Event>, since: nat, key: string, from: nat) {
    && since <= |events| && from <= |Execute(fold, rows, events).replies|
    && EntrySince(fold, rows, events, since, key) && ThreadsSince(fold, rows, events, since, key)
    && RepliesSince(fold, rows, events, since, key, from)
  }

  lemma EntrySinceStep(fold: string -> string, rows: Rows, events: seq<Event>, e: Event, since: nat, key: string,
                       from: nat)
    requires FreshInv(fold, rows, events, since, key, from)
    ensures EntrySince(fold, rows, events + [e], since, key)
  {
    Extend(fold, rows, events, e);
    var s, t := Execute(fold, rows, events), Execute(fold, rows, events + [e]);
    if key in t.cache && !t.cache[key].body.Malformed? {
      StillSaid(fold, rows, events, e, since, t.cache[key].askedFor, AsIntended(Decode(t.cache[key].body)));
    }
  }

  lemma ThreadsSinceStep(fold: string -> string, rows: Rows, events: seq<Event>, e: Event, since: nat, key: string,
                         from: nat)
    requires FreshInv(fold, rows, events, since, key, from)
    ensures ThreadsSince(fold, rows, events + [e], since, key)
  {
    Extend(fold, rows, events, e);
    var s, t := Execute(fold, rows, events), Execute(fold, rows, events + [e]);
    forall i | i in t.threads && t.threads[i].Fetched? && fold(t.threads[i].email) == key
      ensures !t.threads[i].answer.EmptyDict?
      ensures SaidSince(fold, rows, events + [e], since, t.threads[i].email, t.threads[i].answer)
    {
      if !(i in s.threads && s.threads[i] == t.threads[i]) {
        SaidNow(fold, rows, events, since, t.threads[i].email);
      }
      StillSaid(fold, rows, events, e, since, t.threads[i].email, t.threads[i].answer);
    }
  }

  lemma RepliesSinceStep(fold: string -> string, rows: Rows, events: seq<Event>, e: Event, since: nat, key: string,
                         from: nat)
    requires FreshInv(fold, rows, events, since, key, from)
    ensures RepliesSince(fold, rows, events + [e], since, key, from)
    ensures from <= |Execute(fold, rows, events + [e]).replies|
  {
    Extend(fold, rows, events, e);
    var s, t := Execute(fold, rows, events), Execute(fold, rows, events + [e]);
    forall i | from <= i < |t.replies| && fold(t.replies[i].email) == key
      ensures SaidSince(fold, rows, events + [e], since, t.replies[i].askedFor, AsIntended(t.replies[i].answer))
    {
      StillSaid(fold, rows, events, e, since, t.replies[i].askedFor, AsIntended(t.replies[i].answer));
    }
  }

  lemma Invalidated(fold: string -> string, rows: Rows, before: seq<Event>, email: string)
    requires email != "" && InStep(fold, Execute(fold, rows, before), fold(email))
    ensures FreshInv(fold, rows, before + [Delete(email)], |before|, fold(email), |Execute(fold, rows, before).replies|)
  {
    var s := Execute(fold, rows, before);
    Always(fold, rows, before);
    Extend(fold, rows, before, Delete(email));
    forall t | t in s.threads && s.threads[t].Fetched? && fold(s.threads[t].email) == fold(email)
      ensures !s.threads[t].answer.EmptyDict?
      ensures SaidSince(fold, rows, before + [Delete(email)], |before|, s.threads[t].email, s.threads[t].answer)
    {
      SaidNow(fold, rows, before, |before|, s.threads[t].email);
      StillSaid(fold, rows, before, Delete(email), |before|, s.threads[t].email, s.threads[t].answer);
    }
  }

  lemma {:induction false} FreshFromThen(fold: string -> string, rows: Rows, before: seq<Event>, email: string,
                                         after: seq<Event>)
    requires email != "" && InStep(fold, Execute(fold, rows, before), fold(email))
    ensures FreshInv(fold, rows, before + [Delete(email)] + after, |before|, fold(email),
                     |Execute(fold, rows, before).replies|)
    decreases |after|
  {
    if after == [] {
      assert before + [Delete(email)] + after == before + [Delete(email)];
      Invalidated(fold, rows, before, email);
    } else {
      var most, e := after[..|after| - 1], after[|after| - 1];
      var since, key, from := |before|, fold(email), |Execute(fold, rows, before).replies|;
      FreshFromThen(fold, rows, before, email, most);
      var events := before + [Delete(email)] + most;
      EntrySinceStep(fold, rows, events, e, since, key, from);
      ThreadsSinceStep(fold, rows, events, e, since, key, from);
      RepliesSinceStep(fold, rows, events, e, since, key, from);
      assert before + [Delete(email)] + after == events + [e];
    }
  }

  /** After the invalidation, the `i`th reply of the run, if it is one under the key, is what the
      database has said since. */
  ghost predicate FreshReply(fold: string -> string, rows: Rows, before: seq<Event>, email: string,
                             after: seq<Event>, i: nat) {
    var events := before + [Delete(email)] + after;
    var s := Execute(fold, rows, events);
    |Execute(fold, rows, before).replies| <= i < |s.replies| && fold(s.replies[i].email) == fold(email) ==>
      SaidSince(fold, rows, events, |before|, s.replies[i].askedFor, AsIntended(s.replies[i].answer))
  }

  /** Freshness after an invalidation, exactly. Every later reply under the key, in every continuation of
      the run, is what the database says at or after the invalidation if and only if no lookup under the
      key holds an answer that the database does not give any more. */
  lemma InvalidationExact(fold: string -> string, rows: Rows, before: seq<Event>, email: string)
    requires email != ""
    ensures InStep(fold, Execute(fold, rows, before), fold(email))
       <==> forall after, i :: FreshReply(fold, rows, before, email, after, i)
  {
    var s := Execute(fold, rows, before);
    if InStep(fold, s, fold(email)) {
      forall after, i
        ensures FreshReply(fold, rows, before, email, after, i)
      {
        FreshFromThen(fold, rows, before, email, after);
      }
    } else {
      var t :| t in s.threads && s.threads[t].Fetched? && fold(s.threads[t].email) == fold(email)
               && s.threads[t].answer != Direct(s.rows, s.threads[t].email);
      StaleRefill(fold, rows, before, email, t);
    }
  }

  /** In particular it helps when nobody stands between a read and a store under the key. */
  lemma QuietInvalidation(fold: string -> string, rows: Rows, before: seq<Event>, email: string, after: seq<Event>,
                          i: nat)
    requires email != "" && NobodyFetched(fold, Execute(fold, rows, before), fold(email))
    ensures FreshReply(fold, rows, before, email, after, i)
  {
    InvalidationExact(fold, rows, before, email);
  }

  lemma {:induction false} ThreadsAsk(fold: string -> string, rows: Rows, events: seq<Event>, t: nat)
    requires t in Execute(fold, rows, events).threads
    ensures Execute(fold, rows, events).threads[t].email != ""
  {
    if events != [] {
      var s := Execute(fold, rows, events[..|events| - 1]);
      if t in s.threads { ThreadsAsk(fold, rows, events[..|events| - 1], t); }
    }
  }

  /** What the lookup `t` does next: it stores what it has read, and asks again. */
  function Refill(t: nat, email: string): seq<Event> {
    [Fill(t, true)] + [Get(t, email, true)]
  }

  lemma RefillRows(fold: string -> string, rows: Rows, before: seq<Event>, email: string, t: nat, asked: string, j: nat)
    requires |before| <= j <= |before| + 3
    ensures var events := before + [Delete(email)] + Refill(t, asked);
            Execute(fold, rows, events[..j]).rows == Execute(fold, rows, before).rows
  {
    var events := before + [Delete(email)] + Refill(t, asked);
    var steps := [Delete(email), Fill(t, true), Get(t, asked, true)];
    RowsKept(fold, rows, before, steps[..j - |before|]);
    assert events == before + steps;
    assert events[..j] == before + steps[..j - |before|];
  }

  /** The last of the replies is the answer that the lookup had read. */
  lemma RefillReply(fold: string -> string, rows: Rows, before: seq<Event>, email: string, t: nat)
    requires var s := Execute(fold, rows, before);
             && email != "" && t in s.threads && s.threads[t].Fetched? && fold(s.threads[t].email) == fold(email)
    ensures var s := Execute(fold, rows, before);
            var replies := Execute(fold, rows, before + [Delete(email)] + Refill(t, s.threads[t].email)).replies;
            && |replies| == |s.replies| + 2 && replies[|s.replies| + 1].email == replies[|s.replies| + 1].askedFor
            && replies[|s.replies| + 1].email == s.threads[t].email
            && AsIntended(replies[|s.replies| + 1].answer) == s.threads[t].answer
  {
    var s := Execute(fold, rows, before);
    var asked := s.threads[t].email;
    var deleted := before + [Delete(email)];
    Always(fold, rows, before);
    ThreadsAsk(fold, rows, before, t);
    assert FetchTrue(fold, rows, before, s.now, s.threads[t]);
    Extend(fold, rows, before, Delete(email));
    Extend(fold, rows, deleted, Fill(t, true));
    Extend(fold, rows, deleted + [Fill(t, true)], Get(t, asked, true));
    assert deleted + Refill(t, asked) == deleted + [Fill(t, true)] + [Get(t, asked, true)];
  }

  /** Otherwise it does not: such a lookup stores its old answer after the invalidation, and the next
      lookup is given it. */
  lemma StaleRefill(fold: string -> string, rows: Rows, before: seq<Event>, email: string, t: nat)
    requires var s := Execute(fold, rows, before);
             && email != "" && t in s.threads && s.threads[t].Fetched? && fold(s.threads[t].email) == fold(email)
             && s.threads[t].answer != Direct(s.rows, s.threads[t].email)
    ensures var s := Execute(fold, rows, before);
            !FreshReply(fold, rows, before, email, Refill(t, s.threads[t].email), |s.replies| + 1)
  {
    var asked := Execute(fold, rows, before).threads[t].email;
    RefillReply(fold, rows, before, email, t);
    forall j | |before| <= j <= |before| + 3
      ensures Execute(fold, rows, (before + [Delete(email)] + Refill(t, asked))[..j]).rows
           == Execute(fold, rows, before).rows
    {
      RefillRows(fold, rows, before, email, t, asked, j);
    }
  }
}
