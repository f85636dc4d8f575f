/** The gauge of requests in flight: raised under the request's path, lowered under the route template
    the request turned out to match. */
module InFlightGauge {
  import opened Wrappers

  datatype Label = Label(route: string, verb: string)

  /** How the rest of the stack ended: with a response, and perhaps a matched route, or by raising. */
  datatype Outcome = Responded(status: int, template: Option<string>) | Raised

  /** The label under which a request that began under `begun` is finished. */
  function FinishLabel(begun: Label, outcome: Outcome): Label {
    if outcome.Responded? && outcome.template.Some? && outcome.template.value != ""
    then begun.(route := outcome.template.value) else begun
  }

  function StatusOf(outcome: Outcome): int {
    if outcome.Responded? then outcome.status else 500
  }

  /** `gauge`, `totals` and `durations` (in milliseconds, by label and status) as exported; `inFlight` the
      label each unfinished request began under; `finished` the labels each finished request began and
      ended under. */
  datatype State = State(gauge: map<Label, int>, totals: map<(Label, int), nat>,
                         durations: map<(Label, int), seq<real>>, inFlight: map<nat, Label>,
                         finished: seq<(Label, Label)>)

  datatype Event = Begin(request: nat, series: Label) | End(request: nat, outcome: Outcome, durationMs: real)

  function Value(gauge: map<Label, int>, series: Label): int {
    if series in gauge then gauge[series] else 0
  }

  function Add(gauge: map<Label, int>, series: Label, amount: int): map<Label, int> {
    gauge[series := Value(gauge, series) + amount]
  }

  function Count(totals: map<(Label, int), nat>, key: (Label, int)): nat {
    if key in totals then totals[key] else 0
  }

  function Recorded(durations: map<(Label, int), seq<real>>, key: (Label, int)): seq<real> {
    if key in durations then durations[key] else []
  }

  function Do(s: State, e: Event): State {
    match e
    case Begin(r, series) =>
      if r in s.inFlight then s
      else s.(gauge := Add(s.gauge, series, 1), inFlight := s.inFlight[r := series])
    case End(r, outcome, durationMs) =>
      if r !in s.inFlight then s
      else
        var end := FinishLabel(s.inFlight[r], outcome);
        var key := (end, StatusOf(outcome));
        s.(gauge := Add(s.gauge, end, -1), totals := s.totals[key := Count(s.totals, key) + 1],
           durations := s.durations[key := Recorded(s.durations, key) + [durationMs]],
           inFlight := s.inFlight - {r}, finished := s.finished + [(s.inFlight[r], end)])
  }

  function Execute(events: seq<Event>): State {
    if events == [] then State(map[], map[], map[], map[], [])
    else Do(Execute(events[..|events| - 1]), events[|events| - 1])
  }

  // ---------------------------------------------------------------- the middleware as code

  class HttpMetrics {
    var initialised: bool
    var gauge: map<Label, int>
    var totals: map<(Label, int), nat>
    var durations: map<(Label, int), seq<real>>

    constructor ()
      ensures gauge == map[] && totals == map[] && durations == map[]
    {
      initialised, gauge, totals, durations := false, map[], map[], map[];
    }

    method Ensure()
      modifies this`initialised
    {
      if !initialised {
        initialised := true;
      }
    }

    method RequestStarted(series: Label)
      modifies this
      ensures gauge == Add(old(gauge), series, 1) && totals == old(totals) && durations == old(durations)
    {
      Ensure();
      var value := if series in gauge then gauge[series] else 0;
      gauge := gauge[series := value + 1];
    }

    method RequestFinished(series: Label)
      modifies this
      ensures gauge == Add(old(gauge), series, -1) && totals == old(totals) && durations == old(durations)
    {
      Ensure();
      var value := if series in gauge then gauge[series] else 0;
      gauge := gauge[series := value - 1];
    }

    method RecordRequest(series: Label, status: int, durationMs: real)
      modifies this
      ensures gauge == old(gauge)
      ensures totals == old(totals)[(series, status) := Count(old(totals), (series, status)) + 1]
      ensures durations == old(durations)[(series, status) := Recorded(old(durations), (series, status)) + [durationMs]]
    {
      Ensure();
      var value := if (series, status) in totals then totals[(series, status)] else 0;
      totals := totals[(series, status) := value + 1];
      var recorded := if (series, status) in durations then durations[(series, status)] else [];
      durations := durations[(series, status) := recorded + [durationMs]];
    }
  }

  class Middleware {
    const metrics: HttpMetrics
    var inFlight: map<nat, Label>
    ghost var finished: seq<(Label, Label)>

    ghost function Now(): State
      reads this, metrics
    {
      State(metrics.gauge, metrics.totals, metrics.durations, inFlight, finished)
    }

    constructor (metrics: HttpMetrics)
      ensures this.metrics == metrics && inFlight == map[] && finished == []
    {
      this.metrics, inFlight, finished := metrics, map[], [];
    }

    /** A request up to the point where the rest of the stack takes over. */
    method Enter(r: nat, path: string, verb: string)
      requires r !in inFlight
      modifies this, metrics
      ensures Now() == Do(old(Now()), Begin(r, Label(path, verb)))
    {
      metrics.RequestStarted(Label(path, verb));
      inFlight := inFlight[r := Label(path, verb)];
    }

    /** The rest of it, whichever way the stack ended. */
    method Leave(r: nat, outcome: Outcome, durationMs: real)
      requires r in inFlight
      modifies this, metrics
      ensures Now() == Do(old(Now()), End(r, outcome, durationMs))
    {
      var begun := inFlight[r];
      var route, status := begun.route, 500;
      match outcome {
        case Responded(code, template) =>
          status := code;
          if template.Some? && template.value != "" {
            route := template.value;
          }
        case Raised =>
      }
      metrics.RequestFinished(Label(route, begun.verb));
      metrics.RecordRequest(Label(route, begun.verb), status, durationMs);
      inFlight := inFlight - {r};
      finished := finished + [(begun, Label(route, begun.verb))];
    }
  }

  // ---------------------------------------------------------------- conservation

  /** The gauge summed over all its labels. */
  ghost function Sum(gauge: map<Label, int>): int {
    if gauge == map[] then 0
    else
      var series :| series in gauge;
      gauge[series] + Sum(gauge - {series})
  }

  lemma {:induction false} SumWithout(gauge: map<Label, int>, series: Label)
    requires series in gauge
    ensures Sum(gauge) == gauge[series] + Sum(gauge - {series})
  {
    var first :| first in gauge && Sum(gauge) == gauge[first] + Sum(gauge - {first});
    if first != series {
      SumWithout(gauge - {first}, series);
      SumWithout(gauge - {series}, first);
      assert gauge - {first} - {series} == gauge - {series} - {first};
    }
  }

  lemma SumAdded(gauge: map<Label, int>, series: Label, amount: int)
    ensures Sum(Add(gauge, series, amount)) == Sum(gauge) + amount
  {
    var added := Add(gauge, series, amount);
    SumWithout(added, series);
    if series in gauge {
      SumWithout(gauge, series);
      assert added - {series} == gauge - {series};
    } else {
      assert added - {series} == gauge;
    }
  }

  /** In every interleaving of requests, including those that raise, the gauge summed over all labels is
      the number of requests between their start and their finish. */
  lemma {:induction false} GaugeConserved(events: seq<Event>)
    ensures Sum(Execute(events).gauge) == |Execute(events).inFlight|
  {
    if events != [] {
      var s, e := Execute(events[..|events| - 1]), events[|events| - 1];
      GaugeConserved(events[..|events| - 1]);
      if e.Begin? && e.request !in s.inFlight {
        SumAdded(s.gauge, e.series, 1);
      } else if e.End? && e.request in s.inFlight {
        SumAdded(s.gauge, FinishLabel(s.inFlight[e.request], e.outcome), -1);
        assert s.inFlight == (s.inFlight - {e.request})[e.request := s.inFlight[e.request]];
      }
    }
  }

  /** Every finished request is counted once and measured once, under the same label and status. */
  lemma {:induction false} CountedAndMeasured(events: seq<Event>, key: (Label, int))
    ensures Count(Execute(events).totals, key) == |Recorded(Execute(events).durations, key)|
  {
    if events != [] {
      CountedAndMeasured(events[..|events| - 1], key);
    }
  }

  /** A request that began under `begun` is recorded under this label and status: its template if it
      matched one that is not empty, else the path it began with; its status, or 500 if it raised. */
  predicate RecordedUnder(begun: Label, outcome: Outcome, key: (Label, int)) {
    match outcome
    case Responded(status, template) =>
      && key.1 == status && key.0.verb == begun.verb
      && key.0.route == if template.Some? && template.value != "" then template.value else begun.route
    case Raised => key == (begun, 500)
  }

  /** How long the requests took that finished under this label and with this status, in the order in
      which they finished. */
  function Measured(events: seq<Event>, key: (Label, int)): seq<real> {
    if events == [] then []
    else
      var before, e := Execute(events[..|events| - 1]), events[|events| - 1];
      Measured(events[..|events| - 1], key)
      + if e.End? && e.request in before.inFlight && RecordedUnder(before.inFlight[e.request], e.outcome, key)
        then [e.durationMs] else []
  }

  lemma MeasuredAfter(s: State, e: Event, key: (Label, int))
    ensures var ends := e.End? && e.request in s.inFlight && RecordedUnder(s.inFlight[e.request], e.outcome, key);
            Recorded(Do(s, e).durations, key) == Recorded(s.durations, key) + if ends then [e.durationMs] else []
  {
    if e.End? && e.request in s.inFlight {
      var begun := s.inFlight[e.request];
      assert RecordedUnder(begun, e.outcome, (FinishLabel(begun, e.outcome), StatusOf(e.outcome)));
      assert RecordedUnder(begun, e.outcome, key) ==> key == (FinishLabel(begun, e.outcome), StatusOf(e.outcome));
    }
  }

  /** What is exported for each label and status is exactly the finished requests that belong under it,
      a request that raised under its path with status 500. */
  lemma {:induction false} MeasuredExact(events: seq<Event>, key: (Label, int))
    ensures Recorded(Execute(events).durations, key) == Measured(events, key)
    ensures Count(Execute(events).totals, key) == |Measured(events, key)|
  {
    CountedAndMeasured(events, key);
    if events != [] {
      MeasuredExact(events[..|events| - 1], key);
      MeasuredAfter(Execute(events[..|events| - 1]), events[|events| - 1], key);
    }
  }

  // ---------------------------------------------------------------- label by label

  function Begun(finished: seq<(Label, Label)>): multiset<Label> {
    if finished == [] then multiset{} else Begun(finished[..|finished| - 1]) + multiset{finished[|finished| - 1].0}
  }

  function Ended(finished: seq<(Label, Label)>): multiset<Label> {
    if finished == [] then multiset{} else Ended(finished[..|finished| - 1]) + multiset{finished[|finished| - 1].1}
  }

  function Under(inFlight: map<nat, Label>, series: Label): set<nat> {
    set r | r in inFlight && inFlight[r] == series
  }

  lemma Appended(finished: seq<(Label, Label)>, pair: (Label, Label), series: Label)
    ensures Begun(finished + [pair])[series] == Begun(finished)[series] + if pair.0 == series then 1 else 0
    ensures Ended(finished + [pair])[series] == Ended(finished)[series] + if pair.1 == series then 1 else 0
  {
    assert (finished + [pair])[..|finished|] == finished;
  }

  predicate Shows(s: State, series: Label) {
    Value(s.gauge, series) + Ended(s.finished)[series] == |Under(s.inFlight, series)| + Begun(s.finished)[series]
  }

  lemma ShowsAfterEnd(s: State, r: nat, outcome: Outcome, durationMs: real, series: Label)
    requires Shows(s, series) && r in s.inFlight
    ensures Shows(Do(s, End(r, outcome, durationMs)), series)
  {
    var t := Do(s, End(r, outcome, durationMs));
    var begun, end := s.inFlight[r], FinishLabel(s.inFlight[r], outcome);
    Appended(s.finished, (begun, end), series);
    LeftUnder(s.inFlight, r, series);
    assert t.finished == s.finished + [(begun, end)] && t.inFlight == s.inFlight - {r};
    assert Value(t.gauge, series) == Value(s.gauge, series) - if end == series then 1 else 0;
  }

  lemma ShowsAfter(s: State, e: Event, series: Label)
    requires Shows(s, series)
    ensures Shows(Do(s, e), series)
  {
    match e
    case Begin(r, began) =>
      if r !in s.inFlight {
        BeganUnder(s.inFlight, r, began, series);
      }
    case End(r, outcome, durationMs) =>
      if r in s.inFlight {
        ShowsAfterEnd(s, r, outcome, durationMs, series);
      }
  }

  /** Label by label, the gauge shows the requests in flight plus those that finished under another label
      than this one, less those that began under another and finished under this. */
  lemma GaugeOfLabel(events: seq<Event>, series: Label)
    ensures var s := Execute(events);
            Value(s.gauge, series)
            == |Under(s.inFlight, series)| + Begun(s.finished)[series] - Ended(s.finished)[series]
  {
    GaugeShows(events, series);
  }

  lemma {:induction false} GaugeShows(events: seq<Event>, series: Label)
    ensures Shows(Execute(events), series)
  {
    if events == [] {
      assert Under(map[], series) == {};
    } else {
      GaugeShows(events[..|events| - 1], series);
      ShowsAfter(Execute(events[..|events| - 1]), events[|events| - 1], series);
    }
  }

  lemma BeganUnder(inFlight: map<nat, Label>, r: nat, begun: Label, series: Label)
    requires r !in inFlight
    ensures |Under(inFlight[r := begun], series)| == |Under(inFlight, series)| + if begun == series then 1 else 0
  {
    assert Under(inFlight[r := begun], series)
        == if begun == series then Under(inFlight, series) + {r} else Under(inFlight, series);
  }

  lemma LeftUnder(inFlight: map<nat, Label>, r: nat, series: Label)
    requires r in inFlight
    ensures |Under(inFlight - {r}, series)| == |Under(inFlight, series)| - if inFlight[r] == series then 1 else 0
  {
    assert Under(inFlight - {r}, series) == Under(inFlight, series) - {r};
  }

  /** When nothing is in flight, every label is back at zero if and only if the requests finished under
      the labels they began under, counted as multisets. */
  lemma QuietGauge(events: seq<Event>)
    requires Execute(events).inFlight == map[]
    ensures (forall series :: Value(Execute(events).gauge, series) == 0)
       <==> Begun(Execute(events).finished) == Ended(Execute(events).finished)
  {
    var s := Execute(events);
    var begun, ended := Begun(s.finished), Ended(s.finished);
    forall series
      ensures Value(s.gauge, series) == 0 <==> begun[series] == ended[series]
    {
      GaugeOfLabel(events, series);
      assert Under(s.inFlight, series) == {};
    }
    if forall series :: Value(s.gauge, series) == 0 {
      forall series
        ensures begun[series] == ended[series]
      {
        assert Value(s.gauge, series) == 0;
      }
      assert begun == ended;
    }
  }

  lemma {:induction false} SameLabels(finished: seq<(Label, Label)>)
    requires forall i :: 0 <= i < |finished| ==> finished[i].0 == finished[i].1
    ensures Begun(finished) == Ended(finished)
  {
    if finished != [] {
      SameLabels(finished[..|finished| - 1]);
    }
  }

  /** When each request's matched template is its path, every label shows exactly its requests in flight. */
  lemma MatchingTemplates(events: seq<Event>, series: Label)
    requires var s := Execute(events);
             forall i :: 0 <= i < |s.finished| ==> s.finished[i].0 == s.finished[i].1
    ensures Value(Execute(events).gauge, series) == |Under(Execute(events).inFlight, series)|
  {
    GaugeOfLabel(events, series);
    SameLabels(Execute(events).finished);
  }

  /** One request to a path that is not its own template leaves the gauge at one and minus one for good. */
  lemma TemplateLeaks(r: nat, path: string, verb: string, template: string, durationMs: real)
    requires template != "" && template != path
    ensures var s := Execute([Begin(r, Label(path, verb)), End(r, Responded(200, Some(template)), durationMs)]);
            s.inFlight == map[] && Value(s.gauge, Label(path, verb)) == 1 && Value(s.gauge, Label(template, verb)) == -1
  {
    var first := Begin(r, Label(path, verb));
    var events := [first, End(r, Responded(200, Some(template)), durationMs)];
    assert events[..1] == [first] && [first][..0] == [];
    assert Execute([first]).inFlight == map[r := Label(path, verb)];
    assert map[r := Label(path, verb)] - {r} == map[];
  }
}
