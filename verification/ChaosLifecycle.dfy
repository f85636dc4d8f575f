/** The life of a chaos scenario: applied for a limited time, cleared, and read back by every replica
    through a JSON payload in a table that should hold one row. */
module ChaosLifecycle {
  import opened Wrappers

  // ---------------------------------------------------------------- the payload

  datatype Json =
    | Null
    | Bool(flag: bool)
    | Number(number: real)
    | Text(text: string)
    | List(items: seq<Json>)
    | Object(fields: map<string, Json>)

  /** How the language converts a value that is not of the expected type already, where it can. */
  datatype Conversions = Conversions(toText: Json -> string, toNumber: Json -> Option<real>,
                                     toTuple: Json -> Option<seq<Json>>, toDict: Json -> Option<map<string, Json>>)

  predicate IsFalsy(j: Json) {
    j.Null? || j == Bool(false) || j == Number(0.0) || j == Text("") || j == List([]) || j == Object(map[])
  }

  /** A scenario that has been applied. */
  datatype Scenario = Scenario(scenarioId: string, target: string, appliedBy: string, appliedAt: real, expiresAt: real,
                               faults: seq<Json>, traceId: Json, extra: map<string, Json>)

  function ToJson(s: Scenario): map<string, Json> {
    map[
      "scenario_id" := Text(s.scenarioId),
      "target" := Text(s.target),
      "applied_by" := Text(s.appliedBy),
      "applied_at" := Number(s.appliedAt),
      "expires_at" := Number(s.expiresAt),
      "faults" := List(s.faults),
      "trace_id" := s.traceId,
      "extra" := Object(s.extra)
    ]
  }

  function AsText(c: Conversions, j: Json): string {
    if j.Text? then j.text else c.toText(j)
  }

  function AsNumber(c: Conversions, j: Json): Option<real> {
    if j.Number? then Some(j.number) else c.toNumber(j)
  }

  function AsTuple(c: Conversions, j: Json): Option<seq<Json>> {
    if IsFalsy(j) then Some([]) else if j.List? then Some(j.items) else c.toTuple(j)
  }

  function AsDict(c: Conversions, j: Json): Option<map<string, Json>> {
    if IsFalsy(j) then Some(map[]) else if j.Object? then Some(j.fields) else c.toDict(j)
  }

  function GetOr(payload: map<string, Json>, key: string, default: Json): Json {
    if key in payload then payload[key] else default
  }

  /** None stands for the exception that a malformed payload raises. */
  function FromJson(c: Conversions, payload: map<string, Json>, now: real): Option<Scenario> {
    if "scenario_id" !in payload || "expires_at" !in payload then None
    else
      var appliedAt := AsNumber(c, GetOr(payload, "applied_at", Number(now)));
      var expiresAt := AsNumber(c, payload["expires_at"]);
      var faults := AsTuple(c, GetOr(payload, "faults", Null));
      var extra := AsDict(c, GetOr(payload, "extra", Null));
      if appliedAt.None? || expiresAt.None? || faults.None? || extra.None? then None
      else Some(Scenario(AsText(c, payload["scenario_id"]), AsText(c, GetOr(payload, "target", Text("both"))),
                         AsText(c, GetOr(payload, "applied_by", Text("unknown"))), appliedAt.value, expiresAt.value,
                         faults.value, GetOr(payload, "trace_id", Null), extra.value))
  }

  /** Every scenario survives the round trip through its payload, field for field. */
  lemma PayloadRoundTrip(c: Conversions, s: Scenario, now: real)
    ensures FromJson(c, ToJson(s), now) == Some(s)
  {
    var payload := ToJson(s);
    assert payload["scenario_id"] == Text(s.scenarioId) && payload["target"] == Text(s.target);
    assert payload["applied_by"] == Text(s.appliedBy) && payload["applied_at"] == Number(s.appliedAt);
    assert payload["expires_at"] == Number(s.expiresAt) && payload["trace_id"] == s.traceId;
    assert payload["faults"] == List(s.faults) && payload["extra"] == Object(s.extra);
  }

  /** What a payload is read as, field by field: the expected kind of value as it is, the defaults for
      what is missing. A payload without an identifier or an expiry is malformed. */
  lemma PayloadRead(c: Conversions, payload: map<string, Json>, now: real)
    ensures "scenario_id" !in payload || "expires_at" !in payload ==> FromJson(c, payload, now).None?
    ensures "scenario_id" in payload && "expires_at" in payload && payload["expires_at"].Number?
            && ("applied_at" in payload ==> payload["applied_at"].Number?)
            && ("faults" in payload ==> payload["faults"].List?)
            && ("extra" in payload ==> payload["extra"].Object?) ==>
              FromJson(c, payload, now).Some? && ReadAs(c, payload, now, FromJson(c, payload, now).value)
  {
  }

  predicate ReadAs(c: Conversions, payload: map<string, Json>, now: real, s: Scenario)
    requires "scenario_id" in payload && "expires_at" in payload
  {
    && TextField(c, payload, "scenario_id", "", s.scenarioId) && TextField(c, payload, "target", "both", s.target)
    && TextField(c, payload, "applied_by", "unknown", s.appliedBy)
    && (if "applied_at" in payload then payload["applied_at"] == Number(s.appliedAt) else s.appliedAt == now)
    && payload["expires_at"] == Number(s.expiresAt)
    && (if "faults" in payload then payload["faults"] == List(s.faults) else s.faults == [])
    && (if "trace_id" in payload then s.traceId == payload["trace_id"] else s.traceId == Null)
    && (if "extra" in payload then payload["extra"] == Object(s.extra) else s.extra == map[])
  }

  /** Text is taken as it is, anything else is converted. */
  predicate TextField(c: Conversions, payload: map<string, Json>, key: string, default: string, value: string) {
    if key !in payload then value == default
    else if payload[key].Text? then payload[key].text == value
    else value == c.toText(payload[key])
  }

  // ---------------------------------------------------------------- the table

  datatype Row = Row(id: nat, scenarioId: string, target: string, appliedBy: string, appliedAt: real, expiresAt: real,
                     payload: map<string, Json>)

  function RowOf(id: nat, s: Scenario): Row {
    Row(id, s.scenarioId, s.target, s.appliedBy, s.appliedAt, s.expiresAt, ToJson(s))
  }

  /** The row the reader's query finds: of those not expired, the one applied last. */
  function Latest(rows: seq<Row>, now: real): (r: Option<Row>)
    ensures r.None? <==> forall row :: row in rows ==> row.expiresAt <= now
    ensures r.Some? ==> r.value in rows && r.value.expiresAt > now
    ensures r.Some? ==> forall row :: row in rows && row.expiresAt > now ==> row.appliedAt <= r.value.appliedAt
  {
    if rows == [] then None
    else
      var best, last := Latest(rows[..|rows| - 1], now), rows[|rows| - 1];
      assert rows == rows[..|rows| - 1] + [last];
      if last.expiresAt > now && (best.None? || last.appliedAt > best.value.appliedAt) then Some(last) else best
  }

  /** The reader: the query at `asked`, and the expiry checked again at `checked`. */
  function Active(c: Conversions, rows: seq<Row>, enabled: bool, usesDatabase: bool, asked: real,
                  checked: real): Option<Scenario> {
    if !enabled || !usesDatabase then None
    else
      match Latest(rows, asked)
      case None => None
      case Some(row) =>
        match FromJson(c, row.payload, asked)
        case None => None
        case Some(s) => if checked >= s.expiresAt then None else Some(s)
  }

  // ---------------------------------------------------------------- the administrator's requests

  /** The faults of each preset. */
  const PRESETS := map[
    "db-slow-checkout" := ["db.slow", "workflow:checkout"],
    "crm-sync-fail" := ["http.502", "path:/api/crm/sync"],
    "payment-timeout" := ["http.timeout", "path:/api/payments"],
    "deadlock-cart" := ["db.deadlock", "workflow:add-to-cart"],
    "pool-exhaustion" := ["db.pool_hold"],
    "crm-admin-abuse" := ["http.burst", "path:/api/admin"]
  ]

  const MIN_TTL_SECONDS := 10

  /** The request; `target` is stripped and in lower case already. */
  datatype Request = Request(scenarioId: string, target: string, ttl: int, note: Option<string>)

  datatype Reply = Applied(state: Scenario) | UnprocessableEntity | NotFound | Failed

  predicate WithinBounds(maxTtl: int, r: Request) {
    && 1 <= |r.scenarioId| <= 64 && r.target in ["shop", "crm", "both"]
    && MIN_TTL_SECONDS <= r.ttl <= maxTtl && (r.note.Some? ==> |r.note.value| <= 512)
  }

  function Texts(items: seq<string>): (r: seq<Json>)
    ensures |r| == |items| && forall i :: 0 <= i < |items| ==> r[i] == Text(items[i])
  {
    if items == [] then [] else [Text(items[0])] + Texts(items[1..])
  }

  function ScenarioOf(maxTtl: int, r: Request, actor: string, requestId: Json, now: real): Scenario
    requires r.scenarioId in PRESETS
  {
    var ttl := if r.ttl < maxTtl then r.ttl else maxTtl;
    var extra := if r.note.Some? && r.note.value != "" then map["note" := Text(r.note.value)] else map[];
    Scenario(r.scenarioId, r.target, actor, now, now + ttl as real, Texts(PRESETS[r.scenarioId]), requestId, extra)
  }

  /** The faults that a preset injects, in order. */
  predicate Injects(scenarioId: string, faults: seq<Json>) {
    if scenarioId == "db-slow-checkout" then faults == [Text("db.slow"), Text("workflow:checkout")]
    else if scenarioId == "crm-sync-fail" then faults == [Text("http.502"), Text("path:/api/crm/sync")]
    else if scenarioId == "payment-timeout" then faults == [Text("http.timeout"), Text("path:/api/payments")]
    else if scenarioId == "deadlock-cart" then faults == [Text("db.deadlock"), Text("workflow:add-to-cart")]
    else if scenarioId == "pool-exhaustion" then faults == [Text("db.pool_hold")]
    else scenarioId == "crm-admin-abuse" && faults == [Text("http.burst"), Text("path:/api/admin")]
  }

  /** What a request applies, field by field: its preset for its target until its time to live is over,
      with its note if that says anything. */
  predicate StateFor(s: Scenario, r: Request, actor: string, requestId: Json, now: real) {
    && s.scenarioId == r.scenarioId && s.target == r.target && s.appliedBy == actor && s.traceId == requestId
    && s.appliedAt == now && s.expiresAt == now + r.ttl as real && Injects(r.scenarioId, s.faults)
    && (if r.note.Some? && r.note.value != "" then s.extra.Keys == {"note"} && s.extra["note"] == Text(r.note.value)
        else s.extra == map[])
  }

  lemma {:induction false} PresetsExact(scenarioId: string)
    ensures scenarioId in PRESETS
       <==> scenarioId in {"db-slow-checkout", "crm-sync-fail", "payment-timeout", "deadlock-cart",
                           "pool-exhaustion", "crm-admin-abuse"}
    ensures scenarioId in PRESETS ==> Injects(scenarioId, Texts(PRESETS[scenarioId]))
  {
    if scenarioId in PRESETS {
      var faults := Texts(PRESETS[scenarioId]);
      if scenarioId == "pool-exhaustion" {
        assert faults == [Text("db.pool_hold")];
      } else {
        assert faults == [Text(PRESETS[scenarioId][0]), Text(PRESETS[scenarioId][1])];
      }
    }
  }

  lemma ScenarioOfRequest(maxTtl: int, r: Request, actor: string, requestId: Json, now: real)
    requires r.scenarioId in PRESETS && r.ttl <= maxTtl
    ensures StateFor(ScenarioOf(maxTtl, r, actor, requestId, now), r, actor, requestId, now)
  {
    PresetsExact(r.scenarioId);
  }

  /** A request that may have reached the database: `works` says whether its transaction committed. */
  datatype Action = Apply(id: nat, state: Scenario, works: bool) | Clear(works: bool)

  function Perform(rows: seq<Row>, a: Action): seq<Row> {
    if !a.works then rows
    else if a.Apply? then [RowOf(a.id, a.state)]
    else []
  }

  class ChaosAdmin {
    const maxTtl: int
    var rows: seq<Row>

    constructor (maxTtl: int)
      ensures this.maxTtl == maxTtl && rows == []
    {
      this.maxTtl, rows := maxTtl, [];
    }

    /** Delete and insert in one transaction; nothing changes unless the database works. */
    method Persist(s: Scenario, id: nat, works: bool) returns (ok: bool)
      modifies this
      ensures ok == works && rows == Perform(old(rows), Apply(id, s, works))
    {
      if !works { return false; }
      rows := [];
      rows := rows + [RowOf(id, s)];
      ok := true;
    }

    /** An apply is refused, with nothing changed, or replaces whatever was applied before by the scenario
        of the request. */
    method ApplyScenario(r: Request, actor: string, requestId: Json, now: real, id: nat, works: bool)
      returns (reply: Reply)
      modifies this
      ensures reply.UnprocessableEntity?
         <==> !(1 <= |r.scenarioId| <= 64 && r.target in {"shop", "crm", "both"} && 10 <= r.ttl <= maxTtl
                && (r.note.Some? ==> |r.note.value| <= 512))
      ensures reply.NotFound?
         <==> !reply.UnprocessableEntity?
              && r.scenarioId !in {"db-slow-checkout", "crm-sync-fail", "payment-timeout", "deadlock-cart",
                                   "pool-exhaustion", "crm-admin-abuse"}
      ensures reply.Failed? ==> !works
      ensures reply.Applied? ==> works && StateFor(reply.state, r, actor, requestId, now)
      ensures reply.Applied? ==>
                && rows == Perform(old(rows), Apply(id, reply.state, true)) && |rows| == 1
                && rows[0] == Row(id, r.scenarioId, r.target, actor, now, now + r.ttl as real, rows[0].payload)
      ensures !reply.Applied? ==> rows == old(rows)
    {
      PresetsExact(r.scenarioId);
      if !WithinBounds(maxTtl, r) { return UnprocessableEntity; }
      if r.scenarioId !in PRESETS { return NotFound; }
      var s := ScenarioOf(maxTtl, r, actor, requestId, now);
      ScenarioOfRequest(maxTtl, r, actor, requestId, now);
      var ok := Persist(s, id, works);
      if !ok { return Failed; }
      reply := Applied(s);
    }

    /** A clear answers "ok" also when it has failed and nothing is cleared. */
    method ClearScenario(works: bool) returns (ok: bool)
      modifies this
      ensures ok && rows == Perform(old(rows), Clear(works))
    {
      if works {
        rows := [];
      }
      ok := true;
    }

    method GetActiveState(c: Conversions, enabled: bool, usesDatabase: bool, asked: real, checked: real)
      returns (active: Option<Scenario>)
      ensures active == Active(c, rows, enabled, usesDatabase, asked, checked)
    {
      if !enabled { return None; }
      var state: Option<Scenario> := None;
      if usesDatabase {
        var row := Latest(rows, asked);
        if row.Some? {
          state := FromJson(c, row.value.payload, asked);
        }
      }
      if state.Some? && checked >= state.value.expiresAt { return None; }
      active := state;
    }
  }

  // ---------------------------------------------------------------- histories

  function Table(history: seq<Action>): seq<Row> {
    if history == [] then [] else Perform(Table(history[..|history| - 1]), history[|history| - 1])
  }

  /** `history[i]` is an apply that succeeded, and nothing after it succeeded. */
  predicate LastApplied(history: seq<Action>, i: nat) {
    && i < |history| && history[i].Apply? && history[i].works
    && forall j :: i < j < |history| ==> !history[j].works
  }

  lemma {:induction false} TableIsLastApplied(history: seq<Action>)
    ensures |Table(history)| <= 1
    ensures forall i :: 0 <= i < |history| && LastApplied(history, i) ==>
              Table(history) == [RowOf(history[i].id, history[i].state)]
    ensures Table(history) != [] ==> exists i :: 0 <= i < |history| && LastApplied(history, i)
  {
    if history != [] {
      var before, a := history[..|history| - 1], history[|history| - 1];
      TableIsLastApplied(before);
      if a.works && a.Apply? {
        assert LastApplied(history, |history| - 1);
      } else if Table(before) != [] && !a.works {
        var i :| 0 <= i < |before| && LastApplied(before, i);
        assert LastApplied(history, i);
      }
      forall i | 0 <= i < |history| && LastApplied(history, i)
        ensures Table(history) == [RowOf(history[i].id, history[i].state)]
      {
        if i < |before| {
          assert !history[|history| - 1].works;
          assert forall j :: i < j < |before| ==> before[j] == history[j];
          assert LastApplied(before, i);
        }
      }
    }
  }

  /** After every history of applies and clears there is at most one row, and the reader gives the last
      scenario applied, field for field, exactly when it is switched on, no clear has succeeded since and
      the scenario has not expired at either look at the clock. */
  lemma ActiveIffLastApplied(c: Conversions, history: seq<Action>, enabled: bool, usesDatabase: bool,
                             asked: real, checked: real, s: Scenario)
    requires asked <= checked
    ensures |Table(history)| <= 1
    ensures Active(c, Table(history), enabled, usesDatabase, asked, checked) == Some(s)
       <==> && enabled && usesDatabase && checked < s.expiresAt
            && exists i :: 0 <= i < |history| && LastApplied(history, i) && history[i].state == s
  {
    TableIsLastApplied(history);
    PayloadRoundTrip(c, s, asked);
    if Table(history) == [] || !enabled || !usesDatabase {
      assert Active(c, Table(history), enabled, usesDatabase, asked, checked) == None;
    } else {
      var i :| 0 <= i < |history| && LastApplied(history, i);
      var t := history[i].state;
      PayloadRoundTrip(c, t, asked);
      assert Table(history) == [RowOf(history[i].id, t)];
      assert Active(c, Table(history), true, true, asked, checked)
          == if checked < t.expiresAt then Some(t) else None by {
        OneRow(RowOf(history[i].id, t), asked);
      }
    }
  }

  /** From the request to the reader: while nothing has replaced or cleared it, a scenario that a request
      applied is read by every replica until its time to live is over, and not longer; and what is read
      injects the faults of the preset that was asked for. */
  lemma AppliedIsActive(c: Conversions, history: seq<Action>, i: nat, r: Request, actor: string, requestId: Json,
                        now: real, asked: real, checked: real)
    requires asked <= checked && LastApplied(history, i)
    requires StateFor(history[i].state, r, actor, requestId, now)
    ensures var active := Active(c, Table(history), true, true, asked, checked);
            if checked < now + r.ttl as real
            then active.Some? && StateFor(active.value, r, actor, requestId, now)
                 && Injects(r.scenarioId, active.value.faults)
            else active.None?
  {
    var active := Active(c, Table(history), true, true, asked, checked);
    ActiveIffLastApplied(c, history, true, true, asked, checked, history[i].state);
    if active.Some? {
      ActiveIffLastApplied(c, history, true, true, asked, checked, active.value);
    }
  }

  lemma OneRow(row: Row, now: real)
    ensures Latest([row], now) == if row.expiresAt > now then Some(row) else None
  {
    assert row in [row];
  }

  /** The scenarios of a history come from requests within their bounds. */
  ghost predicate FromRequests(maxTtl: int, history: seq<Action>) {
    forall i :: 0 <= i < |history| && history[i].Apply? ==> Requested(maxTtl, history[i].state)
  }

  ghost predicate Requested(maxTtl: int, s: Scenario) {
    exists r: Request :: r.ttl <= maxTtl && StateFor(s, r, s.appliedBy, s.traceId, s.appliedAt)
  }

  /** Nothing is active any more when the longest time to live has passed since it was applied. */
  lemma NothingOutlivesMaximum(c: Conversions, maxTtl: int, history: seq<Action>, asked: real, checked: real,
                               enabled: bool)
    requires FromRequests(maxTtl, history) && asked <= checked
    ensures var active := Active(c, Table(history), enabled, true, asked, checked);
            active.Some? ==> checked < active.value.appliedAt + maxTtl as real
  {
    var active := Active(c, Table(history), enabled, true, asked, checked);
    if active.Some? {
      ActiveIffLastApplied(c, history, enabled, true, asked, checked, active.value);
      var i :| 0 <= i < |history| && LastApplied(history, i) && history[i].state == active.value;
      assert Requested(maxTtl, history[i].state);
    }
  }
}
