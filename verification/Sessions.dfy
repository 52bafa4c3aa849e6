// Remote sessions in both stores: the handlers that create them and change their status, and the timeline every
// session keeps over whole runs.
module Sessions {
  import opened Common
  import opened Records

  datatype Session = Session(
    id: Uuid,
    org: Uuid,
    device: Uuid,
    operator: Uuid,
    status: string,
    startedAt: Option<Time>,
    endedAt: Option<Time>,
    reason: Option<string>,
    createdAt: Time)

  type Table = map<Uuid, Session>

  predicate Terminal(status: string) {
    status == "TERMINATED" || status == "REJECTED"
  }

  // The effect of a status update on a row, stamped `at`; only MemoryStore keeps the reason of a status that is not
  // terminal.
  function Updated(kind: StoreKind, s: Session, status: string, reason: Option<string>, at: Time): Session {
    s.(status := status,
       startedAt := if status == "CONNECTED" && s.startedAt.None? then Some(at) else s.startedAt,
       endedAt := if Terminal(status) then Some(at) else s.endedAt,
       reason := if kind == InPostgres || Terminal(status) then reason else s.reason)
  }

  // MemoryStore looks at the id alone.
  predicate Finds(kind: StoreKind, table: Table, org: Uuid, id: Uuid) {
    id in table && (kind == InPostgres ==> table[id].org == org)
  }

  function Update(kind: StoreKind, table: Table, org: Uuid, id: Uuid, status: string, reason: Option<string>,
                  at: Time): Table
  {
    if Finds(kind, table, org, id) then table[id := Updated(kind, table[id], status, reason, at)] else table
  }

  // The request overrides the organization's setting, which overrides the default.
  function NeedsConsent(setting: Option<bool>, request: Option<bool>): bool {
    if request.Some? then request.value else if setting.Some? then setting.value else true
  }

  function ConsentStatus(decision: string): string {
    if decision == "DENIED" then "REJECTED" else "CONNECTED"
  }

  // The ids of the sessions of an organization.
  function IdsOf(table: Table, org: Uuid): set<Uuid> {
    set id | id in table && table[id].org == org
  }

  // Every row is stored under its own id.
  ghost predicate Keyed(table: Table) {
    forall id :: id in table ==> table[id].id == id
  }

  ghost predicate NewestFirst(rows: seq<Session>) {
    forall i, j :: 0 <= i < j < |rows| ==> rows[i].createdAt >= rows[j].createdAt
  }

  // The row to be read next: in Postgres the newest, in memory any.
  lemma {:induction false} NextRow(kind: StoreKind, table: Table, todo: set<Uuid>) returns (id: Uuid)
    requires todo != {} && todo <= table.Keys
    ensures id in todo && (kind == InPostgres ==> forall x :: x in todo ==> table[x].createdAt <= table[id].createdAt)
  {
    id :| id in todo;
    if todo != {id} {
      var other := NextRow(kind, table, todo - {id});
      if table[other].createdAt > table[id].createdAt { id := other; }
      assert todo == todo - {id} + {id};
    }
  }

  // The row after a status has been set at an instant: CONNECTED starts a session that has not been started, TERMINATED
  // and REJECTED end it; the reason is stored with these two and, in Postgres, always. Nothing else changes.
  ghost predicate Moved(kind: StoreKind, was: Session, row: Session, status: string, reason: Option<string>, at: Time) {
    && row.status == status
    && row.startedAt == (if status == "CONNECTED" && was.startedAt.None? then Some(at) else was.startedAt)
    && row.endedAt == (if status == "TERMINATED" || status == "REJECTED" then Some(at) else was.endedAt)
    && row.reason == (if kind == InPostgres || status == "TERMINATED" || status == "REJECTED" then reason
                      else was.reason)
    && row.id == was.id && row.org == was.org && row.device == was.device && row.operator == was.operator
    && row.createdAt == was.createdAt
  }

  datatype CreateError = DeviceNotFound | DeviceNotActive | NotStored

  // The sessions of either store, with the tables they refer to.
  class SessionStore {
    const kind: StoreKind
    const orgs: set<Uuid>
    const users: set<Uuid>
    var devices: Devices
    var table: Table

    constructor (kind: StoreKind, orgs: set<Uuid>, users: set<Uuid>)
      ensures this.kind == kind && this.orgs == orgs && this.users == users && devices == map[] && table == map[]
    {
      this.kind, this.orgs, this.users := kind, orgs, users;
      devices, table := map[], map[];
    }

    // Postgres refuses a row whose id is taken or whose organization, device or operator is missing.
    predicate CanInsert(s: Session)
      reads this
    {
      kind == InPostgres ==> s.id !in table && s.org in orgs && s.device in devices && s.operator in users
    }

    method CreateRemoteSession(s: Session) returns (ok: bool)
      modifies this`table
      ensures ok <==> old(CanInsert(s))
      ensures ok <==> (kind == InPostgres ==>
                         s.id !in old(table) && s.org in orgs && s.device in devices && s.operator in users)
      ensures table == if ok then old(table)[s.id := s] else old(table)
    {
      ok := CanInsert(s);
      if ok {
        table := table[s.id := s];
      }
    }

    method UpdateRemoteSessionStatus(org: Uuid, id: Uuid, status: string, reason: Option<string>, at: Time)
      returns (ok: bool)
      modifies this`table
      ensures table == Update(kind, old(table), org, id, status, reason, at)
      ensures ok <==> id in old(table) && (kind == InPostgres ==> old(table)[id].org == org)
      ensures table.Keys == old(table).Keys && forall x :: x in table && (x != id || !ok) ==> table[x] == old(table)[x]
      ensures ok ==> Moved(kind, old(table)[id], table[id], status, reason, at)
    {
      if id !in table || (kind == InPostgres && table[id].org != org) {
        return false;
      }
      var s := table[id].(status := status);
      if status == "CONNECTED" && s.startedAt.None? {
        s := s.(startedAt := Some(at));
      }
      if status == "TERMINATED" || status == "REJECTED" {
        s := s.(endedAt := Some(at), reason := reason);
      }
      if kind == InPostgres {
        s := s.(reason := reason);
      }
      table := table[id := s];
      return true;
    }

    // Each session of the organization once; from Postgres the newest first.
    method ListRemoteSessions(org: Uuid) returns (result: seq<Session>, ghost ids: seq<Uuid>)
      ensures |result| == |ids| == |set id | id in table && table[id].org == org|
      ensures forall i :: 0 <= i < |ids| ==>
                ids[i] in table && table[ids[i]].org == org && result[i] == table[ids[i]]
      ensures forall i, j :: 0 <= i < j < |ids| ==> ids[i] != ids[j]
      ensures kind == InPostgres ==> NewestFirst(result)
    {
      result, ids := [], [];
      var todo := set id | id in table && table[id].org == org;
      while todo != {}
        invariant todo <= IdsOf(table, org) && |result| == |ids| && |ids| + |todo| == |IdsOf(table, org)|
        invariant forall i :: 0 <= i < |ids| ==>
                    ids[i] in IdsOf(table, org) && ids[i] !in todo && result[i] == table[ids[i]]
        invariant forall i, j :: 0 <= i < j < |ids| ==> ids[i] != ids[j]
        invariant kind == InPostgres ==> NewestFirst(result)
        invariant kind == InPostgres ==>
                    forall i, x :: 0 <= i < |result| && x in todo ==> result[i].createdAt >= table[x].createdAt
        decreases todo
      {
        ghost var next := NextRow(kind, table, todo);
        var id :| id in todo
                  && (kind == InPostgres ==> forall x :: x in todo ==> table[x].createdAt <= table[id].createdAt);
        result := result + [table[id]];
        ids := ids + [id];
        todo := todo - {id};
      }
      assert IdsOf(table, org) == set id | id in table && table[id].org == org;
    }

    // GetDevice, the status of the device, the branches on consent, the insertion. In Postgres the row is stamped
    // `created` by the database.
    method CreateSession(id: Uuid, org: Uuid, device: Uuid, operator: Uuid,
                         setting: Option<bool>, request: Option<bool>, now: Time, created: Time)
      returns (r: Result<Session, CreateError>)
      modifies this`table
      ensures r == Err(DeviceNotFound) <==> !(device in devices && devices[device].org == org)
      ensures r == Err(DeviceNotActive) <==>
              device in devices && devices[device].org == org && devices[device].status != ACTIVE
      ensures r.Ok? ==> r.value == Opened(id, org, device, operator, setting, request, now, created)
      ensures r.Ok? ==> old(CanInsert(r.value)) && table == old(table)[id := r.value]
      ensures r.Ok? ==>
                var ask := if request.Some? then request.value else if setting.Some? then setting.value else true;
                r.value == Session(id, org, device, operator, if ask then "REQUESTED" else "CONNECTED",
                                   if ask then None else Some(now), None, None, created)
      ensures r.Err? ==> table == old(table)
      ensures r == Err(NotStored) ==> !CanInsert(Opened(id, org, device, operator, setting, request, now, created))
    {
      if device !in devices || devices[device].org != org {
        return Err(DeviceNotFound);
      }
      if devices[device].status != ACTIVE {
        return Err(DeviceNotActive);
      }
      var requireConsent := true;
      if setting.Some? {
        requireConsent := setting.value;
      }
      if request.Some? {
        requireConsent := request.value;
      }
      var status := "REQUESTED";
      var startedAt := None;
      if !requireConsent {
        status := "CONNECTED";
        startedAt := Some(now);
      }
      var session := Session(id, org, device, operator, status, startedAt, None, None, created);
      var ok := CreateRemoteSession(session);
      if !ok {
        return Err(NotStored);
      }
      return Ok(session);
    }

    // The handler passes the nil organization, and on an error looks for the session among those of that
    // organization. The answer reports the new status whatever happened.
    method HandleConsent(id: Uuid, decision: string, reason: string, at: Time) returns (status: string)
      modifies this`table
      ensures status == if decision == "DENIED" then "REJECTED" else "CONNECTED"
      ensures table == Consent(kind, old(table), id, decision, reason, at)
      ensures table.Keys == old(table).Keys
      ensures forall x :: x in table ==>
                if x == id && (kind == InMemory || old(table)[id].org == NIL)
                then Moved(kind, old(table)[x], table[x], status, Some(reason), at) else table[x] == old(table)[x]
    {
      status := "CONNECTED";
      if decision == "DENIED" {
        status := "REJECTED";
      }
      var ok := UpdateRemoteSessionStatus(NIL, id, status, Some(reason), at);
      if !ok {
        var all, ids := ListRemoteSessions(NIL);
        var i := 0;
        while i < |all|
          invariant 0 <= i <= |all|
          invariant table == old(table) && forall j :: 0 <= j < |all| ==> all[j].org == NIL
        {
          if all[i].id == id {
            ok := UpdateRemoteSessionStatus(all[i].org, id, status, Some(reason), at);
            break;
          }
          i := i + 1;
        }
      }
    }

    method TerminateSession(org: Uuid, id: Uuid, reason: string, at: Time)
      modifies this`table
      ensures table == Update(kind, old(table), org, id, "TERMINATED",
                              Some(if reason == "" then "operator_disconnected" else reason), at)
      ensures table.Keys == old(table).Keys
      ensures forall x :: x in table ==>
                if x == id && (kind == InPostgres ==> old(table)[id].org == org)
                then Moved(kind, old(table)[x], table[x], "TERMINATED",
                           Some(if reason == "" then "operator_disconnected" else reason), at)
                else table[x] == old(table)[x]
    {
      var given := reason;
      if given == "" {
        given := "operator_disconnected";
      }
      var _ := UpdateRemoteSessionStatus(org, id, "TERMINATED", Some(given), at);
    }
  }

  function Opened(id: Uuid, org: Uuid, device: Uuid, operator: Uuid,
                  setting: Option<bool>, request: Option<bool>, at: Time, created: Time): Session
  {
    if NeedsConsent(setting, request)
    then Session(id, org, device, operator, "REQUESTED", None, None, None, created)
    else Session(id, org, device, operator, "CONNECTED", Some(at), None, None, created)
  }

  // What a consent decision does: the update with the nil organization. The search after a failure is for sessions
  // of that same organization, so the second update fails as the first did.
  function Consent(kind: StoreKind, table: Table, id: Uuid, decision: string, reason: string, at: Time): Table {
    Update(kind, table, NIL, id, ConsentStatus(decision), Some(reason), at)
  }

  // ---- Runs ----

  // `clock` is the store's and never goes back; `orgs` are the organizations of the database.
  datatype State = State(kind: StoreKind, orgs: set<Uuid>, table: Table, clock: Time)

  // `at` is the stamp a step leaves. In memory CreateSession reads the clock before it stores the session, and an
  // update reads it under the lock. In Postgres the start of a session comes from another host's clock, and an update
  // is stamped with the start of its transaction, which may be some time before it gets hold of the row.
  datatype Step =
    | Tick(now: Time)
    | Create(s: Session, at: Time)
    | SetStatus(org: Uuid, id: Uuid, status: string, reason: Option<string>, at: Time)

  // A session as CreateSession makes it.
  predicate IsOpened(s: Session, at: Time) {
    && s.endedAt.None? && s.reason.None?
    && ((s.status == "REQUESTED" && s.startedAt.None?) || (s.status == "CONNECTED" && s.startedAt == Some(at)))
  }

  lemma OpenedIsOpened(id: Uuid, org: Uuid, device: Uuid, operator: Uuid,
                       setting: Option<bool>, request: Option<bool>, at: Time, created: Time)
    ensures IsOpened(Opened(id, org, device, operator, setting, request, at, created), at)
  {
  }

  predicate Enabled(s: State, e: Step) {
    match e
    case Tick(now) => s.clock <= now
    case Create(session, at) =>
      session.id !in s.table && IsOpened(session, at) && (s.kind == InMemory ==> at <= s.clock)
    case SetStatus(_, _, _, _, at) => if s.kind == InMemory then at == s.clock else at <= s.clock
  }

  function Apply(s: State, e: Step): State
    requires Enabled(s, e)
  {
    match e
    case Tick(now) => s.(clock := now)
    case Create(session, _) =>
      if s.kind == InPostgres && session.org !in s.orgs then s else s.(table := s.table[session.id := session])
    case SetStatus(org, id, status, reason, at) => s.(table := Update(s.kind, s.table, org, id, status, reason, at))
  }

  ghost predicate Run(states: seq<State>, steps: seq<Step>) {
    && |states| == |steps| + 1 && states[0].table == map[]
    && (forall i :: 0 <= i < |steps| ==> StepAt(states, steps, i))
  }

  ghost predicate StepAt(states: seq<State>, steps: seq<Step>, i: nat)
    requires i < |steps| && |states| == |steps| + 1
  {
    Enabled(states[i], steps[i]) && states[i + 1] == Apply(states[i], steps[i])
  }

  // A connected session has a start, a rejected or terminated one an end.
  predicate Timeline(s: Session) {
    (s.status == "CONNECTED" ==> s.startedAt.Some?) && (Terminal(s.status) ==> s.endedAt.Some?)
  }

  // The end of a rejected or terminated session is not before its start.
  predicate Ordered(s: Session) {
    Terminal(s.status) && s.startedAt.Some? && s.endedAt.Some? ==> s.startedAt.value <= s.endedAt.value
  }

  ghost predicate AllOrdered(s: State) {
    forall id :: id in s.table ==> Ordered(s.table[id])
  }

  predicate Stamped(s: Session, clock: Time) {
    (s.startedAt.Some? ==> s.startedAt.value <= clock) && (s.endedAt.Some? ==> s.endedAt.value <= clock)
  }

  // After an update the order holds exactly when a terminal update is not stamped before the start it finds.
  lemma UpdateOrdered(kind: StoreKind, s: Session, status: string, reason: Option<string>, at: Time)
    ensures Ordered(Updated(kind, s, status, reason, at)) <==>
            (Terminal(status) && s.startedAt.Some? ==> s.startedAt.value <= at)
  {
  }

  ghost predicate Inv(s: State) {
    && Keyed(s.table)
    && (forall id :: id in s.table ==> Timeline(s.table[id]))
    && (s.kind == InMemory ==> AllOrdered(s) && forall id :: id in s.table ==> Stamped(s.table[id], s.clock))
    && (s.kind == InPostgres ==> forall id :: id in s.table ==> s.table[id].org in s.orgs)
  }

  // Over whole runs and both stores: a connected session has a start, a rejected or terminated one has an end,
  // whatever statuses the callers set in between. In memory the end is not before the start.
  lemma {:induction false} TimelineHolds(states: seq<State>, steps: seq<Step>, i: nat)
    requires Run(states, steps) && i < |states|
    ensures Inv(states[i])
    ensures forall id :: id in states[i].table ==>
              var s := states[i].table[id];
              && (s.status == "CONNECTED" ==> s.startedAt.Some?)
              && (s.status == "TERMINATED" || s.status == "REJECTED" ==> s.endedAt.Some?)
              && (states[i].kind == InMemory && s.status in {"TERMINATED", "REJECTED"} && s.startedAt.Some? ==>
                    s.startedAt.value <= s.endedAt.value)
  {
    if i > 0 {
      TimelineHolds(states, steps, i - 1);
      assert StepAt(states, steps, i - 1);
      var s, e := states[i - 1], steps[i - 1];
      if e.SetStatus? && Finds(s.kind, s.table, e.org, e.id) {
        UpdateOrdered(s.kind, s.table[e.id], e.status, e.reason, e.at);
      }
    }
  }

  // No terminal update is stamped before the start of the session it ends.
  predicate EndsAfterStart(s: State, e: Step) {
    e.SetStatus? && Terminal(e.status) && Finds(s.kind, s.table, e.org, e.id) && s.table[e.id].startedAt.Some? ==>
      s.table[e.id].startedAt.value <= e.at
  }

  lemma StepOrdered(s: State, e: Step)
    requires Enabled(s, e) && AllOrdered(s)
    ensures AllOrdered(Apply(s, e)) <==> EndsAfterStart(s, e)
  {
    var s' := Apply(s, e);
    if e.SetStatus? && Finds(s.kind, s.table, e.org, e.id) {
      UpdateOrdered(s.kind, s.table[e.id], e.status, e.reason, e.at);
      assert s'.table[e.id] == Updated(s.kind, s.table[e.id], e.status, e.reason, e.at);
    }
  }

  // In any run, over either store, no session is ever seen to end before it starts exactly when no terminal update is
  // stamped before the start it finds. In memory that is always so; in Postgres it is not.
  lemma {:induction false} OrderedIffStamps(states: seq<State>, steps: seq<Step>, n: nat)
    requires Run(states, steps) && n < |states|
    ensures (forall i :: 0 <= i <= n ==> AllOrdered(states[i]))
            <==> (forall i :: 0 <= i < n ==> EndsAfterStart(states[i], steps[i]))
  {
    if n > 0 {
      OrderedIffStamps(states, steps, n - 1);
      assert StepAt(states, steps, n - 1);
      if AllOrdered(states[n - 1]) { StepOrdered(states[n - 1], steps[n - 1]); }
    }
  }

  // For any two instants: a termination whose transaction began at t1, waiting for the row until a connection stamped
  // t2 has been committed, leaves a Postgres session that ends before it starts.
  lemma EndBeforeStart(s: Session, t0: Time, t1: Time, t2: Time)
    returns (states: seq<State>, steps: seq<Step>)
    requires IsOpened(s, t0) && s.status == "REQUESTED" && t1 < t2
    ensures Run(states, steps) && states[0].kind == InPostgres && s.id in states[|steps|].table
    ensures var ended := states[|steps|].table[s.id];
      ended.status == "TERMINATED" && ended.startedAt == Some(t2) && ended.endedAt == Some(t1) && !Ordered(ended)
  {
    var s0 := State(InPostgres, {s.org}, map[], t2);
    steps := [Create(s, t0), SetStatus(s.org, s.id, "CONNECTED", None, t2),
              SetStatus(s.org, s.id, "TERMINATED", None, t1)];
    var s1 := Apply(s0, steps[0]);
    var s2 := Apply(s1, steps[1]);
    states := [s0, s1, s2, Apply(s2, steps[2])];
    assert StepAt(states, steps, 0) && StepAt(states, steps, 1) && StepAt(states, steps, 2);
  }

  // The start of a session is written at most once; what it is a session of never changes.
  lemma {:induction false} StartedOnce(states: seq<State>, steps: seq<Step>, j: nat, i: nat, id: Uuid)
    requires Run(states, steps) && j <= i < |states| && id in states[j].table
    ensures id in states[i].table
    ensures var s, s' := states[j].table[id], states[i].table[id];
      && (s.startedAt.Some? ==> s'.startedAt == s.startedAt)
      && s'.id == s.id && s'.org == s.org && s'.device == s.device && s'.operator == s.operator
      && s'.createdAt == s.createdAt
    decreases i - j
  {
    if j < i {
      StartedOnce(states, steps, j, i - 1, id);
      assert StepAt(states, steps, i - 1);
    }
  }

  lemma Extend(states: seq<State>, steps: seq<Step>, e: Step) returns (states': seq<State>, steps': seq<Step>)
    requires Run(states, steps) && Enabled(states[|steps|], e)
    ensures Run(states', steps') && |steps'| == |steps| + 1
    ensures states' == states + [Apply(states[|steps|], e)]
  {
    states', steps' := states + [Apply(states[|steps|], e)], steps + [e];
    forall i | 0 <= i < |steps'|
      ensures StepAt(states', steps', i)
    {
      if i < |steps| { assert StepAt(states, steps, i); }
    }
  }

  // Terminated is not final, over either store: from every reachable state any session can be terminated and then
  // connected again. It keeps the end it was given, and its first start if it had one.
  lemma TerminatedNotFinal(states: seq<State>, steps: seq<Step>, id: Uuid, reason: Option<string>, later: Time)
    returns (states': seq<State>, steps': seq<Step>)
    requires Run(states, steps) && id in states[|steps|].table && states[|steps|].clock <= later
    ensures Run(states', steps') && |steps'| == |steps| + 3 && states <= states'
    ensures id in states'[|steps| + 1].table && states'[|steps| + 1].table[id].status == "TERMINATED"
    ensures id in states'[|steps'|].table
    ensures var s, again := states[|steps|].table[id], states'[|steps'|].table[id];
      && again.status == "CONNECTED" && again.endedAt == Some(states[|steps|].clock)
      && again.startedAt == if s.startedAt.Some? then s.startedAt else Some(later)
  {
    var s := states[|steps|];
    var org := s.table[id].org;
    states', steps' := Extend(states, steps, SetStatus(org, id, "TERMINATED", reason, s.clock));
    states', steps' := Extend(states', steps', Tick(later));
    states', steps' := Extend(states', steps', SetStatus(org, id, "CONNECTED", reason, later));
  }

  lemma {:induction false} SettingsConstant(states: seq<State>, steps: seq<Step>, i: nat)
    requires Run(states, steps) && i < |states|
    ensures states[i].kind == states[0].kind && states[i].orgs == states[0].orgs
  {
    if i > 0 {
      SettingsConstant(states, steps, i - 1);
      assert StepAt(states, steps, i - 1);
    }
  }

  // A consent decision takes effect over MemoryStore exactly when the session exists, and over PostgresStore exactly
  // when it belongs to the organization with the nil id; everything else stays as it is.
  lemma ConsentEffect(kind: StoreKind, table: Table, id: Uuid, decision: string, reason: string, at: Time)
    ensures var table' := Consent(kind, table, id, decision, reason, at);
      && table'.Keys == table.Keys
      && (forall x :: x in table && x != id ==> table'[x] == table[x])
      && (id in table ==>
            if kind == InMemory || table[id].org == NIL
            then Moved(kind, table[id], table'[id], if decision == "DENIED" then "REJECTED" else "CONNECTED",
                       Some(reason), at)
            else table'[id] == table[id])
  {
  }

  // So over a database without an organization of the nil id, no consent decision ever changes a session.
  lemma ConsentNeverTakesEffect(states: seq<State>, steps: seq<Step>, i: nat, id: Uuid,
                                decision: string, reason: string, at: Time)
    requires Run(states, steps) && i < |states| && states[0].kind == InPostgres && NIL !in states[0].orgs
    ensures Consent(InPostgres, states[i].table, id, decision, reason, at) == states[i].table
  {
    TimelineHolds(states, steps, i);
    SettingsConstant(states, steps, i);
  }
}
