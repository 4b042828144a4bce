/** The WebSocket side of the viewer: the registry of connected sessions, the
    routing of a client's request to the controller, the envelopes of the
    replies, and the broadcast of every message to every session. */
module Viewer {
  import opened Values
  import opened Controller

  // ---------------------------------------------------------------------------
  // Requests

  /** A client request after the `as!`/`as?` casts of the handlers; the
      optional fields of a `rows` request are `nil` when absent or not a string. */
  datatype Request =
    | Databases(requestId: string)
    | Tables(requestId: string, databaseName: string)
    | Rows(requestId: string, databaseName: string, tableName: string,
           order: Option<string>, limit: Option<string>, offset: Option<string>, clause: Option<string>)
    | Unroutable(reason: string)   // a forced cast failed or the type is unknown: the app stops

  /** `request[key] as? String`. */
  function StringField(request: map<string, Json>, key: string): Option<string> {
    if key in request && request[key].Str? then Some(request[key].s) else None
  }

  /** `request["requestId"] as? String ?? ""`. */
  function RequestId(request: map<string, Json>): string {
    StringField(request, "requestId").GetOr("")
  }

  /** The `switch` on `request["type"] as! String` of the text handler,
      followed by the casts the chosen fetch performs before it touches the
      controller. */
  function Route(request: map<string, Json>): (r: Request)
    ensures !r.Unroutable? ==> r.requestId == RequestId(request)
  {
    match StringField(request, "type")
    case None => Unroutable("type is not a string")
    case Some(kind) =>
      if kind == "databases" then Databases(RequestId(request))
      else if kind == "tables" then
        match StringField(request, "databaseName")
        case None => Unroutable("databaseName is not a string")
        case Some(db) => Tables(RequestId(request), db)
      else if kind == "rows" then
        match StringField(request, "databaseName")
        case None => Unroutable("databaseName is not a string")
        case Some(db) =>
          match StringField(request, "tableName")
          case None => Unroutable("tableName is not a string")
          case Some(table) =>
            Rows(RequestId(request), db, table, StringField(request, "order"), StringField(request, "limit"),
                 StringField(request, "offset"), StringField(request, "clause"))
      else Unroutable("Unimplemented " + kind)
  }

  /** The `type` of a routed request. */
  function Kind(q: Request): string
    requires !q.Unroutable?
  {
    match q
    case Databases(_) => "databases"
    case Tables(_, _) => "tables"
    case Rows(_, _, _, _, _, _, _) => "rows"
  }

  /** A routed request was sent with its kind as `type`. */
  lemma RouteKeepsKind(request: map<string, Json>)
    requires !Route(request).Unroutable?
    ensures "type" in request && request["type"] == Str(Kind(Route(request)))
  {
  }

  /** How any decoded dictionary is routed: the `type` string picks the
      handler; `databaseName` and `tableName` are forced casts, so a request
      lacking one as a string is not served; the optional fields are read
      with `as? String`, nil when absent or not a string. */
  lemma RouteReadsFields(m: map<string, Json>)
    ensures Route(m).Databases? <==> StringField(m, "type") == Some("databases")
    ensures Route(m).Tables? <==> StringField(m, "type") == Some("tables") && StringField(m, "databaseName").Some?
    ensures Route(m).Rows? <==> && StringField(m, "type") == Some("rows")
                                && StringField(m, "databaseName").Some? && StringField(m, "tableName").Some?
    ensures Route(m).Tables? ==> StringField(m, "databaseName") == Some(Route(m).databaseName)
    ensures Route(m).Rows? ==>
      && StringField(m, "databaseName") == Some(Route(m).databaseName)
      && StringField(m, "tableName") == Some(Route(m).tableName)
      && Route(m).order == StringField(m, "order")
      && Route(m).limit == StringField(m, "limit")
      && Route(m).offset == StringField(m, "offset")
      && Route(m).clause == StringField(m, "clause")
  {
    assert "tables" != "databases" by { assert "tables"[0] != "databases"[0]; }
    assert "rows" != "databases" by { assert "rows"[0] != "databases"[0]; }
    assert "rows" != "tables" by { assert "rows"[0] != "tables"[0]; }
  }

  /** The keys `Route` looks at. */
  const RequestKeys: set<string> :=
    {"type", "requestId", "databaseName", "tableName", "order", "limit", "offset", "clause"}

  /** `d[key] = value` for an optional string field. */
  function PutText(d: map<string, Json>, key: string, value: Option<string>): map<string, Json> {
    Put(d, key, if value.Some? then Some(Str(value.value)) else None)
  }

  lemma StringFieldPutText(d: map<string, Json>, key: string, value: Option<string>, k: string)
    ensures StringField(PutText(d, key, value), k) == if k == key then value else StringField(d, k)
  {
  }

  /** The dictionary a client sends for a request. */
  function RequestMessage(q: Request): map<string, Json>
    requires !q.Unroutable?
  {
    match q
    case Databases(rid) => map["type" := Str("databases"), "requestId" := Str(rid)]
    case Tables(rid, db) => map["type" := Str("tables"), "requestId" := Str(rid), "databaseName" := Str(db)]
    case Rows(rid, db, table, order, limit, offset, clause) =>
      var base := map["type" := Str("rows"), "requestId" := Str(rid), "databaseName" := Str(db), "tableName" := Str(table)];
      PutText(PutText(PutText(PutText(base, "order", order), "limit", limit), "offset", offset), "clause", clause)
  }

  /** Routing recovers every request a client can send. */
  lemma RouteRoundTrip(q: Request)
    requires !q.Unroutable?
    ensures Route(RequestMessage(q)) == q
  {
    var m := RequestMessage(q);
    assert "tables" != "databases" by { assert "tables"[0] != "databases"[0]; }
    assert "rows" != "databases" by { assert "rows"[0] != "databases"[0]; }
    assert "rows" != "tables" by { assert "rows"[0] != "tables"[0]; }
    match q
    case Databases(rid) =>
      assert StringField(m, "type") == Some("databases");
      assert StringField(m, "requestId") == Some(rid);
    case Tables(rid, db) =>
      assert StringField(m, "type") == Some("tables");
      assert StringField(m, "requestId") == Some(rid);
      assert StringField(m, "databaseName") == Some(db);
    case Rows(rid, db, table, order, limit, offset, clause) =>
      RowsMessageFields(q);
  }

  lemma RowsMessageFields(q: Request)
    requires q.Rows?
    ensures var m := RequestMessage(q);
      && StringField(m, "type") == Some("rows")
      && StringField(m, "requestId") == Some(q.requestId)
      && StringField(m, "databaseName") == Some(q.databaseName)
      && StringField(m, "tableName") == Some(q.tableName)
      && StringField(m, "order") == q.order
      && StringField(m, "limit") == q.limit
      && StringField(m, "offset") == q.offset
      && StringField(m, "clause") == q.clause
  {
    var base := map["type" := Str("rows"), "requestId" := Str(q.requestId),
                    "databaseName" := Str(q.databaseName), "tableName" := Str(q.tableName)];
    var m1 := PutText(base, "order", q.order);
    var m2 := PutText(m1, "limit", q.limit);
    var m3 := PutText(m2, "offset", q.offset);
    OptionalFieldsKeep(base, q.order, q.limit, q.offset, q.clause, "type");
    OptionalFieldsKeep(base, q.order, q.limit, q.offset, q.clause, "requestId");
    OptionalFieldsKeep(base, q.order, q.limit, q.offset, q.clause, "databaseName");
    OptionalFieldsKeep(base, q.order, q.limit, q.offset, q.clause, "tableName");
    StringFieldPutText(m3, "clause", q.clause, "clause");
    StringFieldPutText(m3, "clause", q.clause, "offset");
    StringFieldPutText(m2, "offset", q.offset, "offset");
    StringFieldPutText(m3, "clause", q.clause, "limit");
    StringFieldPutText(m2, "offset", q.offset, "limit");
    StringFieldPutText(m1, "limit", q.limit, "limit");
    StringFieldPutText(m3, "clause", q.clause, "order");
    StringFieldPutText(m2, "offset", q.offset, "order");
    StringFieldPutText(m1, "limit", q.limit, "order");
    StringFieldPutText(base, "order", q.order, "order");
  }

  /** The optional fields leave every other key as it was. */
  lemma OptionalFieldsKeep(base: map<string, Json>, order: Option<string>, limit: Option<string>,
                           offset: Option<string>, clause: Option<string>, k: string)
    requires k !in {"order", "limit", "offset", "clause"}
    ensures StringField(PutText(PutText(PutText(PutText(base, "order", order), "limit", limit), "offset", offset), "clause", clause), k)
         == StringField(base, k)
  {
  }

  /** Any other key of the request is ignored. */
  lemma RouteReadsOnlyRequestKeys(a: map<string, Json>, b: map<string, Json>)
    requires forall k | k in RequestKeys :: StringField(a, k) == StringField(b, k)
    ensures Route(a) == Route(b)
  {
    assert "type" in RequestKeys && "requestId" in RequestKeys && "databaseName" in RequestKeys;
    assert "tableName" in RequestKeys && "order" in RequestKeys && "limit" in RequestKeys;
    assert "offset" in RequestKeys && "clause" in RequestKeys;
  }

  // ---------------------------------------------------------------------------
  // Messages

  /** The envelope of a reply: `["data": data, "type": kind, "requestId": requestId]`. */
  function Response(kind: string, requestId: string, data: Json): map<string, Json> {
    map["data" := data, "type" := Str(kind), "requestId" := Str(requestId)]
  }

  /** What the query listener broadcasts for one traced statement. */
  function SqlEvent(sql: string): map<string, Json> {
    map["data" := Obj(map["sql" := Str(sql)]), "type" := Str("sql")]
  }

  function SqlEvents(trace: seq<string>): seq<Json> {
    seq(|trace|, i requires 0 <= i < |trace| => Obj(SqlEvent(trace[i])))
  }

  /** A statement broadcast: typed `sql`, with no `requestId`. */
  predicate IsSqlEvent(m: Json) {
    m.Obj? && "type" in m.fields && m.fields["type"] == Str("sql") && "requestId" !in m.fields
  }

  function AsArr(o: Outcome<seq<Json>>): Outcome<Json> {
    match o
    case Done(v) => Done(Arr(v))
    case Threw(m) => Threw(m)
    case Fatal(m) => Fatal(m)
  }

  function AsObj(o: Outcome<map<string, Json>>): Outcome<Json> {
    match o
    case Done(v) => Done(Obj(v))
    case Threw(m) => Threw(m)
    case Fatal(m) => Fatal(m)
  }

  /** How the handling of one text message ends: normally, or by stopping the
      app (`fatalError`, a failed forced cast, or an encoder handed a value it
      refuses). */
  datatype Handling = Handled | Crashed(reason: string)

  /** The end of one text message: how it ended, the messages every session
      received, in order, and the next identifier the controller hands out. */
  datatype Reaction = Reaction(handling: Handling, sent: seq<Json>, nextToken: nat)

  /** The statements traced on the way are broadcast first; then the reply
      is sent if the controller succeeded and the reply can be encoded, and
      the app stops otherwise. */
  function Conclude(kind: string, requestId: string, s: Step<Json>): Reaction {
    match s.outcome
    case Done(data) =>
      var reply := Response(kind, requestId, data);
      if Serializable(Obj(reply)) then Reaction(Handled, SqlEvents(s.trace) + [Obj(reply)], s.nextToken)
      else Reaction(Crashed("invalid JSON object"), SqlEvents(s.trace), s.nextToken)
    case Threw(m) => Reaction(Crashed(m), SqlEvents(s.trace), s.nextToken)
    case Fatal(m) => Reaction(Crashed(m), SqlEvents(s.trace), s.nextToken)
  }

  // ---------------------------------------------------------------------------
  // Sessions and the viewer

  /** A connected WebSocket client; `written` holds the messages it was sent,
      one per `writeBinary`, before their encoding into bytes. */
  class Session {
    const hashValue: int
    var written: seq<Json>

    constructor (hashValue: int)
      ensures this.hashValue == hashValue && written == []
    {
      this.hashValue := hashValue;
      written := [];
    }
  }

  class SQLiteViewer {
    var connected: map<int, Session>
    const databaseController: DatabaseController
    var stopped: bool   // the app has stopped: no callback runs any more

    /** Every session is registered under its own hash value, so distinct
        keys hold distinct sessions. */
    predicate Valid()
      reads this
    {
      forall k | k in connected :: connected[k].hashValue == k
    }

    /** `start(port:databases:)`: a registry of the given files, with the
        query listener installed. */
    constructor Start(databases: seq<string>, displayName: string -> string)
      ensures Valid() && connected == map[] && !stopped
      ensures fresh(databaseController)
      ensures databaseController.mappedDbNames == NameMap(databases, displayName)
      ensures databaseController.inMemoryConnection.None? && databaseController.listening
      ensures databaseController.nextToken == 0
    {
      var dbc := new DatabaseController(databases, None, displayName);
      dbc.ListenQueries();
      databaseController := dbc;
      connected := map[];
      stopped := false;
    }

    /** `startWithInMemoryConnection(connection:port:databases:)`: the given
        connection answers for every database; the controller attaches no
        listener to it. */
    constructor StartWithInMemoryConnection(handle: nat, databases: seq<string>, displayName: string -> string)
      ensures Valid() && connected == map[] && !stopped
      ensures fresh(databaseController)
      ensures databaseController.mappedDbNames == NameMap(databases, displayName)
      ensures databaseController.inMemoryConnection == Some(Connection(InMemory(handle), false))
      ensures databaseController.listening && databaseController.nextToken == 0
    {
      var dbc := new DatabaseController(databases, Some(Connection(InMemory(handle), false)), displayName);
      dbc.ListenQueries();
      databaseController := dbc;
      connected := map[];
      stopped := false;
    }

    /** The `connected:` callback: the session is registered under its hash
        value, replacing any session registered there. */
    method OnConnect(session: Session)
      requires Valid() && !stopped
      modifies this`connected
      ensures Valid()
      ensures connected == old(connected)[session.hashValue := session]
    {
      connected := connected[session.hashValue := session];
    }

    /** The `disconnected:` callback: whatever is registered under the
        session's hash value is dropped. */
    method OnDisconnect(session: Session)
      requires Valid() && !stopped
      modifies this`connected
      ensures Valid()
      ensures connected == old(connected) - {session.hashValue}
    {
      connected := connected - {session.hashValue};
    }

    /** `send(data:)`: the dictionary is encoded once, which stops the app
        when it holds something the encoder refuses; otherwise every
        connected session receives it once. */
    method Send(data: map<string, Json>) returns (ok: bool)
      requires Valid()
      modifies connected.Values
      ensures ok == Serializable(Obj(data))
      ensures forall k | k in connected ::
                connected[k].written == old(connected[k].written) + (if ok then [Obj(data)] else [])
    {
      ok := Serializable(Obj(data));
      if !ok {
        return;
      }
      var remaining := connected.Values;
      while remaining != {}
        invariant remaining <= connected.Values
        invariant forall k | k in connected ::
                    connected[k].written == old(connected[k].written) + (if connected[k] in remaining then [] else [Obj(data)])
        decreases remaining
      {
        var session :| session in remaining;
        session.written := session.written + [Obj(data)];
        remaining := remaining - {session};
      }
    }

    /** The query listener at work: one `sql` message per traced statement, in order. */
    method BroadcastTrace(trace: seq<string>)
      requires Valid()
      modifies connected.Values
      ensures forall k | k in connected :: connected[k].written == old(connected[k].written) + SqlEvents(trace)
    {
      var i := 0;
      while i < |trace|
        invariant 0 <= i <= |trace|
        invariant forall k | k in connected :: connected[k].written == old(connected[k].written) + SqlEvents(trace[..i])
      {
        assert Serializable(Obj(SqlEvent(trace[i])));
        assert SqlEvents(trace[..i + 1]) == SqlEvents(trace[..i]) + [Obj(SqlEvent(trace[i]))];
        var ok := Send(SqlEvent(trace[i]));
        i := i + 1;
      }
      assert trace[..|trace|] == trace;
    }

    /** The statements traced on the way, then the reply or the stop. */
    method Respond(kind: string, requestId: string, outcome: Outcome<Json>, trace: seq<string>)
      returns (r: Handling, sent: seq<Json>)
      requires Valid()
      modifies connected.Values
      ensures Reaction(r, sent, databaseController.nextToken)
           == Conclude(kind, requestId, Step(outcome, trace, databaseController.nextToken))
      ensures forall k | k in connected :: connected[k].written == old(connected[k].written) + sent
    {
      BroadcastTrace(trace);
      sent := SqlEvents(trace);
      match outcome
      case Threw(m) => r := Crashed(m);
      case Fatal(m) => r := Crashed(m);
      case Done(data) =>
        var reply := Response(kind, requestId, data);
        var ok := Send(reply);
        if ok {
          r := Handled;
          sent := sent + [Obj(reply)];
        } else {
          r := Crashed("invalid JSON object");
        }
    }

    /** What the controller does for a routed request, as a payload for the
        reply, when `getDatabases()` lists the registry as `listing`. */
    function Fetch(q: Request, e: Engine, listing: seq<string>): Step<Json>
      requires !q.Unroutable?
      reads this, databaseController
    {
      var token := databaseController.nextToken;
      match q
      case Databases(_) => Step(Done(Arr(Strings(listing))), [], token)
      case Tables(_, db) =>
        var s := databaseController.TableList(db, e, token);
        Step(AsArr(s.outcome), s.trace, s.nextToken)
      case Rows(_, db, table, order, limit, offset, clause) =>
        var s := databaseController.TableData(db, table, limit, offset, order, clause, e, token);
        Step(AsObj(s.outcome), s.trace, s.nextToken)
    }

    /** What the viewer does with one text message, when `getDatabases()`
        lists the registry as `listing`. */
    function React(request: map<string, Json>, e: Engine, listing: seq<string>): Reaction
      reads this, databaseController
    {
      var q := Route(request);
      if q.Unroutable? then Reaction(Crashed(q.reason), [], databaseController.nextToken)
      else Conclude(Kind(q), q.requestId, Fetch(q, e, listing))
    }

    /** `fetchDatabases(_:)`. */
    method FetchDatabases(requestId: string) returns (r: Handling, sent: seq<Json>, ghost listing: seq<string>)
      requires Valid()
      modifies connected.Values
      ensures Listing(listing, databaseController.mappedDbNames)
      ensures Reaction(r, sent, databaseController.nextToken)
           == Conclude("databases", requestId, Step(Done(Arr(Strings(listing))), [], databaseController.nextToken))
      ensures forall k | k in connected :: connected[k].written == old(connected[k].written) + sent
    {
      var databases := databaseController.GetDatabases();
      listing := databases;
      r, sent := Respond("databases", requestId, Done(Arr(Strings(databases))), []);
    }

    /** `fetchTables(_:)`, after its casts. */
    method FetchTables(requestId: string, databaseName: string, e: Engine) returns (r: Handling, sent: seq<Json>)
      requires Valid()
      modifies connected.Values, databaseController`nextToken
      ensures var s := old(databaseController.TableList(databaseName, e, databaseController.nextToken));
        Reaction(r, sent, databaseController.nextToken) == Conclude("tables", requestId, Step(AsArr(s.outcome), s.trace, s.nextToken))
      ensures forall k | k in connected :: connected[k].written == old(connected[k].written) + sent
    {
      var tables, trace := databaseController.GetTableList(databaseName, e);
      r, sent := Respond("tables", requestId, AsArr(tables), trace);
    }

    /** `fetchRows(_:)`, after its casts. */
    method FetchRows(requestId: string, databaseName: string, tableName: string, order: Option<string>,
                     limit: Option<string>, offset: Option<string>, clause: Option<string>, e: Engine)
      returns (r: Handling, sent: seq<Json>)
      requires Valid()
      modifies connected.Values, databaseController`nextToken
      ensures var s := old(databaseController.TableData(databaseName, tableName, limit, offset, order, clause, e,
                                                       databaseController.nextToken));
        Reaction(r, sent, databaseController.nextToken) == Conclude("rows", requestId, Step(AsObj(s.outcome), s.trace, s.nextToken))
      ensures forall k | k in connected :: connected[k].written == old(connected[k].written) + sent
    {
      var rows, trace := databaseController.GetTableData(databaseName, tableName, limit, offset, order, clause, e);
      r, sent := Respond("rows", requestId, AsObj(rows), trace);
    }

    /** The `text:` callback, on the dictionary decoded from the message. A
        message whose handling crashes stops the app: no callback runs after it. */
    method OnText(request: map<string, Json>, e: Engine) returns (r: Handling, sent: seq<Json>, ghost listing: seq<string>)
      requires Valid() && !stopped
      modifies this`stopped, connected.Values, databaseController`nextToken
      ensures stopped <==> r.Crashed?
      ensures Route(request).Databases? ==> Listing(listing, databaseController.mappedDbNames)
      ensures Reaction(r, sent, databaseController.nextToken) == old(React(request, e, listing))
      ensures forall k | k in connected :: connected[k].written == old(connected[k].written) + sent
    {
      listing := [];
      match Route(request) {
        case Unroutable(reason) =>
          r, sent := Crashed(reason), [];
        case Databases(rid) =>
          r, sent, listing := FetchDatabases(rid);
        case Tables(rid, db) =>
          r, sent := FetchTables(rid, db, e);
        case Rows(rid, db, table, order, limit, offset, clause) =>
          r, sent := FetchRows(rid, db, table, order, limit, offset, clause, e);
      }
      stopped := r.Crashed?;
    }
  }

  // ---------------------------------------------------------------------------
  // Properties of the replies

  /** Whatever the outcome, the traced statements go out first, as `sql`
      messages without a `requestId`; the reply, sent exactly when the
      controller succeeded with an encodable payload, comes last and carries
      the request's kind and identifier. */
  lemma ConcludeShape(kind: string, requestId: string, s: Step<Json>)
    ensures var re := Conclude(kind, requestId, s);
      && (re.handling.Handled? <==> s.outcome.Done? && Serializable(s.outcome.value))
      && |re.sent| == |s.trace| + (if re.handling.Handled? then 1 else 0)
      && re.sent[..|s.trace|] == SqlEvents(s.trace)
      && (forall i | 0 <= i < |s.trace| :: IsSqlEvent(re.sent[i]))
      && (re.handling.Handled? ==> re.sent[|s.trace|] == Obj(Response(kind, requestId, s.outcome.value)))
      && re.nextToken == s.nextToken
  {
    var re := Conclude(kind, requestId, s);
    if s.outcome.Done? {
      var reply := Response(kind, requestId, s.outcome.value);
      assert reply["data"] == s.outcome.value;
      assert Serializable(Obj(reply)) <==> Serializable(s.outcome.value);
    }
    assert re.sent[..|s.trace|] == SqlEvents(s.trace);
    forall i | 0 <= i < |s.trace| ensures IsSqlEvent(re.sent[i]) {
      assert re.sent[i] == Obj(SqlEvent(s.trace[i]));
    }
  }

  /** Every reply answers the request it was made for: it comes after all
      the `sql` broadcasts, and carries the request's `type` and
      `requestId` (the empty string when the client sent none). */
  lemma RepliesAnswerTheirRequest(v: SQLiteViewer, request: map<string, Json>, e: Engine, listing: seq<string>)
    ensures var re := v.React(request, e, listing);
      re.handling.Handled? ==>
        && !Route(request).Unroutable?
        && |re.sent| > 0
        && (forall i | 0 <= i < |re.sent| - 1 :: IsSqlEvent(re.sent[i]))
        && var reply := re.sent[|re.sent| - 1];
           && reply.Obj? && "type" in request && "data" in reply.fields
           && reply.fields["type"] == request["type"]
           && reply.fields["requestId"] == Str(RequestId(request))
  {
    var q := Route(request);
    if !q.Unroutable? {
      RouteKeepsKind(request);
      var s := v.Fetch(q, e, listing);
      ConcludeShape(Kind(q), q.requestId, s);
    }
  }

  /** A `databases` request never stops the app: it is answered with one
      message that lists every registered name, and draws no identifier. */
  lemma DatabasesAlwaysAnswered(v: SQLiteViewer, request: map<string, Json>, e: Engine, listing: seq<string>)
    requires Route(request).Databases?
    requires Listing(listing, v.databaseController.mappedDbNames)
    ensures var re := v.React(request, e, listing);
      && re.handling == Handled
      && |re.sent| == 1
      && re.nextToken == v.databaseController.nextToken
      && re.sent[0].Obj? && "data" in re.sent[0].fields && re.sent[0].fields["data"].Arr?
      && (forall name :: Str(name) in re.sent[0].fields["data"].items <==> name in v.databaseController.mappedDbNames)
  {
    ConcludeShape("databases", Route(request).requestId, Step(Done(Arr(Strings(listing))), [], v.databaseController.nextToken));
    StringsMembership(listing);
  }

  lemma StringsMembership(names: seq<string>)
    ensures forall name :: Str(name) in Strings(names) <==> name in names
  {
    forall name ensures Str(name) in Strings(names) <==> name in names {
      if Str(name) in Strings(names) {
        var i :| 0 <= i < |names| && Strings(names)[i] == Str(name);
        assert names[i] == name;
      }
      if name in names {
        var i :| 0 <= i < |names| && names[i] == name;
        assert Strings(names)[i] == Str(name);
      }
    }
  }

  /** With an injected connection no statement is ever broadcast: a request
      sends its reply alone, or nothing. */
  lemma InjectedSetupSendsOnlyReplies(v: SQLiteViewer, request: map<string, Json>, e: Engine, listing: seq<string>)
    requires v.databaseController.inMemoryConnection.Some?
    requires !v.databaseController.inMemoryConnection.value.traced
    ensures var re := v.React(request, e, listing);
      |re.sent| == (if re.handling.Handled? then 1 else 0)
  {
    var token := v.databaseController.nextToken;
    match Route(request)
    case Unroutable(_) =>
    case Databases(rid) =>
      ConcludeShape("databases", rid, Step(Done(Arr(Strings(listing))), [], token));
    case Tables(rid, db) =>
      InjectedConnectionIsNeverTraced(v.databaseController, db, "", None, None, None, None, e, token);
      var s := v.databaseController.TableList(db, e, token);
      ConcludeShape("tables", rid, Step(AsArr(s.outcome), s.trace, s.nextToken));
    case Rows(rid, db, table, order, limit, offset, clause) =>
      InjectedConnectionIsNeverTraced(v.databaseController, db, table, limit, offset, order, clause, e, token);
      var s := v.databaseController.TableData(db, table, limit, offset, order, clause, e, token);
      ConcludeShape("rows", rid, Step(AsObj(s.outcome), s.trace, s.nextToken));
  }

  /** With the listener installed and a registered database that opens, a
      `rows` request first broadcasts the statement it built, and then, if
      all went well, its reply. */
  lemma ListenerBroadcastsRowsQuery(v: SQLiteViewer, request: map<string, Json>, e: Engine, listing: seq<string>)
    requires Route(request).Rows?
    requires v.databaseController.inMemoryConnection.None? && v.databaseController.listening
    requires Route(request).databaseName in v.databaseController.mappedDbNames
    requires e.openError(v.databaseController.mappedDbNames[Route(request).databaseName]).None?
    ensures var q := Route(request);
      var re := v.React(request, e, listing);
      && |re.sent| == (if re.handling.Handled? then 2 else 1)
      && re.sent[0] == Obj(SqlEvent(TableQuery(q.tableName, q.limit, q.offset, q.order, q.clause)))
  {
    var q := Route(request);
    var token := v.databaseController.nextToken;
    TableDataTracesItsQuery(v.databaseController, q.databaseName, q.tableName, q.limit, q.offset, q.order, q.clause, e, token);
    var s := v.databaseController.TableData(q.databaseName, q.tableName, q.limit, q.offset, q.order, q.clause, e, token);
    ConcludeShape("rows", q.requestId, Step(AsObj(s.outcome), s.trace, s.nextToken));
  }

  /** A `rows` request whose result has a blob in the last column of some
      row stops the app once the traced statements are out: the encoder
      refuses the reply, and no session receives it. */
  lemma BlobRowsStopTheApp(v: SQLiteViewer, request: map<string, Json>, e: Engine, listing: seq<string>, i: nat)
    requires Route(request).Rows?
    requires var q := Route(request);
      v.databaseController.TableData(q.databaseName, q.tableName, q.limit, q.offset, q.order, q.clause, e,
                                     v.databaseController.nextToken).outcome.Done?
    requires var q := Route(request);
      var c := v.databaseController.OpenConnection(q.databaseName, e).value;
      var rows := e.query(c.location, TableQuery(q.tableName, q.limit, q.offset, q.order, q.clause)).value;
      && i < |rows| && |rows[i]| > 0
      && rows[i][|rows[i]| - 1].value.Blob? && rows[i][|rows[i]| - 1].name != "__id"
    ensures var q := Route(request);
      var re := v.React(request, e, listing);
      && re.handling.Crashed?
      && re.sent == SqlEvents(v.databaseController.TableData(q.databaseName, q.tableName, q.limit, q.offset,
                                                             q.order, q.clause, e, v.databaseController.nextToken).trace)
  {
    var q := Route(request);
    var token := v.databaseController.nextToken;
    var s := v.databaseController.TableData(q.databaseName, q.tableName, q.limit, q.offset, q.order, q.clause, e, token);
    TableDataWithBlob(v.databaseController, q.databaseName, q.tableName, q.limit, q.offset, q.order, q.clause, e, token, i);
    ConcludeShape("rows", q.requestId, Step(AsObj(s.outcome), s.trace, s.nextToken));
    var re := v.React(request, e, listing);
    assert re.sent == re.sent[..|s.trace|];
  }

  /** The `rows` request that the `testTableData` test sends
      (Tests/SQLiteViewerTests/Tests.swift:111-149) routes to `users` of
      `test.sqlite`, without a WHERE clause. */
  lemma UsersRowsRequest(requestId: string)
    ensures Route(map["type" := Str("rows"), "requestId" := Str(requestId), "databaseName" := Str("test.sqlite"),
                      "tableName" := Str("users"), "order" := Str("id asc"), "limit" := Str("20"), "offset" := Str("0")])
         == Rows(requestId, "test.sqlite", "users", Some("id asc"), Some("20"), Some("0"), None)
  {
    var q := Rows(requestId, "test.sqlite", "users", Some("id asc"), Some("20"), Some("0"), None);
    RouteRoundTrip(q);
  }
}
