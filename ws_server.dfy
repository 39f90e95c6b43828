/**
 * The synchronous WebSocket server's own logic (src/wsserver/server.py):
 * the decorator that turns an escaped exception into an ExecutionError
 * update, the admission set that allows one client at a time, the dispatch
 * of a parsed request to its handler, and the error path of an incoming
 * message.
 *
 * The socket, the JSON text codec, the lock and the handler bodies (which
 * call into the BLE layer) are inputs: a handler run is given as the
 * messages it sends and how it ends.
 */
module WsServer {
  import opened Wrappers
  import opened BleExceptions
  import opened JsonDesc

  // ------------------------------------------------ the error decorator

  /** What a handler body does: the messages it sends itself, then how it ends. */
  datatype HandlerRun<T> = HandlerRun(sent: seq<Value>, outcome: Outcome<T, PyException>)

  /** What the decorated handler hands back, and everything sent on its behalf. */
  datatype Handled<T> = Handled(result: Option<T>, sent: seq<Value>)

  /** An ExecutionError update whose id is any JSON value, as the server echoes it. */
  function ErrorUpdate(uid: Value, eid: int, text: string): (r: Value)
    ensures r.Dict? && r.m.Keys == {"type", "id", "update", "results"}
    ensures r.m["type"] == Str("UPDATE") && r.m["id"] == uid && r.m["update"] == Str("ExecutionError")
    ensures r.m["results"] == MakeError(eid, text)
  {
    Dict(map["type" := Str("UPDATE"), "id" := uid, "update" := Str("ExecutionError"), "results" := MakeError(eid, text)])
  }

  /** With an integer id the update is exactly make_execution_error's. */
  lemma ErrorUpdateOfInt(uid: int, eid: int, text: string)
    ensures ErrorUpdate(Int(uid), eid, text) == MakeExecutionError(uid, eid, text)
  {
  }

  /** The EID an escaped exception is reported with. */
  function ReportedEid(e: PyException): int
  {
    if IsBLEException(e.cls) then Eid(e.cls) else Eid(UnknownException)
  }

  /**
   * A client can tell the two kinds of failure apart: a BLEException is
   * reported with its own class's EID, which is never 1000, and every other
   * exception with 1000, UnknownException's EID.
   */
  lemma ReportedEidSpec(e: PyException)
    ensures IsBLEException(e.cls) ==> ReportedEid(e) == Eid(e.cls)
    ensures ReportedEid(e) == 1000 <==> !IsBLEException(e.cls)
    ensures IsBLEException(e.cls) && IsLeaf(e.cls) ==> 1 <= ReportedEid(e) <= 8
  {
    BLEExceptionMembers(e.cls);
    if IsBLEException(e.cls) {
      EidsDistinct(e.cls, UnknownException);
      LeafEidsAreSmall(e.cls);
    }
  }

  /**
   * catch_exceptions_and_send_as_JSON.  `text` is the message the wrapper
   * renders: the exception's repr for a BLEException, the formatted
   * traceback otherwise.
   */
  function CatchAndReport<T>(uid: Value, run: HandlerRun<T>, text: string): (h: Handled<T>)
    ensures run.outcome.Returned? <==> h.result.Some?
    ensures run.outcome.Returned? ==> h.result.value == run.outcome.value && h.sent == run.sent
    ensures run.outcome.Raised? ==>
              && |h.sent| == |run.sent| + 1 && h.sent[..|run.sent|] == run.sent
              && h.sent[|run.sent|] == ErrorUpdate(uid, ReportedEid(run.outcome.error), text)
  {
    match run.outcome
    case Returned(x) => Handled(Some(x), run.sent)
    case Raised(e) => Handled(None, run.sent + [ErrorUpdate(uid, ReportedEid(e), text)])
  }

  // --------------------------------------------------------- admission

  /** The part of the server that admits and releases clients. */
  datatype Admission = Admission(ConnSet: set<int>, Accepting: bool, DisconnectAllCalls: nat)

  /** One connection at a time: the server accepts new connections exactly when no client is registered. */
  predicate AdmissionOk(s: Admission)
  {
    s.Accepting <==> s.ConnSet == {}
  }

  /** _cb_NewClient for a real client: deny further connections, then register the id. */
  function AfterJoin(s: Admission, id: int): (r: Admission)
    ensures id in r.ConnSet && r.ConnSet - {id} == s.ConnSet - {id}
    ensures !r.Accepting && AdmissionOk(r)
    ensures r.DisconnectAllCalls == s.DisconnectAllCalls
  {
    Admission(s.ConnSet + {id}, false, s.DisconnectAllCalls)
  }

  /**
   * _cb_ClientLeft for a real client: deny, forget the id, and when nobody is
   * left disconnect every BLE client and accept connections again.
   */
  function AfterLeft(s: Admission, id: int): (r: Admission)
    ensures id !in r.ConnSet && r.ConnSet == s.ConnSet - {id}
    ensures AdmissionOk(r)
    ensures r.DisconnectAllCalls == s.DisconnectAllCalls + (if r.ConnSet == {} then 1 else 0)
  {
    var rest := s.ConnSet - {id};
    if rest == {} then Admission(rest, true, s.DisconnectAllCalls + 1)
    else Admission(rest, false, s.DisconnectAllCalls)
  }

  /**
   * A duplicate leave notification leaves the registry and the admission
   * flag as the first one did; it only repeats the disconnect-all when the
   * registry is empty.
   */
  lemma LeftTwice(s: Admission, id: int)
    ensures AfterLeft(AfterLeft(s, id), id).ConnSet == AfterLeft(s, id).ConnSet
    ensures AfterLeft(AfterLeft(s, id), id).Accepting == AfterLeft(s, id).Accepting
    ensures AfterLeft(AfterLeft(s, id), id).DisconnectAllCalls
         == AfterLeft(s, id).DisconnectAllCalls + (if AfterLeft(s, id).ConnSet == {} then 1 else 0)
  {
  }

  /** The only client joining and leaving restores the idle server, having disconnected BLE once. */
  lemma JoinThenLeave(s: Admission, id: int)
    requires AdmissionOk(s) && s.Accepting
    ensures AfterLeft(AfterJoin(s, id), id) == s.(DisconnectAllCalls := s.DisconnectAllCalls + 1)
  {
  }

  /** While another client remains, a leave keeps new connections denied and leaves BLE alone. */
  lemma LeaveWithOthersPresent(s: Admission, id: int, other: int)
    requires other in s.ConnSet && other != id
    ensures !AfterLeft(s, id).Accepting && AfterLeft(s, id).DisconnectAllCalls == s.DisconnectAllCalls
  {
    assert other in AfterLeft(s, id).ConnSet;
  }

  // ---------------------------------------------------------- dispatch

  /** The six decorated do_* handlers. */
  datatype Handler = DoWrite | DoRead | DoScan | DoConnect | DoDisconnect | DoSetNotify

  /** One handler call: the handler, the request's id and the params passed to it, in order. */
  datatype HandlerCall = HandlerCall(handler: Handler, uid: Value, args: seq<Value>)

  /** Which handler parseCommand calls for a command. */
  function HandlerOf(command: string): (h: Option<Handler>)
    ensures h.Some? <==> command in Commands
  {
    if command == "GATTWrite" then Some(DoWrite)
    else if command == "GATTRead" then Some(DoRead)
    else if command == "Scan" then Some(DoScan)
    else if command == "GATTConnect" then Some(DoConnect)
    else if command == "GATTDisconnect" then Some(DoDisconnect)
    else if command == "GATTSetNotify" then Some(DoSetNotify)
    else None
  }

  /** Each command reaches its own handler. */
  lemma HandlerOfInjective(c: string, d: string)
    requires HandlerOf(c).Some? && HandlerOf(c) == HandlerOf(d)
    ensures c == d
  {
  }

  /** The params each handler is given, in argument order. */
  function ArgNames(h: Handler): seq<string>
  {
    match h
    case DoWrite => ["MAC", "Char", "Data", "RR"]
    case DoRead => ["MAC", "Char", "Len"]
    case DoScan => ["Timeout"]
    case DoConnect => ["MAC"]
    case DoDisconnect => ["MAC"]
    case DoSetNotify => ["MAC", "Char", "Enable"]
  }

  /** Evaluate `params[k]` for each key in turn; the first failing lookup raises. */
  function LookupAll(v: Value, keys: seq<string>): (r: Outcome<seq<Value>, PyException>)
    ensures r.Returned? <==> forall k :: k in keys ==> Index(v, k).Returned?
    ensures r.Returned? ==> |r.value| == |keys|
    ensures r.Returned? ==> forall i :: 0 <= i < |keys| ==> v.Dict? && keys[i] in v.m && r.value[i] == v.m[keys[i]]
  {
    if keys == [] then Returned([])
    else match Index(v, keys[0])
      case Raised(e) => Raised(e)
      case Returned(x) =>
        match LookupAll(v, keys[1..])
        case Raised(e) =>
          assert forall k :: k in keys[1..] ==> k in keys;
          Raised(e)
        case Returned(xs) =>
          assert forall k :: k in keys ==> k == keys[0] || k in keys[1..];
          Returned([x] + xs)
  }

  /**
   * parseCommand as a value: validate, look up params and id, and for a
   * request name the handler and its arguments.
   */
  function Dispatch(cmd: Value): Outcome<Option<HandlerCall>, PyException>
  {
    match ParseObj(cmd)
    case Raised(e) => Raised(e)
    case Returned(c) =>
      match Index(c, "params")
      case Raised(e) => Raised(e)
      case Returned(params) =>
        match Index(c, "id")
        case Raised(e) => Raised(e)
        case Returned(uid) =>
          if c.m["type"] != Str("REQ") then Returned(None)
          else match Index(c, "command")
            case Raised(e) => Raised(e)
            case Returned(command) => DispatchRequest(command, params, uid)
  }

  /** The dispatch of a request once its command, params and id are looked up. */
  function DispatchRequest(command: Value, params: Value, uid: Value): Outcome<Option<HandlerCall>, PyException>
  {
    if !command.Str? || HandlerOf(command.s).None? then Returned(None)
    else
      var h := HandlerOf(command.s).value;
      match LookupAll(params, ArgNames(h))
      case Raised(e) => Raised(e)
      case Returned(args) => Returned(Some(HandlerCall(h, uid, args)))
  }

  /** A handler's params are among those the validator demanded. */
  lemma ArgsRequired(command: string)
    requires command in Commands
    ensures forall k :: k in ArgNames(HandlerOf(command).value) ==> k in RequiredParams(command)
  {
  }

  /**
   * parseCommand returns normally exactly for the requests parse_obj
   * accepts, and then calls exactly the command's handler, with the
   * request's id and its params in argument order.
   */
  lemma DispatchRequests(cmd: Value)
    ensures Dispatch(cmd).Returned? <==> Accepted(cmd) && cmd.m["type"] == Str("REQ")
    ensures Dispatch(cmd).Returned? ==>
              var call := Dispatch(cmd).value;
              && call.Some?
              && Some(call.value.handler) == HandlerOf(cmd.m["command"].s)
              && call.value.uid == cmd.m["id"]
              && |call.value.args| == |ArgNames(call.value.handler)|
              && forall i :: 0 <= i < |call.value.args| ==>
                   call.value.args[i] == cmd.m["params"].m[ArgNames(call.value.handler)[i]]
  {
    ParseObjSpec(cmd);
    if Accepted(cmd) {
      if cmd.m["type"] == Str("REQ") {
        ArgsRequired(cmd.m["command"].s);
      } else {
        AcceptedResponseFields(cmd);
      }
    }
  }

  /** Every response a client sends passes validation and then fails at `cmd['params']`. */
  lemma DispatchRejectsResponses(cmd: Value)
    requires Accepted(cmd) && cmd.m["type"] == Str("RESP")
    ensures Dispatch(cmd) == Raised(Builtin("KeyError", "params"))
  {
    ParseObjSpec(cmd);
    AcceptedResponseFields(cmd);
  }

  /** Anything parse_obj rejects escapes parseCommand with parse_obj's own exception. */
  lemma DispatchPassesParseErrors(cmd: Value)
    requires !Accepted(cmd)
    ensures ParseObj(cmd).Raised? && Dispatch(cmd) == Raised(ParseObj(cmd).error)
  {
    ParseObjSpec(cmd);
  }

  /** The handler calls a dispatch makes: at most one. */
  function CallsOf(d: Outcome<Option<HandlerCall>, PyException>): (calls: seq<HandlerCall>)
    ensures |calls| <= 1
  {
    if d.Returned? && d.value.Some? then [d.value.value] else []
  }

  /** What the decorated handler of a dispatch sends. */
  function SendsOf(d: Outcome<Option<HandlerCall>, PyException>, run: HandlerRun<()>, text: string): seq<Value>
  {
    if d.Returned? && d.value.Some? then CatchAndReport(d.value.value.uid, run, text).sent else []
  }

  /** json.loads, performed outside the model: a decoding failure or the decoded value. */
  datatype Decoded = DecodeError | Decoded(v: Value)

  /** `cmd.get('uid', 0)` on the decoded message. */
  function UidOf(v: Value): Outcome<Value, PyException>
  {
    if v.Dict? then Returned(if "uid" in v.m then v.m["uid"] else Int(0))
    else Raised(Builtin("AttributeError", "'" + TypeName(v) + "' object has no attribute 'get'"))
  }

  // ------------------------------------------------------------ server

  datatype ServerState = ServerState(admission: Admission, Outbox: seq<Value>, Calls: seq<HandlerCall>)

  /**
   * SyncWSServer: the set of connected client ids, the listening socket's
   * admission flag, the number of disconnectAllClients requests, every
   * message sent to a client and every handler call made.
   */
  class SyncWSServer {
    var ConnSet: set<int>
    var Accepting: bool
    var DisconnectAllCalls: nat
    var Outbox: seq<Value>
    var Calls: seq<HandlerCall>

    function Admit(): Admission
      reads this
    {
      Admission(ConnSet, Accepting, DisconnectAllCalls)
    }

    function Fields(): ServerState
      reads this
    {
      ServerState(Admit(), Outbox, Calls)
    }

    ghost predicate Valid()
      reads this
    {
      AdmissionOk(Admit())
    }

    /** A fresh server accepts connections and has no clients. */
    constructor()
      ensures Fields() == ServerState(Admission({}, true, 0), [], [])
      ensures Valid()
    {
      ConnSet := {};
      Accepting := true;
      DisconnectAllCalls := 0;
      Outbox := [];
      Calls := [];
    }

    method AddConn(clientid: int)
      modifies this
      ensures Fields() == old(Fields()).(admission := old(Admit()).(ConnSet := old(ConnSet) + {clientid}))
    {
      ConnSet := ConnSet + {clientid};
    }

    /** set.discard: removing an absent id is not an error. */
    method RemConn(clientid: int)
      modifies this
      ensures Fields() == old(Fields()).(admission := old(Admit()).(ConnSet := old(ConnSet) - {clientid}))
    {
      ConnSet := ConnSet - {clientid};
    }

    method NewClient(client: Option<int>)
      modifies this
      ensures client.None? ==> Fields() == old(Fields())
      ensures client.Some? ==> Fields() == old(Fields()).(admission := AfterJoin(old(Admit()), client.value))
      ensures Valid()
      requires Valid()
    {
      if client.None? {
        return;
      }
      Accepting := false;
      AddConn(client.value);
    }

    /**
     * _cb_ClientLeft.  disconnectAllClients is requested when the last
     * client leaves; whatever it raises is swallowed, so its outcome never
     * reaches the server's state.
     */
    method ClientLeft(client: Option<int>)
      modifies this
      ensures client.None? ==> Fields() == old(Fields())
      ensures client.Some? ==> Fields() == old(Fields()).(admission := AfterLeft(old(Admit()), client.value))
      ensures Valid()
      requires Valid()
    {
      if client.None? {
        return;
      }
      Accepting := false;
      RemConn(client.value);
      var connset := ConnSet;
      if |connset| == 0 {
        DisconnectAllCalls := DisconnectAllCalls + 1;
        Accepting := true;
      }
    }

    method SendJSON(ob: Value)
      modifies this
      ensures Fields() == old(Fields()).(Outbox := old(Outbox) + [ob])
    {
      Outbox := Outbox + [ob];
    }

    /** Call one decorated handler: record the call, then send what it and its wrapper send. */
    method RunHandler(call: HandlerCall, run: HandlerRun<()>, text: string)
      modifies this
      ensures Fields() == old(Fields()).(Calls := old(Calls) + [call],
                                         Outbox := old(Outbox) + CatchAndReport(call.uid, run, text).sent)
    {
      Calls := Calls + [call];
      var h := CatchAndReport(call.uid, run, text);
      Outbox := Outbox + h.sent;
    }

    /**
     * parseCommand: validate, then call the command's handler.  The
     * handlers are decorated, so nothing a handler raises escapes; only
     * the validator and the lookups before the call can raise.
     */
    method ParseCommand(cmd: Value, run: HandlerRun<()>, text: string) returns (r: Outcome<Value, PyException>)
      modifies this
      ensures r.Returned? <==> Dispatch(cmd).Returned?
      ensures r.Returned? ==> r.value == cmd
      ensures r.Raised? ==> r.error == Dispatch(cmd).error
      ensures Fields() == old(Fields()).(Calls := old(Calls) + CallsOf(Dispatch(cmd)),
                                         Outbox := old(Outbox) + SendsOf(Dispatch(cmd), run, text))
    {
      var parsed := ParseObj(cmd);
      if parsed.Raised? {
        return Raised(parsed.error);
      }
      var c := parsed.value;
      var params := Index(c, "params");
      if params.Raised? {
        return Raised(params.error);
      }
      var uid := Index(c, "id");
      if uid.Raised? {
        return Raised(uid.error);
      }
      if c.m["type"] == Str("REQ") {
        var command := Index(c, "command");
        if command.Raised? {
          return Raised(command.error);
        }
        var call := CallHandler(command.value, params.value, uid.value, run, text);
        if call.Raised? {
          return Raised(call.error);
        }
      }
      return Returned(c);
    }

    /** The chain of `if cmd['command'] == ...` tests: at most one matches. */
    static method SelectHandler(command: Value) returns (h: Option<Handler>)
      ensures h == (if command.Str? then HandlerOf(command.s) else None)
    {
      if command == Str("GATTWrite") {
        h := Some(DoWrite);
      } else if command == Str("GATTRead") {
        h := Some(DoRead);
      } else if command == Str("Scan") {
        h := Some(DoScan);
      } else if command == Str("GATTConnect") {
        h := Some(DoConnect);
      } else if command == Str("GATTDisconnect") {
        h := Some(DoDisconnect);
      } else if command == Str("GATTSetNotify") {
        h := Some(DoSetNotify);
      } else {
        h := None;
      }
    }

    /** Evaluate the handler's arguments and call it. */
    method CallHandler(command: Value, params: Value, uid: Value, run: HandlerRun<()>, text: string)
      returns (r: Outcome<(), PyException>)
      modifies this
      ensures r.Raised? <==> DispatchRequest(command, params, uid).Raised?
      ensures r.Raised? ==> r.error == DispatchRequest(command, params, uid).error
      ensures Fields() == old(Fields()).(Calls := old(Calls) + CallsOf(DispatchRequest(command, params, uid)),
                                         Outbox := old(Outbox) + SendsOf(DispatchRequest(command, params, uid), run, text))
    {
      var h := SelectHandler(command);
      if h.None? {
        return Returned(());
      }
      var args := LookupAll(params, ArgNames(h.value));
      if args.Raised? {
        return Raised(args.error);
      }
      RunHandler(HandlerCall(h.value, uid, args.value), run, text);
      return Returned(());
    }

    /**
     * _cb_MessageReceived.  `text` is the repr the error update carries.
     * A decoding failure is reported with id 0; a parse failure with
     * `cmd.get('uid', 0)`, which raises AttributeError out of the except
     * clause itself when the message is not a JSON object.
     */
    method MessageReceived(message: Decoded, run: HandlerRun<()>, text: string) returns (r: Outcome<(), PyException>)
      modifies this
      ensures Admit() == old(Admit())
      ensures message.DecodeError? ==>
                r == Returned(()) && Calls == old(Calls)
                && Outbox == old(Outbox) + [ErrorUpdate(Int(0), Eid(UnknownException), text)]
      ensures message.Decoded? ==> Calls == old(Calls) + CallsOf(Dispatch(message.v))
      ensures message.Decoded? && Dispatch(message.v).Returned? ==>
                r == Returned(()) && Outbox == old(Outbox) + SendsOf(Dispatch(message.v), run, text)
      ensures message.Decoded? && Dispatch(message.v).Raised? && message.v.Dict? ==>
                r == Returned(())
                && Outbox == old(Outbox) + [ErrorUpdate(UidOf(message.v).value, Eid(UnknownException), text)]
      ensures message.Decoded? && Dispatch(message.v).Raised? && !message.v.Dict? ==>
                r == Raised(UidOf(message.v).error) && Outbox == old(Outbox)
    {
      if message.DecodeError? {
        SendJSON(ErrorUpdate(Int(0), Eid(UnknownException), text));
        return Returned(());
      }
      var cmd := message.v;
      var parsed := ParseCommand(cmd, run, text);
      if parsed.Returned? {
        return Returned(());
      }
      var uid := UidOf(cmd);
      if uid.Raised? {
        return Raised(uid.error);
      }
      SendJSON(ErrorUpdate(uid.value, Eid(UnknownException), text));
      return Returned(());
    }
  }

  /**
   * A parse failure is echoed under the message's "uid" field, which the
   * protocol's requests do not carry: a rejected request is reported with
   * id 0 whatever its own id.
   */
  lemma ParseFailureEchoesUid(command: string, rid: int, params: Value)
    ensures UidOf(MakeReq(command, rid, params)) == Returned(Int(0))
  {
  }
}
