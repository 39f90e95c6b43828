/**
 * The WebSocket wire protocol's validator and message constructors
 * (wsserver/jsondesc.py).
 *
 * Messages are decoded JSON values.  The validator is a chain of guards
 * written against Python's own `len`, `in`, `[]` and `==`, so those are
 * modelled with Python's behaviour on every kind of value: a guard applied to
 * the wrong kind of value raises TypeError rather than ParseException.
 */
module JsonDesc {
  import opened Wrappers
  import opened BleExceptions
  import opened PyBytes
  import Decimal
  import GattTypes
  import ScanResults

  datatype Value =
    | Null
    | Bool(b: bool)
    | Int(i: int)
    | Float(r: real)
    | Str(s: string)
    | Bytes(bs: seq<byte>)
    | List(l: seq<Value>)
    | Dict(m: map<string, Value>)

  function ParseError(msg: string): PyException
  {
    PyException(Other("ParseException"), msg)
  }

  // ------------------------------------------------- Python's operators

  function TypeName(v: Value): string
  {
    match v
    case Null => "NoneType"
    case Bool(_) => "bool"
    case Int(_) => "int"
    case Float(_) => "float"
    case Str(_) => "str"
    case Bytes(_) => "bytes"
    case List(_) => "list"
    case Dict(_) => "dict"
  }

  /** len(v) */
  function Len(v: Value): (r: Outcome<int, PyException>)
    ensures r.Returned? <==> (v.Str? || v.Bytes? || v.List? || v.Dict?)
    ensures r.Returned? ==> r.value >= 0
  {
    match v
    case Str(s) => Returned(|s|)
    case Bytes(bs) => Returned(|bs|)
    case List(l) => Returned(|l|)
    case Dict(m) => Returned(|m|)
    case _ => Raised(Builtin("TypeError", "object of type '" + TypeName(v) + "' has no len()"))
  }

  /** `k in s` for strings: k occurs somewhere in s. */
  predicate IsSubstring(k: string, s: string)
    ensures IsSubstring(k, s) ==> |k| <= |s|
    decreases |s|
  {
    |k| <= |s| && (s[..|k|] == k || (|s| > 0 && IsSubstring(k, s[1..])))
  }

  /** `k in v` for a str key k */
  function Contains(k: string, v: Value): Outcome<bool, PyException>
  {
    match v
    case Dict(m) => Returned(k in m)
    case List(l) => Returned(Str(k) in l)
    case Str(s) => Returned(IsSubstring(k, s))
    case Bytes(_) => Raised(Builtin("TypeError", "a bytes-like object is required, not 'str'"))
    case _ => Raised(Builtin("TypeError", "argument of type '" + TypeName(v) + "' is not iterable"))
  }

  /** `v[k]` for a str key k */
  function Index(v: Value, k: string): (r: Outcome<Value, PyException>)
    ensures r.Returned? <==> v.Dict? && k in v.m
    ensures r.Returned? ==> r.value == v.m[k]
  {
    match v
    case Dict(m) => if k in m then Returned(m[k]) else Raised(Builtin("KeyError", k))
    case List(_) => Raised(Builtin("TypeError", "list indices must be integers or slices, not str"))
    case Str(_) => Raised(Builtin("TypeError", "string indices must be integers"))
    case Bytes(_) => Raised(Builtin("TypeError", "byte indices must be integers or slices, not str"))
    case _ => Raised(Builtin("TypeError", "'" + TypeName(v) + "' object is not subscriptable"))
  }

  /** `v == 0`: true for 0, False and 0.0 alike. */
  predicate IsZero(v: Value)
  {
    v == Int(0) || v == Bool(false) || v == Float(0.0)
  }

  /** isinstance(v, int): bool is a subclass of int. */
  predicate IsPyInt(v: Value)
  {
    v.Int? || v.Bool?
  }

  /** The integer value of an int or bool. */
  function IntValue(v: Value): int
    requires IsPyInt(v)
  {
    if v.Int? then v.i else if v.b then 1 else 0
  }

  /** str(v) where it is exactly modelled; other kinds are shown by type name only. */
  function Describe(v: Value): string
  {
    match v
    case Null => "None"
    case Bool(b) => if b then "True" else "False"
    case Int(i) => Decimal.ShowInt(i)
    case Str(s) => s
    case _ => "<" + TypeName(v) + ">"
  }

  // ------------------------------------------------------------ parsing

  /** An error message with one %s hole. */
  datatype Template = Template(before: string, after: string)

  function Format(t: Template, key: string): string
  {
    t.before + key + t.after
  }

  const FieldMissing := Template("Could not find '", "' field")
  const ErrorFieldMissing := Template("Could not find '", "' field in error")

  function ParamMissing(command: string): Template
  {
    Template("No ", " in " + command + " request params")
  }

  const IdZero := "ID cannot be zero in a request. It means \"Unknown ID\"."

  const Commands: set<string> := {"Scan", "GATTRead", "GATTSetNotify", "GATTWrite", "GATTConnect", "GATTDisconnect"}

  /** What check_exists raises when `k in obj` is not True. */
  function MissingKeyError(k: string, obj: Value, err: Template): PyException
  {
    if Contains(k, obj).Raised? then Contains(k, obj).error else ParseError(Format(err, k))
  }

  /**
   * check_exists: the first key that `in` reports missing raises
   * ParseException with that key in the message; a value that `in` cannot
   * search raises TypeError at the first key.
   */
  function CheckExists(keys: seq<string>, obj: Value, err: Template): (r: Outcome<(), PyException>)
    ensures r.Returned? <==> forall k :: k in keys ==> Contains(k, obj) == Returned(true)
    ensures r.Raised? ==>
              exists i :: 0 <= i < |keys| && Contains(keys[i], obj) != Returned(true)
                && r.error == MissingKeyError(keys[i], obj, err)
                && forall j :: 0 <= j < i ==> Contains(keys[j], obj) == Returned(true)
  {
    if keys == [] then Returned(())
    else if Contains(keys[0], obj) != Returned(true) then Raised(MissingKeyError(keys[0], obj, err))
    else
      var r := CheckExists(keys[1..], obj, err);
      assert forall k :: k in keys ==> k == keys[0] || k in keys[1..];
      assert r.Raised? ==> (exists i :: 1 <= i < |keys| && Contains(keys[i], obj) != Returned(true)
                             && r.error == MissingKeyError(keys[i], obj, err)
                             && forall j :: 1 <= j < i ==> Contains(keys[j], obj) == Returned(true)) by {
        if r.Raised? {
          var i :| 0 <= i < |keys[1..]| && Contains(keys[1..][i], obj) != Returned(true)
                && r.error == MissingKeyError(keys[1..][i], obj, err)
                && forall j :: 0 <= j < i ==> Contains(keys[1..][j], obj) == Returned(true);
          assert keys[i + 1] == keys[1..][i];
          assert forall j :: 1 <= j < i + 1 ==> keys[j] == keys[1..][j - 1];
        }
      }
      r
  }

  /** parse_Timeout: an int (or bool) no greater than 2**32. */
  function ParseTimeout(num: Value, msg: string): (r: Outcome<(), PyException>)
    ensures r.Returned? <==> IsPyInt(num) && IntValue(num) <= 0x1_0000_0000
  {
    if !IsPyInt(num) then Raised(ParseError(msg))
    else if IntValue(num) > 0x1_0000_0000 then Raised(ParseError("Timeout is too large"))
    else Returned(())
  }

  /** Look up each key in turn, as the parse_* calls' arguments do; the first failure wins. */
  function IndexAll(v: Value, keys: seq<string>): (r: Outcome<(), PyException>)
    ensures r.Returned? <==> forall k :: k in keys ==> Index(v, k).Returned?
  {
    if keys == [] then Returned(())
    else match Index(v, keys[0])
      case Raised(e) => Raised(e)
      case Returned(_) =>
        var r := IndexAll(v, keys[1..]);
        assert forall k :: k in keys ==> k == keys[0] || k in keys[1..];
        r
  }

  /** The params each command's check_exists asks for. */
  function CheckedParams(command: string): seq<string>
  {
    if command == "Scan" then ["Timeout"]
    else if command == "GATTRead" then ["MAC", "Char", "Len"]
    else if command == "GATTSetNotify" then ["MAC", "Char", "Enable"]
    else if command == "GATTWrite" then ["MAC", "Char", "Data", "RR"]
    else ["MAC"]
  }

  /** The params each command then looks up for its parse_* calls (RR is never looked up). */
  function LookedUpParams(command: string): seq<string>
  {
    if command == "GATTWrite" then ["MAC", "Char", "Data"] else CheckedParams(command)
  }

  /** The command named in the missing-param message: GATTDisconnect reuses GATTConnect's wording. */
  function MessageCommand(command: string): string
  {
    if command == "GATTDisconnect" then "GATTConnect" else command
  }

  /** The per-command params check of parse_req. */
  function ParseParams(command: string, params: Value): Outcome<(), PyException>
    requires command in Commands
  {
    match CheckExists(CheckedParams(command), params, ParamMissing(MessageCommand(command)))
    case Raised(e) => Raised(e)
    case Returned(_) =>
      if command == "Scan" then
        match Index(params, "Timeout")
        case Raised(e) => Raised(e)
        case Returned(t) => ParseTimeout(t, "Timeout is not an integer")
      else IndexAll(params, LookedUpParams(command))
  }

  /** parse_req; a successful parse hands the request back unchanged. */
  function ParseReq(obj: map<string, Value>): (r: Outcome<Value, PyException>)
    ensures r.Returned? ==> r.value == Dict(obj)
  {
    if |obj| > 4 then Raised(ParseError("Too many fields in request"))
    else match CheckExists(["id", "command", "params"], Dict(obj), FieldMissing)
      case Raised(e) => Raised(e)
      case Returned(_) =>
        assert Contains("command", Dict(obj)) == Returned(true);
        assert Contains("id", Dict(obj)) == Returned(true);
        assert Contains("params", Dict(obj)) == Returned(true);
        var command := obj["command"];
        if !(command.Str? && command.s in Commands) then Raised(ParseError("Unrecognized command: " + Describe(command)))
        else if IsZero(obj["id"]) then Raised(ParseError(IdZero))
        else match ParseParams(command.s, obj["params"])
          case Raised(e) => Raised(e)
          case Returned(_) => Returned(Dict(obj))
  }

  /** parse_resp; the results field is not examined. */
  function ParseResp(resp: map<string, Value>): (r: Outcome<Value, PyException>)
    ensures r.Returned? ==> r.value == Dict(resp)
  {
    if |resp| > 4 then Raised(ParseError("Too many fields in response"))
    else match CheckExists(["id", "error", "results"], Dict(resp), FieldMissing)
      case Raised(e) => Raised(e)
      case Returned(_) =>
        assert Contains("id", Dict(resp)) == Returned(true);
        assert Contains("error", Dict(resp)) == Returned(true);
        if IsZero(resp["id"]) then Raised(ParseError(IdZero))
        else
          var error := resp["error"];
          match Len(error)
          case Raised(e) => Raised(e)
          case Returned(n) =>
            if n > 2 then Raised(ParseError("Too many fields in error"))
            else match CheckExists(["eid", "errmsg"], error, ErrorFieldMissing)
              case Raised(e) => Raised(e)
              case Returned(_) => Returned(Dict(resp))
  }

  /** parse_obj: the entry point for everything a client sends. */
  function ParseObj(obj: Value): (r: Outcome<Value, PyException>)
    ensures r.Returned? ==> r.value == obj
  {
    match Len(obj)
    case Raised(e) => Raised(e)
    case Returned(n) =>
      if n > 4 then Raised(ParseError("Too many fields in input"))
      else match CheckExists(["type"], obj, FieldMissing)
        case Raised(e) => Raised(e)
        case Returned(_) =>
          match Index(obj, "type")
          case Raised(e) => Raised(e)
          case Returned(otype) =>
            if otype == Str("REQ") then ParseReq(obj.m)
            else if otype == Str("RESP") then ParseResp(obj.m)
            else Raised(ParseError("Unknown type: " + Describe(otype)))
  }

  // ------------------------------------------ what the validator accepts

  function RequiredParams(command: string): set<string>
  {
    if command == "Scan" then {"Timeout"}
    else if command == "GATTRead" then {"MAC", "Char", "Len"}
    else if command == "GATTSetNotify" then {"MAC", "Char", "Enable"}
    else if command == "GATTWrite" then {"MAC", "Char", "Data", "RR"}
    else {"MAC"}
  }

  predicate ParamsOk(command: string, params: Value)
  {
    && params.Dict?
    && RequiredParams(command) <= params.m.Keys
    && (command == "Scan" ==> IsPyInt(params.m["Timeout"]) && IntValue(params.m["Timeout"]) <= 0x1_0000_0000)
  }

  /** A request: at most four fields including id, command and params; a known command; a non-zero id; its params. */
  predicate ReqOk(m: map<string, Value>)
  {
    && |m| <= 4
    && "id" in m && "command" in m && "params" in m
    && m["command"].Str? && m["command"].s in Commands
    && !IsZero(m["id"])
    && ParamsOk(m["command"].s, m["params"])
  }

  /**
   * The error field passes when it has exactly the keys eid and errmsg, or
   * when it is a list of at most two items containing both strings.
   */
  predicate ErrorOk(e: Value)
  {
    || (e.Dict? && |e.m| <= 2 && "eid" in e.m && "errmsg" in e.m)
    || (e.List? && |e.l| <= 2 && Str("eid") in e.l && Str("errmsg") in e.l)
  }

  predicate RespOk(m: map<string, Value>)
  {
    && |m| <= 4
    && "id" in m && "error" in m && "results" in m
    && !IsZero(m["id"])
    && ErrorOk(m["error"])
  }

  predicate Accepted(v: Value)
  {
    && v.Dict? && "type" in v.m
    && ((v.m["type"] == Str("REQ") && ReqOk(v.m)) || (v.m["type"] == Str("RESP") && RespOk(v.m)))
  }

  lemma CheckExistsDict(keys: seq<string>, m: map<string, Value>, err: Template)
    ensures CheckExists(keys, Dict(m), err).Returned? <==> forall k :: k in keys ==> k in m
  {
  }

  lemma IndexAllDict(keys: seq<string>, m: map<string, Value>)
    ensures IndexAll(Dict(m), keys).Returned? <==> forall k :: k in keys ==> k in m
  {
  }

  /** Every key check passed but a value is not a dict: some later lookup fails. */
  lemma IndexAllNonDict(keys: seq<string>, v: Value)
    requires |keys| > 0 && !v.Dict?
    ensures IndexAll(v, keys).Raised?
  {
    assert !Index(v, keys[0]).Returned?;
  }

  lemma ParseParamsSpec(command: string, params: Value)
    requires command in Commands
    ensures ParseParams(command, params).Returned? <==> ParamsOk(command, params)
  {
    var keys := CheckedParams(command);
    assert forall k :: k in keys <==> k in RequiredParams(command);
    assert forall k :: k in LookedUpParams(command) ==> k in keys;
    if params.Dict? {
      CheckExistsDict(keys, params.m, ParamMissing(MessageCommand(command)));
      IndexAllDict(LookedUpParams(command), params.m);
    } else if command != "Scan" {
      IndexAllNonDict(LookedUpParams(command), params);
    }
  }

  /** parse_req accepts exactly the well-formed requests. */
  lemma ParseReqSpec(m: map<string, Value>)
    ensures ParseReq(m).Returned? <==> ReqOk(m)
  {
    if |m| <= 4 {
      CheckExistsDict(["id", "command", "params"], m, FieldMissing);
      if "id" in m && "command" in m && "params" in m && m["command"].Str? && m["command"].s in Commands {
        ParseReqOnHeader(m);
        ParseParamsSpec(m["command"].s, m["params"]);
      }
    }
  }

  lemma ErrorCheckSpec(e: Value)
    ensures (Len(e).Returned? && Len(e).value <= 2 && CheckExists(["eid", "errmsg"], e, ErrorFieldMissing).Returned?)
            <==> ErrorOk(e)
  {
    if e.Dict? {
      CheckExistsDict(["eid", "errmsg"], e.m, ErrorFieldMissing);
    }
  }

  /** parse_resp accepts exactly the well-formed responses. */
  lemma ParseRespSpec(m: map<string, Value>)
    ensures ParseResp(m).Returned? <==> RespOk(m)
  {
    CheckExistsDict(["id", "error", "results"], m, FieldMissing);
    if "error" in m {
      ErrorCheckSpec(m["error"]);
    }
  }

  /** parse_obj accepts exactly the well-formed requests and responses, and hands them back unchanged. */
  lemma ParseObjSpec(v: Value)
    ensures ParseObj(v).Returned? <==> Accepted(v)
    ensures ParseObj(v).Returned? ==> ParseObj(v).value == v
  {
    if v.Dict? {
      CheckExistsDict(["type"], v.m, FieldMissing);
      ParseReqSpec(v.m);
      ParseRespSpec(v.m);
    }
  }

  /** An accepted request has exactly the four fields type, id, command and params. */
  lemma AcceptedRequestFields(v: Value)
    requires Accepted(v) && v.m["type"] == Str("REQ")
    ensures v.m.Keys == {"type", "id", "command", "params"}
  {
    var k := {"type", "id", "command", "params"};
    assert k <= v.m.Keys;
    SubsetOfSameSize(k, v.m.Keys);
  }

  /** An accepted response has exactly the four fields type, id, error and results: never params. */
  lemma AcceptedResponseFields(v: Value)
    requires Accepted(v) && v.m["type"] == Str("RESP")
    ensures v.m.Keys == {"type", "id", "error", "results"}
    ensures "params" !in v.m
  {
    var k := {"type", "id", "error", "results"};
    assert k <= v.m.Keys;
    SubsetOfSameSize(k, v.m.Keys);
  }

  lemma {:induction false} SubsetSmaller<T>(a: set<T>, b: set<T>)
    requires a <= b
    ensures |a| <= |b|
    decreases a
  {
    if a != {} {
      var x :| x in a;
      SubsetSmaller(a - {x}, b - {x});
    }
  }

  lemma SubsetOfSameSize<T>(a: set<T>, b: set<T>)
    requires a <= b && |b| <= |a|
    ensures a == b
  {
    if a != b {
      var x :| x in b && x !in a;
      SubsetSmaller(a, b - {x});
    }
  }

  // ------------------------------------------------------- constructors

  function MakeReq(command: string, rid: int, params: Value): (r: Value)
    ensures r.Dict? && r.m.Keys == {"type", "command", "params", "id"}
    ensures r.m["type"] == Str("REQ") && r.m["command"] == Str(command) && r.m["params"] == params && r.m["id"] == Int(rid)
  {
    Dict(map["type" := Str("REQ"), "command" := Str(command), "params" := params, "id" := Int(rid)])
  }

  function MakeError(eid: int, errmsg: string): (r: Value)
    ensures r.Dict? && r.m.Keys == {"eid", "errmsg"} && r.m["eid"] == Int(eid) && r.m["errmsg"] == Str(errmsg)
  {
    Dict(map["eid" := Int(eid), "errmsg" := Str(errmsg)])
  }

  function MakeResp(rid: int, error: Value, results: Value): (r: Value)
    ensures r.Dict? && r.m.Keys == {"type", "id", "error", "results"}
    ensures r.m["type"] == Str("RESP") && r.m["id"] == Int(rid) && r.m["error"] == error && r.m["results"] == results
  {
    Dict(map["type" := Str("RESP"), "id" := Int(rid), "error" := error, "results" := results])
  }

  function MakeUpdate(uid: int, updatetype: string, results: Value): (r: Value)
    ensures r.Dict? && r.m.Keys == {"type", "id", "update", "results"}
    ensures r.m["type"] == Str("UPDATE") && r.m["id"] == Int(uid) && r.m["update"] == Str(updatetype) && r.m["results"] == results
  {
    Dict(map["type" := Str("UPDATE"), "id" := Int(uid), "update" := Str(updatetype), "results" := results])
  }

  function MakeScan(timeout: int, rid: int): Value
  {
    MakeReq("Scan", rid, Dict(map["Timeout" := Int(timeout)]))
  }

  function Strs(xs: seq<string>): (r: seq<Value>)
    ensures |r| == |xs| && forall i :: 0 <= i < |xs| ==> r[i] == Str(xs[i])
  {
    if xs == [] then [] else [Str(xs[0])] + Strs(xs[1..])
  }

  function MakeConnectionState(uid: int, mac: string, state: GattTypes.GATTCState, uuids: seq<string>): Value
  {
    MakeUpdate(uid, "ConnectionState",
      Dict(map["CState" := Str(GattTypes.Name(state)), "MAC" := Str(mac), "UUIDs" := List(Strs(uuids))]))
  }

  function MakeGATTWrite(rid: int, mac: string, chr: string, data: seq<byte>, requireresponse: bool): Value
  {
    MakeReq("GATTWrite", rid,
      Dict(map["MAC" := Str(mac), "Char" := Str(chr), "Data" := Bytes(data), "RR" := Bool(requireresponse)]))
  }

  function MakeGATTRead(rid: int, mac: string, chr: string, rlen: int): Value
  {
    MakeReq("GATTRead", rid, Dict(map["MAC" := Str(mac), "Char" := Str(chr), "Len" := Int(rlen)]))
  }

  function MakeGATTConnect(rid: int, mac: string): Value
  {
    MakeReq("GATTConnect", rid, Dict(map["MAC" := Str(mac)]))
  }

  function MakeGATTDisconnect(rid: int, mac: string): Value
  {
    MakeReq("GATTDisconnect", rid, Dict(map["MAC" := Str(mac)]))
  }

  function MakeUpdateFromBLEScanResult(uid: int, scanresult: ScanResults.BLEScanResult): Value
  {
    MakeUpdate(uid, "ScanResult",
      Dict(map["MAC" := Str(scanresult.MAC), "Name" := Str(scanresult.name), "UUIDs" := List(Strs(scanresult.uuids))]))
  }

  function MakeExecutionError(uid: int, eid: int, error: string): Value
  {
    MakeUpdate(uid, "ExecutionError", MakeError(eid, error))
  }

  // ------------------------------------------------------- round trips

  /** The guard steps parse_obj takes on a small dict that has a type. */
  lemma ParseObjOnDict(m: map<string, Value>)
    requires |m| <= 4 && "type" in m
    ensures ParseObj(Dict(m)) == (if m["type"] == Str("REQ") then ParseReq(m)
                                  else if m["type"] == Str("RESP") then ParseResp(m)
                                  else Raised(ParseError("Unknown type: " + Describe(m["type"]))))
  {
    CheckExistsDict(["type"], m, FieldMissing);
  }

  /** The guard steps parse_req takes once id, command and params are present and the command is known. */
  lemma ParseReqOnHeader(m: map<string, Value>)
    requires |m| <= 4 && "id" in m && "command" in m && "params" in m
    requires m["command"].Str? && m["command"].s in Commands
    ensures ParseReq(m) == (if IsZero(m["id"]) then Raised(ParseError(IdZero))
                            else if ParseParams(m["command"].s, m["params"]).Raised?
                            then Raised(ParseParams(m["command"].s, m["params"]).error)
                            else Returned(Dict(m)))
  {
    CheckExistsDict(["id", "command", "params"], m, FieldMissing);
  }

  lemma RequestSize(command: string, rid: int, params: Value)
    ensures |MakeReq(command, rid, params).m| == 4
  {
    var m := MakeReq(command, rid, params).m;
    assert m.Keys == {"type", "command", "params", "id"};
  }

  /** Any request built by make_req with a known command and good params passes exactly when rid is not zero. */
  lemma MakeReqRoundTrip(command: string, rid: int, params: Value)
    requires command in Commands && ParamsOk(command, params)
    ensures ParseObj(MakeReq(command, rid, params))
         == (if rid != 0 then Returned(MakeReq(command, rid, params)) else Raised(ParseError(IdZero)))
  {
    var v := MakeReq(command, rid, params);
    RequestSize(command, rid, params);
    ParseObjOnDict(v.m);
    ParseReqOnHeader(v.m);
    ParseParamsSpec(command, params);
  }

  /** A constructed request goes through parse_obj unchanged exactly when its id is not zero. */
  lemma GATTReadRoundTrip(rid: int, mac: string, chr: string, rlen: int)
    ensures ParseObj(MakeGATTRead(rid, mac, chr, rlen))
         == (if rid != 0 then Returned(MakeGATTRead(rid, mac, chr, rlen)) else Raised(ParseError(IdZero)))
  {
    MakeReqRoundTrip("GATTRead", rid, Dict(map["MAC" := Str(mac), "Char" := Str(chr), "Len" := Int(rlen)]));
  }

  lemma GATTWriteRoundTrip(rid: int, mac: string, chr: string, data: seq<byte>, rr: bool)
    ensures ParseObj(MakeGATTWrite(rid, mac, chr, data, rr))
         == (if rid != 0 then Returned(MakeGATTWrite(rid, mac, chr, data, rr)) else Raised(ParseError(IdZero)))
  {
    MakeReqRoundTrip("GATTWrite", rid,
      Dict(map["MAC" := Str(mac), "Char" := Str(chr), "Data" := Bytes(data), "RR" := Bool(rr)]));
  }

  lemma GATTConnectRoundTrip(rid: int, mac: string)
    ensures ParseObj(MakeGATTConnect(rid, mac))
         == (if rid != 0 then Returned(MakeGATTConnect(rid, mac)) else Raised(ParseError(IdZero)))
  {
    MakeReqRoundTrip("GATTConnect", rid, Dict(map["MAC" := Str(mac)]));
  }

  lemma GATTDisconnectRoundTrip(rid: int, mac: string)
    ensures ParseObj(MakeGATTDisconnect(rid, mac))
         == (if rid != 0 then Returned(MakeGATTDisconnect(rid, mac)) else Raised(ParseError(IdZero)))
  {
    MakeReqRoundTrip("GATTDisconnect", rid, Dict(map["MAC" := Str(mac)]));
  }

  /** A constructed Scan request is accepted exactly when its id is non-zero and its timeout at most 2**32. */
  lemma ScanRoundTrip(timeout: int, rid: int)
    ensures ParseObj(MakeScan(timeout, rid)).Returned? <==> rid != 0 && timeout <= 0x1_0000_0000
    ensures ParseObj(MakeScan(timeout, rid)).Returned? ==> ParseObj(MakeScan(timeout, rid)).value == MakeScan(timeout, rid)
  {
    ParseObjSpec(MakeScan(timeout, rid));
  }

  /** A response built around make_error is accepted exactly when its id is not zero. */
  lemma RespRoundTrip(rid: int, eid: int, errmsg: string, results: Value)
    ensures ParseObj(MakeResp(rid, MakeError(eid, errmsg), results)).Returned? <==> rid != 0
  {
    ParseObjSpec(MakeResp(rid, MakeError(eid, errmsg), results));
  }

  /** Updates go from server to client only: parse_obj rejects every one. */
  lemma UpdatesRejected(uid: int, updatetype: string, results: Value)
    ensures ParseObj(MakeUpdate(uid, updatetype, results)) == Raised(ParseError("Unknown type: UPDATE"))
  {
    var v := MakeUpdate(uid, updatetype, results);
    assert v.m.Keys == {"type", "id", "update", "results"};
    assert |v.m| == 4;
    ParseObjOnDict(v.m);
    assert v.m["type"] == Str("UPDATE");
    assert "Unknown type: " + Describe(Str("UPDATE")) == "Unknown type: UPDATE";
  }

  /** The server's own updates (connection state, scan result, execution error) are never accepted as input. */
  lemma ServerUpdatesRejected(uid: int, mac: string, state: GattTypes.GATTCState, uuids: seq<string>,
                              scanresult: ScanResults.BLEScanResult, eid: int, error: string)
    ensures ParseObj(MakeConnectionState(uid, mac, state, uuids)) == Raised(ParseError("Unknown type: UPDATE"))
    ensures ParseObj(MakeUpdateFromBLEScanResult(uid, scanresult)) == Raised(ParseError("Unknown type: UPDATE"))
    ensures ParseObj(MakeExecutionError(uid, eid, error)) == Raised(ParseError("Unknown type: UPDATE"))
  {
    UpdatesRejected(uid, "ConnectionState",
      Dict(map["CState" := Str(GattTypes.Name(state)), "MAC" := Str(mac), "UUIDs" := List(Strs(uuids))]));
    UpdatesRejected(uid, "ScanResult",
      Dict(map["MAC" := Str(scanresult.MAC), "Name" := Str(scanresult.name), "UUIDs" := List(Strs(scanresult.uuids))]));
    UpdatesRejected(uid, "ExecutionError", MakeError(eid, error));
  }

  /**
   * A GATTDisconnect request without a MAC is reported with the GATTConnect
   * wording, not with a message naming GATTDisconnect.
   */
  lemma DisconnectWithoutMacMessage(rid: int)
    requires rid != 0
    ensures ParseObj(MakeReq("GATTDisconnect", rid, Dict(map[])))
         == Raised(ParseError(Format(ParamMissing("GATTConnect"), "MAC")))
    ensures Format(ParamMissing("GATTConnect"), "MAC") != Format(ParamMissing("GATTDisconnect"), "MAC")
  {
    var v := MakeReq("GATTDisconnect", rid, Dict(map[]));
    RequestSize("GATTDisconnect", rid, Dict(map[]));
    ParseObjOnDict(v.m);
    ParseReqOnHeader(v.m);
    assert Contains("MAC", Dict(map[])) == Returned(false);
    assert |Format(ParamMissing("GATTConnect"), "MAC")| != |Format(ParamMissing("GATTDisconnect"), "MAC")|;
  }
}
