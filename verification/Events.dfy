// Events, resources and their JSON form: common/proto/event.go, runtime/types.go, and the
// field-by-field decoders of runtime/statestore.go and plugins/persist/persist.go.
module Events {
  import opened Wrappers
  import opened Keys

  /** Integers that survive the trip through a float64. */
  type JsonInt = n: int | -0x20_0000_0000_0000 <= n <= 0x20_0000_0000_0000

  datatype Json =
    | JNull
    | JBool(b: bool)
    | JNum(n: JsonInt)
    | JStr(s: string)
    | JArr(items: seq<Json>)
    | JObj(fields: map<string, Json>)

  /** ProxyState, and field for field ProxyDesiredState. */
  datatype Proxy = Proxy(
    clientID: string, remotePort: JsonInt, localPort: JsonInt, localIP: string, protocol: string, bindAddr: string)
  {
    function Key(): string { ProxyKey(clientID, remotePort) }

    /** What restoring and reconciling accept. */
    predicate Valid() { clientID != "" && remotePort != 0 }
  }

  /** RelayDesiredState: the persisted part of a relay session. */
  datatype Relay = Relay(
    id: string, sourceClient: string, targetClient: string, protocol: string, sourcePort: JsonInt,
    targetPort: JsonInt, targetLocalIP: string, sourceLocalIP: string, token: string)

  datatype RelaySession = RelaySession(spec: Relay, createdAt: string, status: string, error: string)

  datatype Payload =
    | NoPayload
    | ProxyPayload(proxy: Proxy)
    | RelayPayload(session: RelaySession)
    | JsonPayload(json: Json)

  datatype EventType = Added | Modified | Deleted

  datatype Event = Event(
    id: string, sequence: int, timestamp: int, resource: ResourceKey, etype: EventType, payload: Payload)

  const CLIENT := "client"
  const PROXY := "proxy"
  const RELAY := "relay"
  const DEFAULT := "default"

  function DefaultKey(rtype: string, name: string): ResourceKey { ResourceKey(rtype, DEFAULT, name) }

  // ---------------------------------------------------------------- decoding

  function StrField(m: map<string, Json>, k: string): string {
    if k in m && m[k].JStr? then m[k].s else ""
  }

  function NumField(m: map<string, Json>, k: string): JsonInt {
    if k in m && m[k].JNum? then m[k].n else 0
  }

  function ProxyFromJson(m: map<string, Json>): Proxy {
    Proxy(StrField(m, "client_id"), NumField(m, "remote_port"), NumField(m, "local_port"),
          StrField(m, "local_ip"), StrField(m, "protocol"), StrField(m, "bind_addr"))
  }

  function RelayFromJson(m: map<string, Json>, id: string): Relay {
    Relay(id, StrField(m, "source_client"), StrField(m, "target_client"), StrField(m, "protocol"),
          NumField(m, "source_port"), NumField(m, "target_port"),
          StrField(m, "target_local_ip"), StrField(m, "source_local_ip"), StrField(m, "token"))
  }

  /** Restore accepts "id" and falls back to "session_id"; parseRelay reads "session_id" only. */
  function RestoredRelay(m: map<string, Json>): Relay {
    RelayFromJson(m, if "id" in m && m["id"].JStr? then m["id"].s else StrField(m, "session_id"))
  }

  function ParsedRelay(m: map<string, Json>): Relay {
    RelayFromJson(m, StrField(m, "session_id"))
  }

  /** parseProxyFromPayload */
  function ProxyOf(payload: Payload): Option<Proxy> {
    match payload
    case ProxyPayload(p) => Some(p)
    case JsonPayload(JObj(m)) => Some(ProxyFromJson(m))
    case _ => None
  }

  function Text(v: Json): string { if v.JStr? then v.s else "" }

  function Numeral(v: Json): JsonInt { if v.JNum? then v.n else 0 }

  /**
   * Which field of a stored proxy each name sets, and that a value of the wrong type counts as absent;
   * starting from no fields, this determines the decoder.
   */
  lemma ProxyFieldSet(m: map<string, Json>, k: string, v: Json)
    ensures ProxyFromJson(map[]) == Proxy("", 0, 0, "", "", "")
    ensures var p, q := ProxyFromJson(m), ProxyFromJson(m[k := v]);
            && q.clientID == (if k == "client_id" then Text(v) else p.clientID)
            && q.remotePort == (if k == "remote_port" then Numeral(v) else p.remotePort)
            && q.localPort == (if k == "local_port" then Numeral(v) else p.localPort)
            && q.localIP == (if k == "local_ip" then Text(v) else p.localIP)
            && q.protocol == (if k == "protocol" then Text(v) else p.protocol)
            && q.bindAddr == (if k == "bind_addr" then Text(v) else p.bindAddr)
  {}

  lemma RelayFieldSet(m: map<string, Json>, id: string, k: string, v: Json)
    ensures RelayFromJson(map[], id) == Relay(id, "", "", "", 0, 0, "", "", "")
    ensures var r, q := RelayFromJson(m, id), RelayFromJson(m[k := v], id);
            && q.id == id
            && q.sourceClient == (if k == "source_client" then Text(v) else r.sourceClient)
            && q.targetClient == (if k == "target_client" then Text(v) else r.targetClient)
            && q.protocol == (if k == "protocol" then Text(v) else r.protocol)
            && q.sourcePort == (if k == "source_port" then Numeral(v) else r.sourcePort)
            && q.targetPort == (if k == "target_port" then Numeral(v) else r.targetPort)
            && q.targetLocalIP == (if k == "target_local_ip" then Text(v) else r.targetLocalIP)
            && q.sourceLocalIP == (if k == "source_local_ip" then Text(v) else r.sourceLocalIP)
            && q.token == (if k == "token" then Text(v) else r.token)
  {}

  /** The restorer prefers a textual "id" to "session_id"; the parser does not know "id". */
  lemma RelayIdRead(m: map<string, Json>)
    ensures ParsedRelay(m) == RelayFromJson(m, if "session_id" in m then Text(m["session_id"]) else "")
    ensures RestoredRelay(m) == if "id" in m && m["id"].JStr? then RelayFromJson(m, m["id"].s) else ParsedRelay(m)
  {}

  // ---------------------------------------------------------------- encoding

  function ProxyToJson(p: Proxy): Json {
    JObj(map["client_id" := JStr(p.clientID), "remote_port" := JNum(p.remotePort), "local_port" := JNum(p.localPort),
             "local_ip" := JStr(p.localIP), "protocol" := JStr(p.protocol), "bind_addr" := JStr(p.bindAddr)])
  }

  function OmitEmpty(k: string, v: string): map<string, Json> {
    if v == "" then map[] else map[k := JStr(v)]
  }

  function RelayFields(r: Relay, idName: string): map<string, Json> {
    map[idName := JStr(r.id), "source_client" := JStr(r.sourceClient), "target_client" := JStr(r.targetClient),
        "protocol" := JStr(r.protocol), "source_port" := JNum(r.sourcePort), "target_port" := JNum(r.targetPort),
        "target_local_ip" := JStr(r.targetLocalIP), "source_local_ip" := JStr(r.sourceLocalIP)]
    + OmitEmpty("token", r.token)
  }

  function SessionToJson(s: RelaySession): Json {
    JObj(RelayFields(s.spec, "session_id") + SessionExtra(s))
  }

  function SessionExtra(s: RelaySession): map<string, Json> {
    map["created_at" := JStr(s.createdAt), "status" := JStr(s.status)] + OmitEmpty("error", s.error)
  }

  function RelayToJson(r: Relay): Json { JObj(RelayFields(r, "id")) }

  /** A stored resource after it has been written to disk and read back. */
  function PayloadToJson(p: Payload): Json {
    match p
    case NoPayload => JNull
    case ProxyPayload(proxy) => ProxyToJson(proxy)
    case RelayPayload(session) => SessionToJson(session)
    case JsonPayload(j) => j
  }

  lemma ProxyJsonRoundTrip(p: Proxy)
    ensures ProxyFromJson(ProxyToJson(p).fields) == p
  {}

  lemma RelayFieldsRoundTrip(r: Relay, idName: string)
    requires idName == "id" || idName == "session_id"
    ensures RelayFromJson(RelayFields(r, idName), r.id) == r
    ensures StrField(RelayFields(r, idName), idName) == r.id
    ensures "id" in RelayFields(r, idName) <==> idName == "id"
    ensures "token" in RelayFields(r, idName) <==> r.token != ""
  {
    assert "token" in RelayFields(r, idName) <==> r.token != "";
  }

  predicate RelayFieldName(k: string) {
    k in {"id", "session_id", "source_client", "target_client", "protocol", "source_port", "target_port",
          "target_local_ip", "source_local_ip", "token"}
  }

  /** Fields with other names do not disturb the decoders. */
  lemma OtherFieldsIgnored(m: map<string, Json>, extra: map<string, Json>)
    requires forall k :: k in extra ==> !RelayFieldName(k)
    ensures ParsedRelay(m + extra) == ParsedRelay(m) && RestoredRelay(m + extra) == RestoredRelay(m)
  {
    assert forall k :: RelayFieldName(k) ==> StrField(m + extra, k) == StrField(m, k);
    assert forall k :: RelayFieldName(k) ==> NumField(m + extra, k) == NumField(m, k);
  }

  /** Writing a session to disk keeps every persisted field, under either decoder. */
  lemma SessionJsonRoundTrip(s: RelaySession)
    ensures ParsedRelay(SessionToJson(s).fields) == s.spec
    ensures RestoredRelay(SessionToJson(s).fields) == s.spec
  {
    var m := RelayFields(s.spec, "session_id");
    var extra := SessionExtra(s);
    RelayFieldsRoundTrip(s.spec, "session_id");
    OtherFieldsIgnored(m, extra);
  }

  lemma RelayJsonRoundTrip(r: Relay)
    ensures RestoredRelay(RelayToJson(r).fields) == r
  {
    RelayFieldsRoundTrip(r, "id");
  }

  /** Decoding a payload before and after its trip through the disk gives the same proxy. */
  lemma PayloadJsonRoundTrip(p: Payload)
    requires ProxyOf(p).Some?
    ensures PayloadToJson(p).JObj? && Some(ProxyFromJson(PayloadToJson(p).fields)) == ProxyOf(p)
  {}
}
