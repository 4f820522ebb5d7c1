/**
 * The tenant registry of the background service: the snapshot of registered
 * clients keyed by API key, token and name lookup, the periodic wholesale
 * refresh, and the per-client webhook decisions of a message broadcast,
 * including the removal of clients whose webhook answers 502 Bad Gateway.
 */
module Registry {
  import opened Wrappers
  import opened Text
  import opened Models

  const BadGateway: int := 502

  /** No two rows share an API key. */
  predicate DistinctKeys(rows: seq<Client>) {
    forall i, j :: 0 <= i < j < |rows| ==> rows[i].apiKey != rows[j].apiKey
  }

  /** The API keys of a list of client rows. */
  function ApiKeys(rows: seq<Client>): set<string> {
    set i | 0 <= i < |rows| :: rows[i].apiKey
  }

  /**
   * `ToDictionary(c => c.ApiKey)`: inserts the rows in order and fails (throws)
   * on the first key that is already present.
   */
  function ToDictionary(rows: seq<Client>): (d: Option<map<string, Client>>)
    ensures d.Some? <==> DistinctKeys(rows)
    ensures d.Some? ==> d.value.Keys == ApiKeys(rows)
    ensures d.Some? ==> forall i :: 0 <= i < |rows| ==> d.value[rows[i].apiKey] == rows[i]
  {
    if rows == [] then Some(map[])
    else
      var init, last := rows[..|rows| - 1], rows[|rows| - 1];
      assert forall i :: 0 <= i < |init| ==> init[i] == rows[i];
      assert ApiKeys(rows) == ApiKeys(init) + {last.apiKey} by {
        forall k | k in ApiKeys(rows) ensures k in ApiKeys(init) + {last.apiKey} {
          var i :| 0 <= i < |rows| && rows[i].apiKey == k;
          if i < |init| { assert init[i].apiKey == k; }
        }
      }
      match ToDictionary(init)
      case None => None
      case Some(d) =>
        if last.apiKey in d then
          var i :| 0 <= i < |init| && init[i].apiKey == last.apiKey;
          assert rows[i].apiKey == rows[|rows| - 1].apiKey;
          None
        else
          Some(d[last.apiKey := last])
  }

  /** A message as `JsonConvert.SerializeObject` writes it. */
  datatype MessageJson = MessageJson(uuid: string, name: string, message: string, clientName: Option<string>)

  /** The body of a webhook request: the whole message, or the reduced shape tfm clients get. */
  datatype Payload =
    | Full(json: MessageJson)
    | Reduced(uuid: string, isPremium: bool, message: string, apiKey: string)

  /** One POST to a client's webhook with its `Authorization` header. */
  datatype Delivery = Delivery(url: string, authorization: string, body: Payload)

  /**
   * The anti-evasion filter for tfm clients: the lower-cased text, passed through
   * the leetspeak normaliser `leet` and reduced to letters a-z, holds a slur.
   */
  predicate IsSlur(text: string, leet: string -> string) {
    var letters := LettersOnly(leet(Lower(text)));
    Contains(letters, "kys") || Contains(letters, "fag") || Contains(letters, "retard")
  }

  /**
   * What one client receives for message `m`, or `None` when nothing is sent.
   * A null client name on the message makes the `Contains` call throw inside that
   * client's task, so that client receives nothing either. A client without a
   * webhook gets a request with no URI, which `SendAsync` refuses before
   * anything is sent; a client without a webhook auth value makes the
   * validating `Headers.Add("Authorization", ...)` throw, also before sending.
   */
  function WebhookFor(c: Client, m: MessageJson, leet: string -> string): (r: Option<Delivery>)
    ensures r.Some? ==> r.value.url == c.webHook && r.value.url != "" && r.value.authorization == c.webhookAuth
    ensures r.None? <==>
      || c.webHook == ""
      || c.webhookAuth == ""
      || (Contains(c.name, "tfm")
          && (m.clientName.None? || Contains(m.clientName.value, "tfm") || IsSlur(m.message, leet)))
    ensures r.Some? && !Contains(c.name, "tfm") ==> r.value.body == Full(m)
    ensures r.Some? && Contains(c.name, "tfm") ==> r.value.body == Reduced(m.uuid, true, m.message, c.webhookAuth)
  {
    var body :=
      if Contains(c.name, "tfm") then
        match m.clientName
        case None => None
        case Some(sender) =>
          if Contains(sender, "tfm") || IsSlur(m.message, leet) then None
          else Some(Reduced(m.uuid, true, m.message, c.webhookAuth))
      else
        Some(Full(m));
    if body.None? || c.webHook == "" || c.webhookAuth == "" then None
    else Some(Delivery(c.webHook, c.webhookAuth, body.value))
  }

  /** The text a payload carries. */
  function PayloadText(p: Payload): string {
    match p
    case Full(json) => json.message
    case Reduced(_, _, message, _) => message
  }

  /** The deliveries made to the registry entries under `keys`, keyed by API key. */
  function Outgoing(registry: map<string, Client>, keys: set<string>, m: MessageJson, leet: string -> string)
    : map<string, Delivery>
  {
    map k | k in keys && k in registry && WebhookFor(registry[k], m, leet).Some? :: WebhookFor(registry[k], m, leet).value
  }

  /** The keys whose delivery was answered with 502 Bad Gateway. */
  function Unreachable(registry: map<string, Client>, sent: map<string, Delivery>, status: Client -> int): set<string> {
    set k | k in sent && k in registry && status(registry[k]) == BadGateway
  }

  /** After stripping, no delivered payload carries a formatting code. */
  lemma DeliveredTextIsStripped(c: Client, m: MessageJson, leet: string -> string, raw: string)
    requires m.message == StripFormatting(raw)
    requires WebhookFor(c, m, leet).Some?
    ensures NoFormattingCode(PayloadText(WebhookFor(c, m, leet).value.body))
  {
    StripLeavesNoCode(raw);
  }

  /** A client with a webhook and its auth value that is not a tfm client receives every message in full. */
  lemma OrdinaryClientsReceiveAll(registry: map<string, Client>, m: MessageJson, leet: string -> string, k: string)
    requires k in registry && !Contains(registry[k].name, "tfm")
    requires registry[k].webHook != "" && registry[k].webhookAuth != ""
    ensures k in Outgoing(registry, registry.Keys, m, leet)
    ensures Outgoing(registry, registry.Keys, m, leet)[k] == Delivery(registry[k].webHook, registry[k].webhookAuth, Full(m))
  {
  }

  /**
   * A client without a webhook or without a webhook auth value is sent nothing,
   * and so can never answer 502 and never leaves the registry through a broadcast.
   */
  lemma HooklessClientsUntouched(registry: map<string, Client>, m: MessageJson, leet: string -> string,
                                 status: Client -> int, k: string)
    requires k in registry && (registry[k].webHook == "" || registry[k].webhookAuth == "")
    ensures k !in Outgoing(registry, registry.Keys, m, leet)
    ensures k in registry - Unreachable(registry, Outgoing(registry, registry.Keys, m, leet), status)
  {
  }

  /** The in-memory tenant registry (`ChatBackgroundService.Clients`). */
  class ChatBackgroundService {
    var clients: map<string, Client>

    constructor ()
      ensures clients == map[]
    {
      clients := map[];
    }

    /** The service can serve requests once some client is registered. */
    predicate Ready()
      reads this
    {
      |clients| > 0
    }

    /** The client registered under a token, or `invalid_token`. */
    function GetClient(token: string): (r: Result<Client, ErrorCode>)
      reads this
      ensures r.Ok? <==> token in clients
      ensures r.Ok? ==> r.value == clients[token]
      ensures r.Err? ==> r.error == InvalidToken
    {
      if token in clients then Ok(clients[token]) else Err(InvalidToken)
    }

    /**
     * Some client with the given name, or `None`. The dictionary's enumeration
     * order is unspecified, so the keys are visited in an arbitrary order.
     */
    method GetClientByName(name: string) returns (r: Option<Client>)
      ensures r.Some? ==> r.value.name == name && exists k :: k in clients && clients[k] == r.value
      ensures r.None? <==> forall k :: k in clients ==> clients[k].name != name
    {
      var pending := clients.Keys;
      while pending != {}
        invariant pending <= clients.Keys
        invariant forall k :: k in clients && k !in pending ==> clients[k].name != name
        decreases pending
      {
        var k :| k in pending;
        if clients[k].name == name {
          return Some(clients[k]);
        }
        pending := pending - {k};
      }
      return None;
    }

    /**
     * The periodic refresh: the whole registry is replaced by the database's
     * client rows keyed by API key. A duplicate key makes `ToDictionary` throw,
     * which leaves the registry as it was. (In the service it also ends the
     * refresh loop; the model goes on accepting later refreshes.)
     */
    method Refresh(rows: seq<Client>) returns (ok: bool)
      modifies this
      ensures ok <==> DistinctKeys(rows)
      ensures ok && |rows| > 0 ==> Ready()
      ensures ok ==> clients.Keys == ApiKeys(rows)
      ensures ok ==> forall i :: 0 <= i < |rows| ==> clients[rows[i].apiKey] == rows[i]
      ensures !ok ==> clients == old(clients)
    {
      var d := ToDictionary(rows);
      ok := d.Some?;
      if ok {
        clients := d.value;
        if |rows| > 0 {
          RefreshedRegistryIsReady(rows, this);
        }
      }
    }

    /**
     * The webhook broadcast. The `§x` codes are stripped from the message first;
     * then every client of the registry as it stood is considered once (the
     * concurrent requests run here one after another, in no fixed order): it gets
     * the delivery `WebhookFor` decides, and when its endpoint answers 502
     * (`status`) its entry leaves the registry.
     */
    method SendWebhooks(message: ChatMessage, leet: string -> string, status: Client -> int)
      returns (sent: map<string, Delivery>)
      modifies this, message
      ensures message.message == StripFormatting(old(message.message))
      ensures message.uuid == old(message.uuid) && message.name == old(message.name)
      ensures message.clientName == old(message.clientName)
      ensures sent == Outgoing(old(clients), old(clients).Keys,
                               MessageJson(message.uuid, message.name, message.message, message.clientName), leet)
      ensures clients == old(clients) - Unreachable(old(clients), sent, status)
    {
      message.message := StripFormatting(message.message);
      var m := MessageJson(message.uuid, message.name, message.message, message.clientName);
      var snapshot := clients;
      var pending := snapshot.Keys;
      sent := map[];
      while pending != {}
        modifies this
        invariant pending <= snapshot.Keys
        invariant sent == Outgoing(snapshot, snapshot.Keys - pending, m, leet)
        invariant clients == snapshot - Unreachable(snapshot, sent, status)
        decreases pending
      {
        var k :| k in pending;
        var d := WebhookFor(snapshot[k], m, leet);
        if d.Some? {
          sent := sent[k := d.value];
          if status(snapshot[k]) == BadGateway {
            clients := clients - {k};
          }
        }
        pending := pending - {k};
      }
    }
  }

  /** A service whose registry was keyed from a non-empty, duplicate-free table is ready. */
  lemma RefreshedRegistryIsReady(rows: seq<Client>, service: ChatBackgroundService)
    requires DistinctKeys(rows) && |rows| > 0 && service.clients == ToDictionary(rows).value
    ensures service.Ready()
  {
    assert rows[0].apiKey in service.clients;
  }
}
