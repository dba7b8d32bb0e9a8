/** The node pool (pomice/pool.py): a registry of Lavalink nodes keyed by
    identifier, node selection by load, and the parts of a node that change
    its own state — connecting, sending, routing frames from the node, and
    disconnecting. The websocket and the players are external: the socket
    is a state and a log of what was written, and the calls made on players
    are recorded in order. */
module Pool {
  import opened Results
  import TrackResolution

  // ---------------------------------------------------------------------------
  // Values
  // ---------------------------------------------------------------------------

  datatype JsonValue = JStr(s: string) | JInt(i: int)

  /** A message written to the websocket: the keyword arguments of `send`, in order. */
  datatype Message = Message(fields: seq<(string, JsonValue)>)

  /** A frame received from the node; `None` marks an absent key. */
  datatype Frame = Frame(op: Option<string>, guildId: Option<int>, body: seq<(string, JsonValue)>)

  /** A player, known by its guild; its internals are not part of this model. */
  datatype Player = Player(guild: int)

  /** A call the node makes on one of its players. */
  datatype PlayerCall =
    | DispatchEvent(guild: int, frame: Frame)
    | UpdateState(guild: int, frame: Frame)
    | Destroy(guild: int)

  datatype SocketState = NotOpened | Open | Closed

  /** How the websocket handshake ends. */
  datatype ConnectOutcome = Connected | HandshakeRejected | InvalidUrl | AddressUnresolved

  /** What `_handle_payload` did with a frame. */
  datatype Routing = NoOp | StatsReplaced | Dropped | Dispatched | StateUpdated | UnknownOp

  datatype PomiceError =
    | NoNodesAvailable(message: string)
    | NodeCreationError(message: string)
    | NodeConnectionFailure(message: string)
    | NodeNotAvailable(message: string)
    /** The `KeyError` of a non-stats frame without `guildId`. */
    | MissingGuildId
    /** The `AttributeError` of closing a websocket that was never opened. */
    | NoWebsocket
    /** The `KeyError` of deleting a node that is no longer in the pool. */
    | NotInPool(identifier: string)
    /** The `AttributeError` of reading an attribute the node does not have. */
    | NoSuchAttribute(name: string)
    /** The `TypeError` of deleting an item from a `property` object. */
    | PropertyItemDeletion

  const ResumeKey: string := "myResumeKey"
  const ResumeTimeout: int := 60
  const ConfigureResuming: string := "configureResuming"
  const StatsOp: string := "stats"
  const EventOp: string := "event"
  const PlayerUpdateOp: string := "playerUpdate"
  const NoNodesMessage: string := "There are no nodes available."

  /** The message `connect` sends once the socket is open. */
  const ResumeMessage: Message :=
    Message([("op", JStr(ConfigureResuming)), ("key", JStr(ResumeKey)), ("timeout", JInt(ResumeTimeout))])

  function Quoted(identifier: string): string {
    "'" + identifier + "'"
  }

  function UnavailableMessage(identifier: string): string {
    "The node " + Quoted(identifier) + " is unavailable."
  }

  function DuplicateMessage(identifier: string): string {
    "A node with identifier " + Quoted(identifier) + " already exists."
  }

  /** The failure message for each way the handshake can fail. */
  function ConnectFailureMessage(outcome: ConnectOutcome, identifier: string): string
    requires outcome != Connected
  {
    match outcome
    case HandshakeRejected => "The password for node " + Quoted(identifier) + " is invalid."
    case InvalidUrl => "The URI for node " + Quoted(identifier) + " is invalid."
    case AddressUnresolved => "The node " + Quoted(identifier) + " failed to connect."
  }

  // ---------------------------------------------------------------------------
  // Decimal text (`str` of a user id)
  // ---------------------------------------------------------------------------

  predicate IsDigitChar(c: char) { '0' <= c <= '9' }

  /** The number a string of decimal digits denotes. */
  function DecimalValue(s: string): int
    requires forall i :: 0 <= i < |s| ==> IsDigitChar(s[i])
  {
    if s == [] then 0 else DecimalValue(s[..|s| - 1]) * 10 + (s[|s| - 1] as int - '0' as int)
  }

  /** `str(n)` for a natural number: decimal digits, no leading zero, denoting `n`. */
  function DecimalString(n: nat): (s: string)
    ensures |s| > 0 && forall i :: 0 <= i < |s| ==> IsDigitChar(s[i])
    ensures s[0] != '0' || n == 0
    ensures DecimalValue(s) == n
  {
    var last := [('0' as int + n % 10) as char];
    if n < 10 then last
    else
      var prefix := DecimalString(n / 10);
      assert (prefix + last)[..|prefix + last| - 1] == prefix;
      prefix + last
  }

  // ---------------------------------------------------------------------------
  // Endpoints
  // ---------------------------------------------------------------------------

  function Authority(host: string, port: string): string {
    host + ":" + port
  }

  /** The websocket endpoint: `wss` when secure, `ws` otherwise. */
  function WebsocketUri(secure: bool, host: string, port: string): string {
    (if secure then "wss://" else "ws://") + Authority(host, port)
  }

  /** The REST endpoint: `https` when secure, `http` otherwise. */
  function RestUri(secure: bool, host: string, port: string): string {
    (if secure then "https://" else "http://") + Authority(host, port)
  }

  // ---------------------------------------------------------------------------
  // Node
  // ---------------------------------------------------------------------------

  class Node {
    const pool: NodePool
    const identifier: string
    const host: string
    const port: string
    const password: string
    const secure: bool
    const credentials: TrackResolution.SpotifyCredentials
    const websocketUri: string
    const restUri: string
    /** The handshake headers, in the order they are declared. */
    const headers: seq<(string, string)>

    var socket: SocketState
    /** `_available`: set by a successful connect and never cleared. */
    var available: bool
    /** The separate `available` attribute that `disconnect` sets. */
    var availableAttribute: Option<bool>
    var stats: Option<Frame>
    var players: map<int, Player>
    /** The guilds of `players` in insertion order (the dictionary's iteration order). */
    var playerOrder: seq<int>
    /** Everything written to the websocket, in order. */
    var sent: seq<Message>
    /** Every call made on a player, in order. */
    var calls: seq<PlayerCall>

    /** `Node.__init__`: derives the endpoints and headers; nothing is connected yet. */
    constructor(pool: NodePool, identifier: string, host: string, port: string, password: string,
                secure: bool, credentials: TrackResolution.SpotifyCredentials, userId: nat, version: string)
      ensures this.pool == pool && this.identifier == identifier
      ensures this.host == host && this.port == port && this.password == password
      ensures this.secure == secure && this.credentials == credentials
      ensures websocketUri == WebsocketUri(secure, host, port) && restUri == RestUri(secure, host, port)
      ensures headers == [("Authorization", password), ("User-Id", DecimalString(userId)),
                          ("Client-Name", "Pomice/" + version), ("Resume-Key", ResumeKey)]
      ensures socket == NotOpened && !available && availableAttribute.None? && stats.None?
      ensures players == map[] && playerOrder == [] && sent == [] && calls == []
    {
      this.pool := pool;
      this.identifier := identifier;
      this.host := host;
      this.port := port;
      this.password := password;
      this.secure := secure;
      this.credentials := credentials;
      websocketUri := WebsocketUri(secure, host, port);
      restUri := RestUri(secure, host, port);
      headers := [("Authorization", password), ("User-Id", DecimalString(userId)),
                  ("Client-Name", "Pomice/" + version), ("Resume-Key", ResumeKey)];
      socket := NotOpened;
      available := false;
      availableAttribute := None;
      stats := None;
      players := map[];
      playerOrder := [];
      sent := [];
      calls := [];
    }

    /** `playerOrder` lists every guild with a player exactly once. */
    ghost predicate Valid()
      reads this
    {
      Distinct(playerOrder) && forall g :: g in players <==> g in playerOrder
    }

    /** `send(**data)` as written: the refusal formats `self.identifier`,
        an attribute a node does not have (it keeps `_identifier`), so an
        unavailable node raises `AttributeError`; nothing is written. */
    method Send(msg: Message) returns (r: Result<(), PomiceError>)
      modifies this
      ensures r.Err? <==> !available
      ensures r.Err? ==> r.error == NoSuchAttribute("identifier")
      ensures sent == if available then old(sent) + [msg] else old(sent)
      ensures available == old(available) && socket == old(socket) && stats == old(stats)
      ensures players == old(players) && playerOrder == old(playerOrder) && calls == old(calls)
      ensures availableAttribute == old(availableAttribute)
    {
      if !available {
        return Err(NoSuchAttribute("identifier"));
      }
      sent := sent + [msg];
      return Ok(());
    }

    /** `send(**data)` with the refusal naming `_identifier`: an unavailable
        node raises `NodeNotAvailable` with its identifier. */
    method SendIntended(msg: Message) returns (r: Result<(), PomiceError>)
      modifies this
      ensures r.Err? <==> !available
      ensures r.Err? ==> r.error == NodeNotAvailable(UnavailableMessage(identifier))
      ensures sent == if available then old(sent) + [msg] else old(sent)
      ensures available == old(available) && socket == old(socket) && stats == old(stats)
      ensures players == old(players) && playerOrder == old(playerOrder) && calls == old(calls)
      ensures availableAttribute == old(availableAttribute)
    {
      if !available {
        return Err(NodeNotAvailable(UnavailableMessage(identifier)));
      }
      sent := sent + [msg];
      return Ok(());
    }

    /** `connect()`: on a successful handshake the socket opens, the node
        becomes available and asks the node to keep the session resumable;
        a failed handshake changes nothing. */
    method Connect(outcome: ConnectOutcome) returns (r: Result<(), PomiceError>)
      modifies this
      ensures r.Ok? <==> outcome == Connected
      ensures r.Err? ==> r.error == NodeConnectionFailure(ConnectFailureMessage(outcome, identifier))
      ensures r.Err? ==> socket == old(socket) && available == old(available) && sent == old(sent)
      ensures r.Ok? ==> socket == Open && available && sent == old(sent) + [ResumeMessage]
      ensures stats == old(stats) && players == old(players) && playerOrder == old(playerOrder)
      ensures calls == old(calls) && availableAttribute == old(availableAttribute)
    {
      if outcome != Connected {
        return Err(NodeConnectionFailure(ConnectFailureMessage(outcome, identifier)));
      }
      socket := Open;
      available := true;
      var sendResult := Send(ResumeMessage);
      assert sendResult.Ok?;
      return Ok(());
    }

    /** `_handle_payload(data)`: a frame without `op` is ignored, a stats
        frame replaces the stats, and any other frame goes to the player of
        its guild — dropped when there is none, and only `event` and
        `playerUpdate` make a call. */
    method HandlePayload(frame: Frame) returns (r: Result<Routing, PomiceError>)
      modifies this
      ensures !Truthy(frame.op) ==> r == Ok(NoOp) && stats == old(stats) && calls == old(calls)
      ensures frame.op == Some(StatsOp) ==> r == Ok(StatsReplaced) && stats == Some(frame) && calls == old(calls)
      ensures Truthy(frame.op) && frame.op != Some(StatsOp) ==> stats == old(stats)
      ensures Truthy(frame.op) && frame.op != Some(StatsOp) && frame.guildId.None? ==>
                r == Err(MissingGuildId) && calls == old(calls)
      ensures Truthy(frame.op) && frame.op != Some(StatsOp) && frame.guildId.Some? ==>
                var g := frame.guildId.value;
                && (g !in players ==> r == Ok(Dropped) && calls == old(calls))
                && (g in players && frame.op == Some(EventOp) ==>
                      r == Ok(Dispatched) && calls == old(calls) + [DispatchEvent(g, frame)])
                && (g in players && frame.op == Some(PlayerUpdateOp) ==>
                      r == Ok(StateUpdated) && calls == old(calls) + [UpdateState(g, frame)])
                && (g in players && frame.op != Some(EventOp) && frame.op != Some(PlayerUpdateOp) ==>
                      r == Ok(UnknownOp) && calls == old(calls))
      ensures socket == old(socket) && available == old(available) && availableAttribute == old(availableAttribute)
      ensures players == old(players) && playerOrder == old(playerOrder) && sent == old(sent)
    {
      if !Truthy(frame.op) {
        return Ok(NoOp);
      }
      var op := frame.op.value;
      if op == StatsOp {
        stats := Some(frame);
        return Ok(StatsReplaced);
      }
      if frame.guildId.None? {
        return Err(MissingGuildId);
      }
      var g := frame.guildId.value;
      if g !in players {
        return Ok(Dropped);
      }
      if op == EventOp {
        calls := calls + [DispatchEvent(g, frame)];
        r := Ok(Dispatched);
      } else if op == PlayerUpdateOp {
        calls := calls + [UpdateState(g, frame)];
        r := Ok(StateUpdated);
      } else {
        r := Ok(UnknownOp);
      }
    }

    /** One `destroy` call per player, in the players dictionary's order. */
    method DestroyPlayers()
      modifies this
      ensures calls == old(calls) + DestroyCalls(playerOrder)
      ensures socket == old(socket) && available == old(available) && availableAttribute == old(availableAttribute)
      ensures stats == old(stats) && players == old(players) && playerOrder == old(playerOrder) && sent == old(sent)
    {
      var destroyed: seq<PlayerCall> := [];
      var i := 0;
      while i < |playerOrder|
        invariant 0 <= i <= |playerOrder|
        invariant destroyed == DestroyCalls(playerOrder[..i])
      {
        assert playerOrder[..i + 1][..i] == playerOrder[..i];
        destroyed := destroyed + [Destroy(playerOrder[i])];
        i := i + 1;
      }
      assert playerOrder[..i] == playerOrder;
      calls := calls + destroyed;
    }

    /** `disconnect()` as written: destroys every player and closes the
        socket, then fails. The node's `pool` is the `NodePool` class, on
        which `nodes` is the `property` object rather than the registry, so
        the `del` raises `TypeError`: the entry stays, the separate
        `available` attribute is never set and `_available` stays as it
        was. Without a socket it fails before closing anything. */
    method Disconnect() returns (r: Result<(), PomiceError>)
      modifies this
      ensures r.Err?
      ensures calls == old(calls) + DestroyCalls(old(playerOrder))
      ensures old(socket) == NotOpened ==> r.error == NoWebsocket && socket == NotOpened
      ensures old(socket) != NotOpened ==> r.error == PropertyItemDeletion && socket == Closed
      ensures available == old(available) && availableAttribute == old(availableAttribute) && stats == old(stats)
      ensures players == old(players) && playerOrder == old(playerOrder) && sent == old(sent)
    {
      DestroyPlayers();
      if socket == NotOpened {
        return Err(NoWebsocket);
      }
      socket := Closed;
      return Err(PropertyItemDeletion);
    }

    /** `disconnect()` deleting from the registry itself (`_nodes`): after
        the destroys and the close, the node's entry is deleted and the
        separate `available` attribute set; `_available` is left as it was.
        Without a socket it fails before touching the pool, and once the
        entry is gone (a second disconnect) the deletion fails. */
    method DisconnectIntended() returns (r: Result<(), PomiceError>)
      requires pool.Valid()
      modifies this, pool
      ensures pool.Valid()
      ensures calls == old(calls) + DestroyCalls(old(playerOrder))
      ensures old(socket) == NotOpened ==>
                r == Err(NoWebsocket) && socket == NotOpened
                && pool.nodes == old(pool.nodes) && pool.order == old(pool.order)
      ensures old(socket) != NotOpened ==> socket == Closed
      ensures old(socket) != NotOpened && identifier !in old(pool.nodes) ==>
                r == Err(NotInPool(identifier))
                && pool.nodes == old(pool.nodes) && pool.order == old(pool.order)
      ensures old(socket) != NotOpened && identifier in old(pool.nodes) ==>
                && r.Ok?
                && pool.nodes == old(pool.nodes) - {identifier}
                && pool.order == Without(old(pool.order), identifier)
                && availableAttribute == Some(false)
      ensures r.Err? ==> availableAttribute == old(availableAttribute)
      ensures available == old(available) && stats == old(stats)
      ensures players == old(players) && playerOrder == old(playerOrder) && sent == old(sent)
    {
      DestroyPlayers();
      if socket == NotOpened {
        return Err(NoWebsocket);
      }
      socket := Closed;
      if identifier !in pool.nodes {
        return Err(NotInPool(identifier));
      }
      pool.Remove(identifier);
      availableAttribute := Some(false);
      return Ok(());
    }
  }

  // ---------------------------------------------------------------------------
  // The pool
  // ---------------------------------------------------------------------------

  ghost predicate Distinct<T>(s: seq<T>) {
    forall i, j :: 0 <= i < j < |s| ==> s[i] != s[j]
  }

  /** One `destroy` call per guild, in order. */
  function DestroyCalls(guilds: seq<int>): seq<PlayerCall> {
    if guilds == [] then [] else DestroyCalls(guilds[..|guilds| - 1]) + [Destroy(guilds[|guilds| - 1])]
  }

  /** `s` without the element `x`, the rest in order. */
  function Without(s: seq<string>, x: string): (r: seq<string>)
    ensures forall y :: y in r <==> y in s && y != x
    ensures Distinct(s) ==> Distinct(r)
  {
    if s == [] then []
    else if s[0] == x then Without(s[1..], x)
    else
      var rest := Without(s[1..], x);
      assert forall y :: y in [s[0]] + rest ==> y == s[0] || y in rest;
      assert Distinct(s) ==> s[0] !in s[1..] && Distinct(s[1..]);
      assert forall j :: 0 < j < |[s[0]] + rest| ==> ([s[0]] + rest)[j] == rest[j - 1];
      [s[0]] + rest
  }

  class NodePool {
    /** The registry, from identifier to node. */
    var nodes: map<string, Node>
    /** The identifiers in insertion order (the dictionary's iteration order). */
    var order: seq<string>

    constructor()
      ensures Valid() && nodes == map[] && order == []
    {
      nodes := map[];
      order := [];
    }

    /** Each node is registered under its own identifier and belongs to this
        pool; `order` lists every identifier exactly once. */
    ghost predicate Valid()
      reads this
    {
      && (forall k :: k in nodes ==> nodes[k].identifier == k && nodes[k].pool == this)
      && Distinct(order)
      && (forall k :: k in nodes <==> k in order)
    }

    /** The load `get_node` sorts by: the node's player count. */
    function Load(k: string): nat
      requires k in nodes
      reads this, nodes[k]
    {
      |nodes[k].players|
    }

    /** The position in `ks` of the node a stable sort by load puts first
        among the available ones: minimal load, earliest on ties. */
    function Best(ks: seq<string>): (r: Option<nat>)
      requires forall k :: k in ks ==> k in nodes
      reads this, nodes.Values
      ensures r.None? <==> forall j :: 0 <= j < |ks| ==> !nodes[ks[j]].available
      ensures r.Some? ==> r.value < |ks| && nodes[ks[r.value]].available
      ensures r.Some? ==> forall j :: 0 <= j < |ks| && nodes[ks[j]].available ==> Load(ks[r.value]) <= Load(ks[j])
      ensures r.Some? ==> forall j :: 0 <= j < r.value && nodes[ks[j]].available ==> Load(ks[r.value]) < Load(ks[j])
    {
      if ks == [] then None
      else
        var rest := Best(ks[1..]);
        if !nodes[ks[0]].available then
          if rest.None? then None else Some(rest.value + 1)
        else if rest.None? || Load(ks[0]) <= Load(ks[1 + rest.value]) then Some(0)
        else Some(rest.value + 1)
    }

    /** `get_node(identifier=...)`. It fails exactly when no registered node
        is available, whether or not an identifier is given. Without an
        identifier it returns an available node of least load, the earliest
        registered on ties; with one it returns that node when it is
        registered and available, and nothing otherwise. */
    function GetNode(identifier: Option<string>): (r: Result<Option<Node>, PomiceError>)
      requires Valid()
      reads this, nodes.Values
      ensures r.Err? <==> forall k :: k in nodes ==> !nodes[k].available
      ensures r.Err? ==> r.error == NoNodesAvailable(NoNodesMessage)
      ensures r.Ok? && identifier.None? ==>
                && r.value.Some?
                && exists i :: 0 <= i < |order| && nodes[order[i]] == r.value.value
                                && nodes[order[i]].available
                                && (forall k :: k in nodes && nodes[k].available ==> Load(order[i]) <= Load(k))
                                && (forall j :: 0 <= j < i && nodes[order[j]].available ==> Load(order[i]) < Load(order[j]))
      ensures r.Ok? && identifier.Some? ==>
                && (r.value.Some? <==> identifier.value in nodes && nodes[identifier.value].available)
                && (r.value.Some? ==> r.value.value == nodes[identifier.value])
    {
      var best := Best(order);
      if best.None? then Err(NoNodesAvailable(NoNodesMessage))
      else if identifier.None? then Ok(Some(nodes[order[best.value]]))
      else if identifier.value in nodes && nodes[identifier.value].available then Ok(Some(nodes[identifier.value]))
      else Ok(None)
    }

    /** Deletes one entry, keeping the order of the others. */
    method Remove(identifier: string)
      requires Valid() && identifier in nodes
      modifies this
      ensures Valid()
      ensures nodes == old(nodes) - {identifier} && order == Without(old(order), identifier)
    {
      nodes := nodes - {identifier};
      order := Without(order, identifier);
    }

    /** `create_node(...)`: a taken identifier is refused and a failed
        connect is passed on, both leaving the pool as it was; otherwise the
        connected node is added under its identifier, last in order. */
    method CreateNode(identifier: string, host: string, port: string, password: string, secure: bool,
                      credentials: TrackResolution.SpotifyCredentials, userId: nat, version: string,
                      outcome: ConnectOutcome)
      returns (r: Result<Node, PomiceError>)
      requires Valid()
      modifies this
      ensures Valid()
      ensures identifier in old(nodes) ==>
                r == Err(NodeCreationError(DuplicateMessage(identifier)))
      ensures identifier !in old(nodes) && outcome != Connected ==>
                r == Err(NodeConnectionFailure(ConnectFailureMessage(outcome, identifier)))
      ensures r.Err? ==> nodes == old(nodes) && order == old(order)
      ensures r.Ok? <==> identifier !in old(nodes) && outcome == Connected
      ensures r.Ok? ==>
                && fresh(r.value)
                && nodes == old(nodes)[identifier := r.value]
                && order == old(order) + [identifier]
                && r.value.identifier == identifier && r.value.pool == this
                && r.value.available && r.value.socket == Open
                && r.value.sent == [ResumeMessage] && r.value.calls == []
                && r.value.players == map[] && r.value.playerOrder == [] && r.value.Valid()
    {
      if identifier in nodes {
        return Err(NodeCreationError(DuplicateMessage(identifier)));
      }
      var node := new Node(this, identifier, host, port, password, secure, credentials, userId, version);
      var connected := node.Connect(outcome);
      if connected.Err? {
        return Err(connected.error);
      }
      nodes := nodes[identifier := node];
      order := order + [identifier];
      return Ok(node);
    }
  }

  // ---------------------------------------------------------------------------
  // Properties
  // ---------------------------------------------------------------------------

  lemma SuffixOfConcat(p: string, t: string)
    ensures p <= p + t && (p + t)[|p|..] == t
  {
    assert (p + t)[..|p|] == p;
  }

  /** The two endpoints share `host:port`, and `secure` switches both schemes together. */
  lemma EndpointsAgree(secure: bool, host: string, port: string)
    ensures var authority := Authority(host, port);
            var ws := WebsocketUri(secure, host, port);
            var rest := RestUri(secure, host, port);
            && |authority| <= |ws| && |authority| <= |rest|
            && ws[|ws| - |authority|..] == rest[|rest| - |authority|..] == authority
    ensures "wss://" <= WebsocketUri(secure, host, port) <==> secure
    ensures "https://" <= RestUri(secure, host, port) <==> secure
  {
    var authority := Authority(host, port);
    var ws := WebsocketUri(secure, host, port);
    var rest := RestUri(secure, host, port);
    if secure {
      SuffixOfConcat("wss://", authority);
      SuffixOfConcat("https://", authority);
    } else {
      SuffixOfConcat("ws://", authority);
      SuffixOfConcat("http://", authority);
      assert ws[2] == ':';
      assert rest[4] == ':';
    }
  }

  lemma {:induction false} DestroyCallsOf(guilds: seq<int>)
    ensures |DestroyCalls(guilds)| == |guilds|
    ensures forall i :: 0 <= i < |guilds| ==> DestroyCalls(guilds)[i] == Destroy(guilds[i])
  {
    if guilds != [] {
      DestroyCallsOf(guilds[..|guilds| - 1]);
    }
  }

  /** A sequence without repetitions has as many elements as its set. */
  lemma {:induction false} DistinctCardinality(s: seq<int>)
    requires Distinct(s)
    ensures |set g | g in s| == |s|
  {
    if s != [] {
      var init := s[..|s| - 1];
      assert Distinct(init);
      DistinctCardinality(init);
      assert (set g | g in s) == (set g | g in init) + {s[|s| - 1]};
      assert s[|s| - 1] !in init;
    }
  }

  /** Disconnecting a node destroys each of its players exactly once: one
      call per player, every call a `destroy` of one of them, none missed. */
  lemma DisconnectDestroysEachPlayerOnce(node: Node)
    requires node.Valid()
    ensures |DestroyCalls(node.playerOrder)| == |node.players|
    ensures forall c :: c in DestroyCalls(node.playerOrder) ==> c.Destroy? && c.guild in node.players
    ensures forall g :: g in node.players ==> Destroy(g) in DestroyCalls(node.playerOrder)
  {
    var order := node.playerOrder;
    DestroyCallsOf(order);
    DistinctCardinality(order);
    assert forall g :: g in node.players.Keys <==> g in (set g | g in order);
    assert node.players.Keys == set g | g in order;
    forall g | g in node.players
      ensures Destroy(g) in DestroyCalls(order)
    {
      var i :| 0 <= i < |order| && order[i] == g;
      assert DestroyCalls(order)[i] == Destroy(g);
    }
  }

  // ---------------------------------------------------------------------------
  // The two source defects, on a one-node pool
  // ---------------------------------------------------------------------------

  /** A node that has not connected yet refuses to send with the
      `AttributeError`, where `NodeNotAvailable` is meant. */
  method SendBeforeConnect() returns (asWritten: Result<(), PomiceError>, intended: Result<(), PomiceError>)
    ensures asWritten == Err(NoSuchAttribute("identifier"))
    ensures intended == Err(NodeNotAvailable(UnavailableMessage("main")))
  {
    var pool := new NodePool();
    var node := new Node(pool, "main", "localhost", "2333", "youshallnotpass", false,
                         TrackResolution.SpotifyCredentials(None, None), 1, "1.0");
    asWritten := node.Send(ResumeMessage);
    intended := node.SendIntended(ResumeMessage);
  }

  /** As written, disconnecting the only node of a pool fails after closing
      its socket, and `get_node` still hands out the closed node. */
  method DisconnectKeepsNodeInPool() returns (node: Node, r: Result<(), PomiceError>,
                                              chosen: Result<Option<Node>, PomiceError>)
    ensures r == Err(PropertyItemDeletion) && node.socket == Closed
    ensures chosen == Ok(Some(node))
  {
    var pool := new NodePool();
    var created := pool.CreateNode("main", "localhost", "2333", "youshallnotpass", false,
                                   TrackResolution.SpotifyCredentials(None, None), 1, "1.0", Connected);
    node := created.value;
    r := node.Disconnect();
    chosen := pool.GetNode(None);
  }

  /** Deleting from the registry itself, the same disconnect empties the
      pool, and `get_node` then finds no node. */
  method DisconnectIntendedEmptiesPool() returns (node: Node, r: Result<(), PomiceError>,
                                                  chosen: Result<Option<Node>, PomiceError>)
    ensures r.Ok? && node.socket == Closed && node.availableAttribute == Some(false)
    ensures chosen == Err(NoNodesAvailable(NoNodesMessage))
  {
    var pool := new NodePool();
    var created := pool.CreateNode("main", "localhost", "2333", "youshallnotpass", false,
                                   TrackResolution.SpotifyCredentials(None, None), 1, "1.0", Connected);
    node := created.value;
    assert node.pool == pool && node.identifier in pool.nodes && node.socket == Open;
    r := node.DisconnectIntended();
    chosen := pool.GetNode(None);
  }
}
