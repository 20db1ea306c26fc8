/** The chat server (EchoServer): a relay that lets a connection chat only
    after it has sent one "#login <id>" message, and broadcasts each chat
    line with its sender's login id to every connected client.

    The connection registry, sockets and threads belong to the ocsf
    AbstractServer, which is not part of this model: a connection is its
    "loginId" info entry, an open flag and the list of messages sent to it. */
module ServerBackend {
  import opened JavaText

  const DefaultPort: int := 5555
  const LoginPrefix: string := "#login "
  const AlreadyLoggedIn: string := "Error: Already logged in."
  const MustLoginFirst: string := "Error: You must login first."
  const CloseClientError: string := "Error closing client connection."
  const CloseServerError: string := "Error closing the server."
  const ListenError: string := "ERROR - Could not listen for clients!"

  type ConnId = nat

  /** One client connection as the server sees it. */
  datatype Conn = Conn(loginId: Option<string>, open: bool, outbox: seq<string>)

  /** Whether the two transport calls made on a rejected connection,
      sendToClient and close, throw an IOException. */
  datatype Io = Io(sendFails: bool, closeFails: bool)

  /** Everything the server's behaviour depends on or shows: the
      connections, the lines printed on standard output, the port, whether
      it accepts new connections and whether the process has exited. */
  datatype ServerState = ServerState(
    clients: map<ConnId, Conn>,
    out: seq<string>,
    port: int,
    listening: bool,
    halted: bool)

  /** A connection just accepted: open, not logged in, nothing sent to it. */
  const NewConn: Conn := Conn(None, true, [])

  /** sendToAllClients: msg reaches every open connection, once each. */
  function Broadcast(clients: map<ConnId, Conn>, msg: string): (r: map<ConnId, Conn>)
    ensures r.Keys == clients.Keys
    ensures forall c :: c in clients ==>
      r[c].loginId == clients[c].loginId && r[c].open == clients[c].open &&
      r[c].outbox == clients[c].outbox + (if clients[c].open then [msg] else [])
  {
    map c | c in clients :: if clients[c].open then clients[c].(outbox := clients[c].outbox + [msg]) else clients[c]
  }

  /** Turning a connection away: it is sent err and then closed, unless
      one of the two calls throws, in which case the close error is printed. */
  function Reject(s: ServerState, id: ConnId, err: string, io: Io): (r: ServerState)
    requires id in s.clients && s.clients[id].open
    ensures r.clients.Keys == s.clients.Keys
    ensures forall c :: c in s.clients && c != id ==> r.clients[c] == s.clients[c]
    ensures r.clients[id].loginId == s.clients[id].loginId
    ensures r.clients[id].outbox == s.clients[id].outbox + (if io.sendFails then [] else [err])
    ensures r.clients[id].open <==> io.sendFails || io.closeFails
    ensures r.out == s.out + (if io.sendFails || io.closeFails then [CloseClientError] else [])
    ensures r.port == s.port && r.listening == s.listening && r.halted == s.halted
  {
    var c := s.clients[id];
    if io.sendFails then s.(out := s.out + [CloseClientError])
    else if io.closeFails then
      s.(clients := s.clients[id := c.(outbox := c.outbox + [err])], out := s.out + [CloseClientError])
    else
      s.(clients := s.clients[id := c.(outbox := c.outbox + [err], open := false)])
  }

  predicate IsLogin(msg: string) {
    StartsWith(msg, LoginPrefix)
  }

  /** The id a login sets is exactly the text after "#login ": a message is
      a login whose id is x iff it is "#login " followed by x. */
  lemma LoginIdIsTheRest(msg: string, x: string)
    ensures (IsLogin(msg) && msg[|LoginPrefix|..] == x) <==> msg == LoginPrefix + x
  {
    if IsLogin(msg) {
      StartsWithSplits(msg, LoginPrefix);
    }
    if msg == LoginPrefix + x {
      StartsWithConcat(LoginPrefix, x);
      assert msg[|LoginPrefix|..] == x;
    }
  }

  /** handleMessageFromClient(msg, client) for the open connection id. */
  function Dispatch(s: ServerState, id: ConnId, msg: string, io: Io): (r: ServerState)
    requires id in s.clients && s.clients[id].open
    ensures r.clients.Keys == s.clients.Keys
    ensures r.port == s.port && r.listening == s.listening && r.halted == s.halted
    // A login id, once set, is never overwritten or cleared; only the sender's can be set.
    ensures forall c :: c in s.clients && (c != id || s.clients[c].loginId.Some?) ==>
      r.clients[c].loginId == s.clients[c].loginId
    // First login: the id is the text after "#login ", and nothing is sent to anyone.
    ensures IsLogin(msg) && s.clients[id].loginId.None? ==>
      r.clients[id].loginId == Some(msg[|LoginPrefix|..]) &&
      (forall c :: c in s.clients ==> r.clients[c].outbox == s.clients[c].outbox && r.clients[c].open == s.clients[c].open) &&
      r.out == s.out + ["A new client has connected to the server.",
                        "Message received: " + msg + " from null.",
                        msg[|LoginPrefix|..] + " has logged on."]
    // Second login: the sender alone is turned away.
    ensures IsLogin(msg) && s.clients[id].loginId.Some? ==> r == Reject(s, id, AlreadyLoggedIn, io)
    // Chat from a logged-in sender: "<id>: <msg>" to every open connection, the sender included.
    ensures !IsLogin(msg) && s.clients[id].loginId.Some? ==>
      r.clients == Broadcast(s.clients, s.clients[id].loginId.value + ": " + msg) &&
      r.clients[id].open &&
      r.out == s.out + ["Message received: " + msg + " from " + s.clients[id].loginId.value]
    // Chat before login: the sender alone is turned away, nothing is broadcast.
    ensures !IsLogin(msg) && s.clients[id].loginId.None? ==> r == Reject(s, id, MustLoginFirst, io)
    // Only a chat line from a logged-in sender reaches another connection.
    ensures !(!IsLogin(msg) && s.clients[id].loginId.Some?) ==>
      forall c :: c in s.clients && c != id ==> r.clients[c] == s.clients[c]
  {
    var c := s.clients[id];
    if IsLogin(msg) then
      var loginId := msg[|LoginPrefix|..];
      if c.loginId.None? then
        s.(clients := s.clients[id := c.(loginId := Some(loginId))],
           out := s.out + ["A new client has connected to the server.",
                           "Message received: " + msg + " from null.",
                           loginId + " has logged on."])
      else Reject(s, id, AlreadyLoggedIn, io)
    else
      match c.loginId
      case Some(loginId) =>
        s.(clients := Broadcast(s.clients, loginId + ": " + msg),
           out := s.out + ["Message received: " + msg + " from " + loginId])
      case None => Reject(s, id, MustLoginFirst, io)
  }

  /** The connections after AbstractServer.close(): all of them closed. */
  function CloseAll(clients: map<ConnId, Conn>): (r: map<ConnId, Conn>)
    ensures r.Keys == clients.Keys
    ensures forall c :: c in clients ==> !r[c].open && r[c].loginId == clients[c].loginId && r[c].outbox == clients[c].outbox
  {
    map c | c in clients :: clients[c].(open := false)
  }

  /** quit(): close the server, report a failure to do so, exit in any case. */
  function QuitEffect(s: ServerState, closeFails: bool): (r: ServerState)
    ensures r.halted
    ensures r.port == s.port
    ensures !closeFails ==> !r.listening && r.clients == CloseAll(s.clients) && r.out == s.out
    ensures closeFails ==> r.listening == s.listening && r.clients == s.clients && r.out == s.out + [CloseServerError]
  {
    if closeFails then s.(out := s.out + [CloseServerError], halted := true)
    else s.(clients := CloseAll(s.clients), listening := false, halted := true)
  }

  /** The port main() listens on: args[0] when it parses, DEFAULT_PORT when it
      is missing or does not parse. */
  function MainPort(args: seq<string>): (port: int)
    ensures |args| > 0 && ParseInt(args[0]).Some? ==> port == ParseInt(args[0]).value
    ensures |args| == 0 || ParseInt(args[0]).None? ==> port == DefaultPort
    ensures InInt(port)
  {
    if |args| > 0 && ParseInt(args[0]).Some? then ParseInt(args[0]).value else DefaultPort
  }

  /** A port given in decimal on the command line is the port listened on. */
  lemma MainPortReadsDecimal(p: int, rest: seq<string>)
    requires InInt(p)
    ensures MainPort([IntToString(p)] + rest) == p
  {
    ParseIntToString(p);
  }

  // ---------------------------------------------------------------------------
  // Runs of handleMessageFromClient

  /** One message arriving on connection id, with the outcome of the transport calls it causes. */
  datatype Delivery = Delivery(id: ConnId, msg: string, io: Io)

  /** The state after the deliveries, in order; the transport delivers
      nothing from a connection that is closed or unknown. */
  function Run(s: ServerState, ds: seq<Delivery>): ServerState
    decreases |ds|
  {
    if ds == [] then s
    else
      var d := ds[0];
      var next := if d.id in s.clients && s.clients[d.id].open then Dispatch(s, d.id, d.msg, d.io) else s;
      Run(next, ds[1..])
  }

  /** No run changes which connections exist. */
  lemma {:induction false} RunKeepsConnections(s: ServerState, ds: seq<Delivery>)
    ensures Run(s, ds).clients.Keys == s.clients.Keys
    decreases |ds|
  {
    if ds != [] {
      var d := ds[0];
      var next := if d.id in s.clients && s.clients[d.id].open then Dispatch(s, d.id, d.msg, d.io) else s;
      RunKeepsConnections(next, ds[1..]);
    }
  }

  /** Over any run, a login id once set stays exactly as it was. */
  lemma {:induction false} RunKeepsLoginId(s: ServerState, ds: seq<Delivery>, c: ConnId)
    requires c in s.clients && s.clients[c].loginId.Some?
    ensures c in Run(s, ds).clients && Run(s, ds).clients[c].loginId == s.clients[c].loginId
    decreases |ds|
  {
    if ds != [] {
      var d := ds[0];
      var next := if d.id in s.clients && s.clients[d.id].open then Dispatch(s, d.id, d.msg, d.io) else s;
      RunKeepsLoginId(next, ds[1..], c);
    }
  }

  /** Over any run, a closed connection stays closed and is sent nothing more. */
  lemma {:induction false} RunLeavesClosedAlone(s: ServerState, ds: seq<Delivery>, c: ConnId)
    requires c in s.clients && !s.clients[c].open
    ensures c in Run(s, ds).clients && Run(s, ds).clients[c] == s.clients[c]
    decreases |ds|
  {
    if ds != [] {
      var d := ds[0];
      var next := if d.id in s.clients && s.clients[d.id].open then Dispatch(s, d.id, d.msg, d.io) else s;
      RunLeavesClosedAlone(next, ds[1..], c);
    }
  }

  /** A connection that never logged in is sent nothing by a run of
      messages from other connections that have not logged in either. */
  lemma {:induction false} RunWithoutLoginsBroadcastsNothing(s: ServerState, ds: seq<Delivery>, c: ConnId)
    requires c in s.clients
    requires forall k :: k in s.clients ==> s.clients[k].loginId.None?
    requires forall i :: 0 <= i < |ds| ==> ds[i].id != c && !IsLogin(ds[i].msg)
    ensures c in Run(s, ds).clients && Run(s, ds).clients[c] == s.clients[c]
    ensures forall k :: k in Run(s, ds).clients ==> Run(s, ds).clients[k].loginId.None?
    decreases |ds|
  {
    if ds != [] {
      var d := ds[0];
      var next := if d.id in s.clients && s.clients[d.id].open then Dispatch(s, d.id, d.msg, d.io) else s;
      assert forall i :: 0 <= i < |ds[1..]| ==> ds[1..][i] == ds[i + 1];
      RunWithoutLoginsBroadcastsNothing(next, ds[1..], c);
    }
  }

  // ---------------------------------------------------------------------------
  // The server object

  class EchoServer {
    var clients: map<ConnId, Conn>
    var out: seq<string>
    var port: int
    var listening: bool
    var halted: bool

    function State(): ServerState
      reads this
    {
      ServerState(clients, out, port, listening, halted)
    }

    /** new EchoServer(port): no connections yet, not listening. */
    constructor(port: int)
      ensures State() == ServerState(map[], [], port, false, false)
    {
      clients := map[];
      out := [];
      this.port := port;
      listening := false;
      halted := false;
    }

    /** The transport accepts a new connection (the clientConnected hook's occasion). */
    method ClientConnected(id: ConnId)
      requires !halted && listening && id !in clients
      modifies this
      ensures State() == old(State()).(clients := old(clients)[id := NewConn])
    {
      clients := clients[id := NewConn];
    }

    method SendToClient(id: ConnId, msg: string, fails: bool) returns (ok: bool)
      requires id in clients
      modifies this
      ensures ok == !fails
      ensures State() == if ok then old(State()).(clients := old(clients)[id := old(clients)[id].(outbox := old(clients)[id].outbox + [msg])])
                         else old(State())
    {
      ok := !fails;
      if ok {
        clients := clients[id := clients[id].(outbox := clients[id].outbox + [msg])];
      }
    }

    method CloseClient(id: ConnId, fails: bool) returns (ok: bool)
      requires id in clients
      modifies this
      ensures ok == !fails
      ensures State() == if ok then old(State()).(clients := old(clients)[id := old(clients)[id].(open := false)])
                         else old(State())
    {
      ok := !fails;
      if ok {
        clients := clients[id := clients[id].(open := false)];
      }
    }

    method SendToAllClients(msg: string)
      modifies this
      ensures State() == old(State()).(clients := Broadcast(old(clients), msg))
    {
      clients := Broadcast(clients, msg);
    }

    method HandleMessageFromClient(msg: string, id: ConnId, io: Io)
      requires !halted && id in clients && clients[id].open
      modifies this
      ensures State() == Dispatch(old(State()), id, msg, io)
    {
      if StartsWith(msg, LoginPrefix) {
        var loginId := msg[|LoginPrefix|..];
        if clients[id].loginId == None {
          clients := clients[id := clients[id].(loginId := Some(loginId))];
          out := out + ["A new client has connected to the server."];
          out := out + ["Message received: " + msg + " from null."];
          out := out + [loginId + " has logged on."];
        } else {
          SendThenClose(id, AlreadyLoggedIn, io);
        }
      } else {
        var info := clients[id].loginId;
        if info.Some? {
          out := out + ["Message received: " + msg + " from " + info.value];
          SendToAllClients(info.value + ": " + msg);
        } else {
          SendThenClose(id, MustLoginFirst, io);
        }
      }
    }

    /** Send err to the connection, then close it; if either call throws,
        print the close error instead. */
    method SendThenClose(id: ConnId, err: string, io: Io)
      requires id in clients && clients[id].open
      modifies this
      ensures State() == Reject(old(State()), id, err, io)
    {
      var sent := SendToClient(id, err, io.sendFails);
      if sent {
        var closed := CloseClient(id, io.closeFails);
        if !closed {
          out := out + [CloseClientError];
        }
      } else {
        out := out + [CloseClientError];
      }
    }

    /** AbstractServer.listen(): start accepting connections unless it throws. */
    method Listen(fails: bool) returns (ok: bool)
      requires !halted
      modifies this
      ensures ok == !fails
      ensures State() == old(State()).(listening := old(listening) || ok)
    {
      ok := !fails;
      if ok {
        listening := true;
      }
    }

    /** AbstractServer.stopListening(): accept no new connections; the open ones stay. */
    method StopListening()
      requires !halted
      modifies this
      ensures State() == old(State()).(listening := false)
    {
      listening := false;
    }

    /** AbstractServer.close(): stop listening and close every connection, unless it throws. */
    method Close(fails: bool) returns (ok: bool)
      requires !halted
      modifies this
      ensures ok == !fails
      ensures State() == if ok then old(State()).(clients := CloseAll(old(clients)), listening := false) else old(State())
    {
      ok := !fails;
      if ok {
        clients := CloseAll(clients);
        listening := false;
      }
    }

    /** AbstractServer.setPort(port): records the new port, even while the
        server is listening. When the framework starts using it is not
        modelled: Listen does not read the port. */
    method SetPort(p: int)
      requires !halted
      modifies this
      ensures State() == old(State()).(port := p)
    {
      port := p;
    }

    method Quit(closeFails: bool)
      requires !halted
      modifies this
      ensures State() == QuitEffect(old(State()), closeFails)
    {
      var ok := Close(closeFails);
      if !ok {
        out := out + [CloseServerError];
      }
      halted := true;
    }

    /** main(args): a server on MainPort(args) that tries to listen once. */
    static method Launch(args: seq<string>, listenFails: bool) returns (sv: EchoServer)
      ensures fresh(sv)
      ensures sv.State() == ServerState(map[], if listenFails then [ListenError] else [], MainPort(args), !listenFails, false)
    {
      var port := DefaultPort;
      if |args| > 0 {
        match ParseInt(args[0]) {
          case Some(p) => port := p;
          case None =>
        }
      }
      sv := new EchoServer(port);
      var ok := sv.Listen(listenFails);
      if !ok {
        sv.out := sv.out + [ListenError];
      }
    }
  }

  // ---------------------------------------------------------------------------
  // The scenario of two clients, bob and carol

  const Fine: Io := Io(false, false)

  /** Two open connections, 0 and 1, neither logged in. */
  const TwoClients: ServerState := ServerState(map[0 := NewConn, 1 := NewConn], [], 5000, true, false)

  /** bob and carol log in, bob says "hi": both receive "bob: hi". */
  lemma BobAndCarolScenario()
    ensures var s := Run(TwoClients, [Delivery(0, "#login bob", Fine), Delivery(1, "#login carol", Fine), Delivery(0, "hi", Fine)]);
      0 in s.clients && 1 in s.clients &&
      s.clients[0] == Conn(Some("bob"), true, ["bob: hi"]) &&
      s.clients[1] == Conn(Some("carol"), true, ["bob: hi"])
  {
    var ds := [Delivery(0, "#login bob", Fine), Delivery(1, "#login carol", Fine), Delivery(0, "hi", Fine)];
    assert IsLogin("#login bob") && "#login bob"[|LoginPrefix|..] == "bob";
    assert IsLogin("#login carol") && "#login carol"[|LoginPrefix|..] == "carol";
    assert !IsLogin("hi");
    var s1 := Dispatch(TwoClients, 0, "#login bob", Fine);
    var s2 := Dispatch(s1, 1, "#login carol", Fine);
    var s3 := Dispatch(s2, 0, "hi", Fine);
    assert s1.clients[0] == Conn(Some("bob"), true, []) && s1.clients[1] == NewConn;
    assert s2.clients[0] == Conn(Some("bob"), true, []) && s2.clients[1] == Conn(Some("carol"), true, []);
    assert "bob" + ": " + "hi" == "bob: hi";
    assert s3.clients[0] == Conn(Some("bob"), true, ["bob: hi"]);
    assert s3.clients[1] == Conn(Some("carol"), true, ["bob: hi"]);
    assert Run(TwoClients, ds) == Run(s1, ds[1..]);
    assert Run(s1, ds[1..]) == Run(s2, ds[2..]);
    assert Run(s2, ds[2..]) == Run(s3, ds[3..]);
  }

  /** bob logs in and says "hi"; carol chats before logging in: she gets
      "bob: hi" and then the login-required error, and is disconnected. */
  lemma ChatBeforeLoginScenario()
    ensures var s := Run(TwoClients, [Delivery(0, "#login bob", Fine), Delivery(0, "hi", Fine), Delivery(1, "hello", Fine)]);
      0 in s.clients && 1 in s.clients &&
      s.clients[0] == Conn(Some("bob"), true, ["bob: hi"]) &&
      s.clients[1] == Conn(None, false, ["bob: hi", MustLoginFirst])
  {
    var ds := [Delivery(0, "#login bob", Fine), Delivery(0, "hi", Fine), Delivery(1, "hello", Fine)];
    assert IsLogin("#login bob") && "#login bob"[|LoginPrefix|..] == "bob";
    assert !IsLogin("hi") && !IsLogin("hello");
    var s1 := Dispatch(TwoClients, 0, "#login bob", Fine);
    var s2 := Dispatch(s1, 0, "hi", Fine);
    var s3 := Dispatch(s2, 1, "hello", Fine);
    assert s1.clients[0] == Conn(Some("bob"), true, []) && s1.clients[1] == NewConn;
    assert "bob" + ": " + "hi" == "bob: hi";
    assert s2.clients[0] == Conn(Some("bob"), true, ["bob: hi"]) && s2.clients[1] == Conn(None, true, ["bob: hi"]);
    assert s3.clients[0] == s2.clients[0];
    assert s3.clients[1] == Conn(None, false, ["bob: hi", MustLoginFirst]);
    assert Run(TwoClients, ds) == Run(s1, ds[1..]);
    assert Run(s1, ds[1..]) == Run(s2, ds[2..]);
    assert Run(s2, ds[2..]) == Run(s3, ds[3..]);
  }

  /** "#login" without the space is a chat line, and "#login " with nothing
      after it logs in with the empty id. */
  lemma LoginNeedsTheSpace(s: ServerState, id: ConnId, io: Io)
    requires id in s.clients && s.clients[id].open && s.clients[id].loginId.None?
    ensures Dispatch(s, id, "#login", io) == Reject(s, id, MustLoginFirst, io)
    ensures Dispatch(s, id, "#login ", io).clients[id].loginId == Some("")
  {
    assert !IsLogin("#login");
    assert IsLogin("#login ") && "#login "[|LoginPrefix|..] == "";
  }
}
