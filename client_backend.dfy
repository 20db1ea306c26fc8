/** The chat client (ChatClient): one connection to the server, a login id
    it sends as "#login <id>" whenever the connection comes up, and an
    isTerminating flag that tells a voluntary quit from a closure by the
    server.

    The socket belongs to the ocsf AbstractClient, which is not part of this
    model: it is the connected flag. Its openConnection ends by running the
    connectionEstablished hook, and its closeConnection, when it succeeds,
    ends by running the connectionClosed hook. System.exit is the halted
    flag, and a halted client takes no further step. */
module ClientBackend {
  import opened JavaText

  const TerminatingNotice: string := "Client is terminating."
  const ClosedNotice: string := "Connection closed."
  const ExceptionNotice: string := "Server has shut down due to an exception. Terminating client."
  const SendFailedNotice: string := "Could not send message to server.  Terminating client."
  const LoginSendFailedNotice: string := "Error sending login message to server."
  const LogoffError: string := "Error logging off."
  const AlreadyLoggedOff: string := "Already logged off."
  const LoginError: string := "Error logging in."
  const AlreadyConnected: string := "Already connected."

  /** Whether sendToServer, closeConnection and openConnection throw an IOException. */
  datatype Io = Io(sendFails: bool, closeFails: bool, openFails: bool)

  /** The client's state: its flags, the host and port the next
      openConnection uses, every message handed to the user interface's
      display, and every message sent to the server. */
  datatype ClientState = ClientState(
    isTerminating: bool,
    connected: bool,
    halted: bool,
    host: string,
    port: int,
    ui: seq<string>,
    sent: seq<string>)

  /** sendToServer succeeds only on an open connection. */
  predicate SendSucceeds(s: ClientState, sendFails: bool) {
    s.connected && !sendFails
  }

  /** A client that is terminating has exited: quit, the only place that
      sets the flag, always ends in System.exit. */
  predicate Consistent(s: ClientState) {
    s.isTerminating ==> s.halted
  }

  /** The connectionClosed hook. */
  function ClosedEffect(s: ClientState): (r: ClientState)
    ensures r.ui == s.ui + [if s.isTerminating then TerminatingNotice else ClosedNotice]
    ensures r.halted <==> s.halted || s.isTerminating
    ensures r.(ui := s.ui, halted := s.halted) == s
  {
    if s.isTerminating then s.(ui := s.ui + [TerminatingNotice], halted := true)
    else s.(ui := s.ui + [ClosedNotice])
  }

  /** The connectionException hook: always fatal. */
  function ExceptionEffect(s: ClientState): (r: ClientState)
    ensures r.halted && r.ui == s.ui + [ExceptionNotice]
    ensures r.(ui := s.ui, halted := s.halted) == s
  {
    s.(ui := s.ui + [ExceptionNotice], halted := true)
  }

  /** AbstractClient.closeConnection: when it does not throw, the connection
      is down and the connectionClosed hook has run. */
  function CloseEffect(s: ClientState, closeFails: bool): (r: ClientState)
    ensures closeFails ==> r == s
    ensures !closeFails ==>
      !r.connected && r.ui == s.ui + [if s.isTerminating then TerminatingNotice else ClosedNotice] &&
      r.sent == s.sent && r.isTerminating == s.isTerminating && (r.halted <==> s.halted || s.isTerminating)
  {
    if closeFails then s else ClosedEffect(s.(connected := false))
  }

  /** quit(): mark the client terminating, close (ignoring a failure), exit.
      Because the flag is set first, a successful close shows the
      terminating notice, never the generic one. */
  function QuitEffect(s: ClientState, closeFails: bool): (r: ClientState)
    ensures r.isTerminating && r.halted
    ensures r.connected <==> s.connected && closeFails
    ensures r.ui == s.ui + (if closeFails then [] else [TerminatingNotice])
    ensures r.sent == s.sent && r.host == s.host && r.port == s.port
  {
    CloseEffect(s.(isTerminating := true), closeFails).(halted := true)
  }

  /** The connectionEstablished hook: send exactly "#login <id>" and
      announce the login; a failed send is fatal. */
  function EstablishedEffect(s: ClientState, loginId: string, io: Io): (r: ClientState)
    ensures SendSucceeds(s, io.sendFails) ==>
      r.sent == s.sent + ["#login " + loginId] && r.ui == s.ui + [loginId + " has logged on."] &&
      r.(ui := s.ui, sent := s.sent) == s
    ensures !SendSucceeds(s, io.sendFails) ==>
      r.halted && r.sent == s.sent && |r.ui| > |s.ui| &&
      r.ui[|s.ui|] == LoginSendFailedNotice && r.ui[..|s.ui|] == s.ui &&
      r == QuitEffect(s.(ui := s.ui + [LoginSendFailedNotice]), io.closeFails)
  {
    if SendSucceeds(s, io.sendFails) then
      s.(sent := s.sent + ["#login " + loginId], ui := s.ui + [loginId + " has logged on."])
    else
      var t := s.(ui := s.ui + [LoginSendFailedNotice]);
      assert QuitEffect(t, io.closeFails).ui[..|s.ui|] == s.ui;
      QuitEffect(t, io.closeFails)
  }

  /** AbstractClient.openConnection: nothing to do on an open connection;
      otherwise, when it does not throw, the connection is up and the
      connectionEstablished hook has run. */
  function OpenEffect(s: ClientState, loginId: string, io: Io): (r: ClientState)
    ensures s.connected || io.openFails ==> r == s
    ensures !s.connected && !io.openFails && !io.sendFails ==>
      r.connected && r.sent == s.sent + ["#login " + loginId] && r.ui == s.ui + [loginId + " has logged on."] &&
      r.halted == s.halted
    ensures !s.connected && !io.openFails && io.sendFails ==>
      r.halted && r.sent == s.sent && |r.ui| > |s.ui| && r.ui[|s.ui|] == LoginSendFailedNotice
  {
    if s.connected || io.openFails then s else EstablishedEffect(s.(connected := true), loginId, io)
  }

  /** handleMessageFromServer: the message is shown verbatim. */
  function ServerTextEffect(s: ClientState, msg: string): (r: ClientState)
    ensures r.ui == s.ui + [msg] && r.(ui := s.ui) == s
  {
    s.(ui := s.ui + [msg])
  }

  /** handleMessageFromClientUI: the text goes to the server verbatim; a
      failed send shows the notice and quits. */
  function UserTextEffect(s: ClientState, msg: string, io: Io): (r: ClientState)
    ensures SendSucceeds(s, io.sendFails) ==> r.sent == s.sent + [msg] && r.(sent := s.sent) == s
    ensures !SendSucceeds(s, io.sendFails) ==>
      r.halted && r.isTerminating && r.sent == s.sent &&
      r.ui == s.ui + [SendFailedNotice] + (if io.closeFails then [] else [TerminatingNotice])
  {
    if SendSucceeds(s, io.sendFails) then s.(sent := s.sent + [msg])
    else QuitEffect(s.(ui := s.ui + [SendFailedNotice]), io.closeFails)
  }

  /** logoff(): close an open connection (a failure is shown, not fatal);
      with no connection, only say so. */
  function LogoffEffect(s: ClientState, closeFails: bool): (r: ClientState)
    ensures !s.connected ==> r == s.(ui := s.ui + [AlreadyLoggedOff])
    ensures s.connected && closeFails ==> r == s.(ui := s.ui + [LogoffError])
    ensures s.connected && !closeFails ==> !r.connected && r == ClosedEffect(s.(connected := false))
    ensures r.sent == s.sent && r.isTerminating == s.isTerminating
    ensures Consistent(s) && !s.halted ==> !r.halted
  {
    if s.connected then
      if closeFails then s.(ui := s.ui + [LogoffError]) else CloseEffect(s, false)
    else s.(ui := s.ui + [AlreadyLoggedOff])
  }

  /** login(): open the connection again if there is none (which sends the
      login command); with a connection, only say so. */
  function LoginEffect(s: ClientState, loginId: string, io: Io): (r: ClientState)
    ensures s.connected ==> r == s.(ui := s.ui + [AlreadyConnected])
    ensures !s.connected && io.openFails ==> r == s.(ui := s.ui + [LoginError])
    ensures !s.connected && !io.openFails ==> r == EstablishedEffect(s.(connected := true), loginId, io)
    ensures !s.connected && !io.openFails && !io.sendFails ==>
      r.connected && r.sent == s.sent + ["#login " + loginId]
  {
    if !s.connected then
      if io.openFails then s.(ui := s.ui + [LoginError]) else OpenEffect(s, loginId, io)
    else s.(ui := s.ui + [AlreadyConnected])
  }

  /** The connectionClosed hook of a client that is still running shows the
      generic notice and keeps it running: only quit can make it terminate. */
  lemma ClosedWhileRunning(s: ClientState)
    requires Consistent(s) && !s.halted
    ensures ClosedEffect(s) == s.(ui := s.ui + [ClosedNotice])
  {
  }

  /** Logging off twice: the first closes the connection, the second only
      says the client is already logged off; the client keeps running. */
  lemma LogoffTwice(s: ClientState, closeFails: bool)
    requires Consistent(s) && !s.halted && s.connected
    ensures var r := LogoffEffect(LogoffEffect(s, false), closeFails);
      !r.connected && !r.halted && r.sent == s.sent &&
      r.ui == s.ui + [ClosedNotice, AlreadyLoggedOff]
  {
  }

  // ---------------------------------------------------------------------------
  // Runs of the client

  /** The steps a client takes: the user's calls and the transport's callbacks. */
  datatype Event =
    | UserText(msg: string, io: Io)
    | ServerText(msg: string)
    | UserQuit(closeFails: bool)
    | UserLogoff(closeFails: bool)
    | UserLogin(io: Io)
    | TransportClosed
    | TransportException

  function Step(s: ClientState, loginId: string, e: Event): ClientState {
    match e
    case UserText(msg, io) => UserTextEffect(s, msg, io)
    case ServerText(msg) => ServerTextEffect(s, msg)
    case UserQuit(closeFails) => QuitEffect(s, closeFails)
    case UserLogoff(closeFails) => LogoffEffect(s, closeFails)
    case UserLogin(io) => LoginEffect(s, loginId, io)
    case TransportClosed => ClosedEffect(s.(connected := false))
    case TransportException => ExceptionEffect(s)
  }

  /** The state after the events, in order; once halted, nothing happens. */
  function Run(s: ClientState, loginId: string, es: seq<Event>): ClientState
    decreases |es|
  {
    if es == [] || s.halted then s else Run(Step(s, loginId, es[0]), loginId, es[1..])
  }

  /** Every step keeps a client consistent. */
  lemma StepKeepsConsistent(s: ClientState, loginId: string, e: Event)
    requires Consistent(s)
    ensures Consistent(Step(s, loginId, e))
  {
  }

  /** Every step only adds to what was shown and what was sent. */
  lemma StepOnlyAppends(s: ClientState, loginId: string, e: Event)
    ensures var r := Step(s, loginId, e);
      |s.ui| <= |r.ui| && r.ui[..|s.ui|] == s.ui && |s.sent| <= |r.sent| && r.sent[..|s.sent|] == s.sent
  {
    var r := Step(s, loginId, e);
    assert r.ui[..|s.ui|] == s.ui;
  }

  /** Over any run a client stays consistent, and the display and the sent
      log are only ever extended. */
  lemma {:induction false} RunInvariants(s: ClientState, loginId: string, es: seq<Event>)
    requires Consistent(s)
    ensures var r := Run(s, loginId, es);
      Consistent(r) &&
      |s.ui| <= |r.ui| && r.ui[..|s.ui|] == s.ui &&
      |s.sent| <= |r.sent| && r.sent[..|s.sent|] == s.sent
    decreases |es|
  {
    if es != [] && !s.halted {
      var t := Step(s, loginId, es[0]);
      StepKeepsConsistent(s, loginId, es[0]);
      StepOnlyAppends(s, loginId, es[0]);
      RunInvariants(t, loginId, es[1..]);
      var r := Run(t, loginId, es[1..]);
      assert r.ui[..|s.ui|] == r.ui[..|t.ui|][..|s.ui|];
      assert r.sent[..|s.sent|] == r.sent[..|t.sent|][..|s.sent|];
    }
  }

  /** Over any run, nothing reaches the server but the user's own text and
      "#login <id>" commands. */
  lemma {:induction false} RunSendsOnlyTextAndLogins(s: ClientState, loginId: string, es: seq<Event>)
    ensures var r := Run(s, loginId, es);
      |s.sent| <= |r.sent| && r.sent[..|s.sent|] == s.sent &&
      forall j :: |s.sent| <= j < |r.sent| ==>
        r.sent[j] == "#login " + loginId || exists i :: 0 <= i < |es| && es[i].UserText? && es[i].msg == r.sent[j]
    decreases |es|
  {
    if es != [] && !s.halted {
      var t := Step(s, loginId, es[0]);
      RunSendsOnlyTextAndLogins(t, loginId, es[1..]);
      StepOnlyAppends(s, loginId, es[0]);
      var r := Run(t, loginId, es[1..]);
      assert r.sent[..|s.sent|] == r.sent[..|t.sent|][..|s.sent|];
      forall j | |s.sent| <= j < |r.sent|
        ensures r.sent[j] == "#login " + loginId || exists i :: 0 <= i < |es| && es[i].UserText? && es[i].msg == r.sent[j]
      {
        if j >= |t.sent| {
          if r.sent[j] != "#login " + loginId {
            var i :| 0 <= i < |es[1..]| && es[1..][i].UserText? && es[1..][i].msg == r.sent[j];
            assert es[i + 1] == es[1..][i];
          }
        } else {
          assert r.sent[j] == r.sent[..|t.sent|][j] == t.sent[j];
          StepSends(s, loginId, es[0], j);
        }
      }
    }
  }

  /** What one step sends is "#login <id>" or the user's text. */
  lemma StepSends(s: ClientState, loginId: string, e: Event, j: int)
    requires |s.sent| <= j < |Step(s, loginId, e).sent|
    ensures Step(s, loginId, e).sent[j] == "#login " + loginId || (e.UserText? && e.msg == Step(s, loginId, e).sent[j])
  {
  }

  // ---------------------------------------------------------------------------
  // The client object

  class ChatClient {
    const loginId: string
    var isTerminating: bool
    var connected: bool
    var halted: bool
    var host: string
    var port: int
    var ui: seq<string>
    var sent: seq<string>

    function State(): ClientState
      reads this
    {
      ClientState(isTerminating, connected, halted, host, port, ui, sent)
    }

    /** new ChatClient(loginId, host, port, clientUI) up to its openConnection() call. */
    constructor(loginId: string, host: string, port: int)
      ensures this.loginId == loginId
      ensures State() == ClientState(false, false, false, host, port, [], [])
    {
      this.loginId := loginId;
      isTerminating := false;
      connected := false;
      halted := false;
      this.host := host;
      this.port := port;
      ui := [];
      sent := [];
    }

    /** ChatIF.display(message). */
    method Display(message: string)
      modifies this
      ensures State() == old(State()).(ui := old(ui) + [message])
    {
      ui := ui + [message];
    }

    method SendToServer(msg: string, sendFails: bool) returns (ok: bool)
      modifies this
      ensures ok == SendSucceeds(old(State()), sendFails)
      ensures State() == if ok then old(State()).(sent := old(sent) + [msg]) else old(State())
    {
      ok := connected && !sendFails;
      if ok {
        sent := sent + [msg];
      }
    }

    method HandleMessageFromServer(msg: string)
      requires !halted
      modifies this
      ensures State() == ServerTextEffect(old(State()), msg)
    {
      Display(msg);
    }

    method HandleMessageFromClientUI(message: string, io: Io)
      requires !halted
      modifies this
      ensures State() == UserTextEffect(old(State()), message, io)
    {
      var ok := SendToServer(message, io.sendFails);
      if !ok {
        Display(SendFailedNotice);
        Quit(io.closeFails);
      }
    }

    method Quit(closeFails: bool)
      requires !halted
      modifies this
      ensures State() == QuitEffect(old(State()), closeFails)
    {
      isTerminating := true;
      var ok := CloseConnection(closeFails);
      halted := true;
    }

    method CloseConnection(closeFails: bool) returns (ok: bool)
      requires !halted
      modifies this
      ensures ok == !closeFails
      ensures State() == CloseEffect(old(State()), closeFails)
    {
      ok := !closeFails;
      if ok {
        connected := false;
        ConnectionClosed();
      }
    }

    method OpenConnection(io: Io) returns (ok: bool)
      requires !halted
      modifies this
      ensures ok == (old(connected) || !io.openFails)
      ensures State() == OpenEffect(old(State()), loginId, io)
    {
      if connected {
        return true;
      }
      ok := !io.openFails;
      if ok {
        connected := true;
        ConnectionEstablished(io);
      }
    }

    method ConnectionEstablished(io: Io)
      requires !halted
      modifies this
      ensures State() == EstablishedEffect(old(State()), loginId, io)
    {
      var ok := SendToServer("#login " + loginId, io.sendFails);
      if ok {
        Display(loginId + " has logged on.");
      } else {
        Display(LoginSendFailedNotice);
        Quit(io.closeFails);
      }
    }

    method ConnectionClosed()
      requires !halted
      modifies this
      ensures State() == ClosedEffect(old(State()))
    {
      if isTerminating {
        Display(TerminatingNotice);
        halted := true;
      } else {
        Display(ClosedNotice);
      }
    }

    method ConnectionException()
      requires !halted
      modifies this
      ensures State() == ExceptionEffect(old(State()))
    {
      Display(ExceptionNotice);
      halted := true;
    }

    method Logoff(closeFails: bool)
      requires !halted
      modifies this
      ensures State() == LogoffEffect(old(State()), closeFails)
    {
      if connected {
        var ok := CloseConnection(closeFails);
        if !ok {
          Display(LogoffError);
        }
      } else {
        Display(AlreadyLoggedOff);
      }
    }

    method Login(io: Io)
      requires !halted
      modifies this
      ensures State() == LoginEffect(old(State()), loginId, io)
    {
      if !connected {
        var ok := OpenConnection(io);
        if !ok {
          Display(LoginError);
        }
      } else {
        Display(AlreadyConnected);
      }
    }

    /** AbstractClient.setHost: the host the next openConnection uses. */
    method SetHost(h: string)
      modifies this
      ensures State() == old(State()).(host := h)
    {
      host := h;
    }

    /** AbstractClient.setPort: the port the next openConnection uses. */
    method SetPort(p: int)
      modifies this
      ensures State() == old(State()).(port := p)
    {
      port := p;
    }
  }
}
