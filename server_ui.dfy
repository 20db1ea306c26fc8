/** The server's console (ServerConsole): it reads lines, runs those that
    start with '#' as administrative commands on the server and broadcasts
    the rest to every client as "SERVER MSG> " + line. Its display prints
    "> " + message on the server's standard output. */
module ServerUi {
  import opened JavaText
  import SB = ServerBackend

  const ServerMsgPrefix: string := "SERVER MSG> "
  const ConsoleReadError: string := "Unexpected error while reading from console!"
  const InvalidPortError: string := "ERROR - Invalid port number. Using default port 5555"

  /** What handleCommand does with a command line. */
  datatype Command =
    | QuitCmd
    | StopCmd
    | CloseCmd
    | SetPortCmd(port: int)
    | InvalidPort
    | SetPortUsage
    | StartCmd
    | GetPortCmd
    | UnknownCmd

  /** None of the exact-match command names starts with "#setport". */
  lemma NamesAreNotSetPortPrefixed()
    ensures forall c :: c in {"#quit", "#stop", "#close", "#start", "#getport"} ==> !StartsWith(c, "#setport")
  {
    NotPrefixAt("#quit", "#setport", 1);
    NotPrefixAt("#stop", "#setport", 2);
    NotPrefixAt("#close", "#setport", 1);
    NotPrefixAt("#start", "#setport", 2);
    NotPrefixAt("#getport", "#setport", 1);
  }

  /** handleCommand's if/else chain: five commands must match exactly;
      "#setport" is a prefix whose argument is the second piece of
      command.split(" "). */
  function Classify(command: string): (r: Command)
    ensures r == QuitCmd <==> command == "#quit"
    ensures r == StopCmd <==> command == "#stop"
    ensures r == CloseCmd <==> command == "#close"
    ensures r == StartCmd <==> command == "#start"
    ensures r == GetPortCmd <==> command == "#getport"
    ensures r.SetPortCmd? <==>
      StartsWith(command, "#setport") && SecondToken(command).Some? && ParseInt(SecondToken(command).value).Some?
    ensures r.SetPortCmd? ==> Some(r.port) == ParseInt(SecondToken(command).value)
    ensures r == InvalidPort <==>
      StartsWith(command, "#setport") && SecondToken(command).Some? && ParseInt(SecondToken(command).value).None?
    ensures r == SetPortUsage <==> StartsWith(command, "#setport") && SecondToken(command).None?
    ensures r == UnknownCmd <==>
      command !in {"#quit", "#stop", "#close", "#start", "#getport"} && !StartsWith(command, "#setport")
  {
    NamesAreNotSetPortPrefixed();
    if command == "#quit" then QuitCmd
    else if command == "#stop" then StopCmd
    else if command == "#close" then CloseCmd
    else if StartsWith(command, "#setport") then
      match SecondToken(command)
      case Some(p) => (match ParseInt(p) case Some(n) => SetPortCmd(n) case None => InvalidPort)
      case None => SetPortUsage
    else if command == "#start" then StartCmd
    else if command == "#getport" then GetPortCmd
    else UnknownCmd
  }

  /** "#setport" with a port written in decimal sets that port.
      The #setport branch is the same code in both consoles'
      handleCommand, so this is the client's lemma for the server's chain. */
  lemma SetPortNumber(p: int)
    requires InInt(p)
    ensures Classify("#setport " + IntToString(p)) == SetPortCmd(p)
  {
    NumberArgument("#setport", p);
    assert "#setport" + " " + IntToString(p) == "#setport " + IntToString(p);
  }

  /** Whether the server calls a command makes, close and listen, throw an IOException. */
  datatype ConsoleIo = ConsoleIo(closeFails: bool, listenFails: bool)

  /** The server and whether accept() is still reading lines. */
  datatype ConsoleState = ConsoleState(server: SB.ServerState, reading: bool)

  /** ServerConsole.display: the line printed for a message. */
  function Display(message: string): (line: string)
    ensures StartsWith(line, "> ") && line[2..] == message
  {
    "> " + message
  }

  function Shown(s: SB.ServerState, message: string): SB.ServerState {
    s.(out := s.out + [Display(message)])
  }

  /** The console neither logs a connection in or out nor reopens it. */
  predicate KeepsSession(before: SB.Conn, after: SB.Conn) {
    after.loginId == before.loginId && (after.open ==> before.open)
  }

  /** What a console command does. Only a failing #close ends the console:
      its IOException leaves handleCommand and stops accept()'s loop. */
  function CommandEffect(s: SB.ServerState, cmd: Command, io: ConsoleIo): (r: ConsoleState)
    ensures !r.reading <==> cmd == CloseCmd && io.closeFails
    ensures r.server.clients.Keys == s.clients.Keys
    ensures forall c :: c in s.clients ==> KeepsSession(s.clients[c], r.server.clients[c])
    ensures cmd != QuitCmd && cmd != CloseCmd ==> r.server.clients == s.clients
    ensures r.server.halted <==> s.halted || cmd == QuitCmd
    ensures cmd == StartCmd ==> r.server.listening == (s.listening || !io.listenFails)
    ensures cmd == StopCmd ==> !r.server.listening
    ensures cmd.SetPortCmd? ==> r.server.port == cmd.port
    ensures !cmd.SetPortCmd? ==> r.server.port == s.port
    // What #quit, #stop, #close, #setport and #start do to the server.
    ensures cmd == QuitCmd ==> r.server == SB.QuitEffect(s, io.closeFails)
    ensures cmd == StopCmd ==> r.server == s.(listening := false)
    ensures cmd == CloseCmd && !io.closeFails ==>
      r.server == s.(clients := SB.CloseAll(s.clients), listening := false)
    ensures cmd == CloseCmd && io.closeFails ==> r.server == s.(out := s.out + [ConsoleReadError])
    ensures cmd.SetPortCmd? ==> r.server == s.(port := cmd.port)
    ensures cmd == StartCmd && !io.listenFails ==> r.server == s.(listening := true)
    // The commands that only display a message, and the message each one displays.
    ensures cmd == InvalidPort ==> r.server == s.(out := s.out + [Display("Invalid port number.")])
    ensures cmd == SetPortUsage ==> r.server == s.(out := s.out + [Display("Usage: #setport <port>")])
    ensures cmd == StartCmd && io.listenFails ==>
      r.server == s.(out := s.out + [Display("Error starting the server.")])
    ensures cmd == GetPortCmd ==> r.server == s.(out := s.out + [Display("Current port: " + IntToString(s.port))])
    ensures cmd == UnknownCmd ==> r.server == s.(out := s.out + [Display("Unknown command.")])
  {
    match cmd
    case QuitCmd => ConsoleState(SB.QuitEffect(s, io.closeFails), true)
    case StopCmd => ConsoleState(s.(listening := false), true)
    case CloseCmd =>
      if io.closeFails then ConsoleState(s.(out := s.out + [ConsoleReadError]), false)
      else ConsoleState(s.(clients := SB.CloseAll(s.clients), listening := false), true)
    case SetPortCmd(p) => ConsoleState(s.(port := p), true)
    case InvalidPort => ConsoleState(Shown(s, "Invalid port number."), true)
    case SetPortUsage => ConsoleState(Shown(s, "Usage: #setport <port>"), true)
    case StartCmd =>
      if io.listenFails then ConsoleState(Shown(s, "Error starting the server."), true)
      else ConsoleState(s.(listening := true), true)
    case GetPortCmd => ConsoleState(Shown(s, "Current port: " + IntToString(s.port)), true)
    case UnknownCmd => ConsoleState(Shown(s, "Unknown command."), true)
  }

  /** One line read by accept(): a command when it starts with '#';
      otherwise "SERVER MSG> " + line goes to every open connection, logged
      in or not, and the same text is displayed. */
  function LineEffect(s: SB.ServerState, line: string, io: ConsoleIo): (r: ConsoleState)
    ensures StartsWith(line, "#") ==> r == CommandEffect(s, Classify(line), io)
    ensures r.server.clients.Keys == s.clients.Keys
    ensures forall c :: c in s.clients ==> KeepsSession(s.clients[c], r.server.clients[c])
    ensures !StartsWith(line, "#") ==>
      r.reading && r.server.clients == SB.Broadcast(s.clients, ServerMsgPrefix + line) &&
      r.server.out == s.out + ["> " + ServerMsgPrefix + line] &&
      r.server.port == s.port && r.server.listening == s.listening && r.server.halted == s.halted
  {
    if StartsWith(line, "#") then CommandEffect(s, Classify(line), io)
    else
      assert "> " + (ServerMsgPrefix + line) == "> " + ServerMsgPrefix + line;
      ConsoleState(Shown(s.(clients := SB.Broadcast(s.clients, ServerMsgPrefix + line)), ServerMsgPrefix + line), true)
  }

  /** A server message reaches a connection that never logged in: the
      console is not subject to login gating. */
  lemma ServerMessageBypassesLogin(s: SB.ServerState, line: string, io: ConsoleIo, c: SB.ConnId)
    requires !StartsWith(line, "#")
    requires c in s.clients && s.clients[c].open && s.clients[c].loginId.None?
    ensures var r := LineEffect(s, line, io).server;
      c in r.clients && r.clients[c].outbox == s.clients[c].outbox + ["SERVER MSG> " + line] &&
      r.clients[c].open && r.clients[c].loginId.None?
  {
  }

  /** One line typed on the server console, with how the server's I/O behaves while it runs. */
  datatype Input = Input(line: string, io: ConsoleIo)

  /** accept()'s loop over the typed lines: it stops once a line ends it or
      the server has exited. */
  function Run(st: ConsoleState, inputs: seq<Input>): (r: ConsoleState)
    ensures !st.reading || st.server.halted ==> r == st
    ensures |inputs| > 0 && st.reading && !st.server.halted ==>
      r == Run(LineEffect(st.server, inputs[0].line, inputs[0].io), inputs[1..])
    decreases |inputs|
  {
    if inputs == [] || !st.reading || st.server.halted then st
    else Run(LineEffect(st.server, inputs[0].line, inputs[0].io), inputs[1..])
  }

  /** Whatever is typed on the console, no connection appears, none changes
      its login id and none that was closed is open again. */
  lemma {:induction false} RunKeepsSessions(st: ConsoleState, inputs: seq<Input>)
    ensures var r := Run(st, inputs);
      r.server.clients.Keys == st.server.clients.Keys &&
      forall c :: c in st.server.clients ==> KeepsSession(st.server.clients[c], r.server.clients[c])
    decreases |inputs|
  {
    if inputs != [] && st.reading && !st.server.halted {
      var next := LineEffect(st.server, inputs[0].line, inputs[0].io);
      RunKeepsSessions(next, inputs[1..]);
    }
  }

  /** Once the console has stopped reading, further lines change nothing. */
  lemma {:induction false} RunStopsAfterClose(st: ConsoleState, inputs: seq<Input>)
    requires st.reading && !st.server.halted && |inputs| > 0
    requires inputs[0].line == "#close" && inputs[0].io.closeFails
    ensures Run(st, inputs) == ConsoleState(st.server.(out := st.server.out + [ConsoleReadError]), false)
  {
    NamesAreNotSetPortPrefixed();
    assert StartsWith("#close", "#");
    assert Classify("#close") == CloseCmd;
  }

  /** A line that starts with '#' and classifies as cmd has cmd's effect. */
  lemma CommandLine(s: SB.ServerState, line: string, io: ConsoleIo, cmd: Command)
    requires |line| > 0 && line[0] == '#' && Classify(line) == cmd
    ensures LineEffect(s, line, io) == CommandEffect(s, cmd, io)
  {
    assert line[..1] == "#";
  }

  /** "#setport p" followed by "#getport" displays "Current port: " and p in decimal. */
  lemma SetThenGetPort(s: SB.ServerState, p: int, io: ConsoleIo)
    requires InInt(p)
    ensures var r := LineEffect(LineEffect(s, "#setport " + IntToString(p), io).server, "#getport", io);
      r == ConsoleState(s.(port := p, out := s.out + [Display("Current port: " + IntToString(p))]), true)
  {
    SetPortNumber(p);
    CommandLine(s, "#setport " + IntToString(p), io, SetPortCmd(p));
    assert Classify("#getport") == GetPortCmd;
    CommandLine(s.(port := p), "#getport", io, GetPortCmd);
  }

  /** A trailing space turns an exact-match command into an unknown one. */
  lemma ExactCommandsRejectTrailingSpace()
    ensures Classify("#quit ") == UnknownCmd
    ensures Classify("#stop ") == UnknownCmd
    ensures Classify("#close ") == UnknownCmd
    ensures Classify("#start ") == UnknownCmd
    ensures Classify("#getport ") == UnknownCmd
  {
    NotPrefixAt("#quit ", "#setport", 1);
    NotPrefixAt("#stop ", "#setport", 2);
    NotPrefixAt("#close ", "#setport", 1);
    NotPrefixAt("#start ", "#setport", 2);
    NotPrefixAt("#getport ", "#setport", 1);
  }

  /** How main starts the server: the port, and what it printed on the way. */
  datatype Launch = Launch(port: int, notices: seq<string>)

  /** main(args): port 5555 unless args[0] is present and parses; an
      argument that does not parse is reported and 5555 kept. */
  function ParseArgs(args: seq<string>): (r: Launch)
    ensures |args| == 0 ==> r == Launch(SB.DefaultPort, [])
    ensures |args| > 0 && ParseInt(args[0]).Some? ==> r == Launch(ParseInt(args[0]).value, [])
    ensures |args| > 0 && ParseInt(args[0]).None? ==> r == Launch(SB.DefaultPort, [InvalidPortError])
  {
    if |args| > 0 then
      match ParseInt(args[0])
      case Some(p) => Launch(p, [])
      case None => Launch(SB.DefaultPort, [InvalidPortError])
    else Launch(SB.DefaultPort, [])
  }

  /** The console's main and EchoServer's own main pick the same port. */
  lemma BothMainsAgreeOnPort(args: seq<string>)
    ensures ParseArgs(args).port == SB.MainPort(args)
  {
  }

  // ---------------------------------------------------------------------------
  // The console object

  class ServerConsole {
    const server: SB.EchoServer
    var reading: bool

    function State(): ConsoleState
      reads this, server
    {
      ConsoleState(server.State(), reading)
    }

    /** new ServerConsole(port). */
    constructor(port: int)
      ensures fresh(server)
      ensures State() == ConsoleState(SB.ServerState(map[], [], port, false, false), true)
    {
      server := new SB.EchoServer(port);
      reading := true;
    }

    method Display(message: string)
      modifies server
      ensures server.State() == Shown(old(server.State()), message)
    {
      server.out := server.out + ["> " + message];
    }

    /** handleCommand(command); threw tells that an IOException left it. */
    method HandleCommand(command: string, io: ConsoleIo) returns (threw: bool)
      requires !server.halted
      modifies server
      ensures threw <==> Classify(command) == CloseCmd && io.closeFails
      ensures threw ==> server.State() == old(server.State())
      ensures !threw ==> server.State() == CommandEffect(old(server.State()), Classify(command), io).server
    {
      threw := false;
      if command == "#quit" {
        server.Quit(io.closeFails);
      } else if command == "#stop" {
        server.StopListening();
      } else if command == "#close" {
        var ok := server.Close(io.closeFails);
        threw := !ok;
      } else if StartsWith(command, "#setport") {
        var parts := Split(command, ' ');
        if |parts| > 1 {
          match ParseInt(parts[1]) {
            case Some(p) => server.SetPort(p);
            case None => Display("Invalid port number.");
          }
        } else {
          Display("Usage: #setport <port>");
        }
      } else if command == "#start" {
        var ok := server.Listen(io.listenFails);
        if !ok {
          Display("Error starting the server.");
        }
      } else if command == "#getport" {
        Display("Current port: " + IntToString(server.port));
      } else {
        Display("Unknown command.");
      }
    }

    /** handleMessageFromConsole(message). */
    method HandleMessageFromConsole(message: string, io: ConsoleIo) returns (threw: bool)
      requires !server.halted
      modifies server
      ensures threw <==> StartsWith(message, "#") && Classify(message) == CloseCmd && io.closeFails
      ensures threw ==> server.State() == old(server.State())
      ensures !threw ==> server.State() == LineEffect(old(server.State()), message, io).server
    {
      if StartsWith(message, "#") {
        threw := HandleCommand(message, io);
      } else {
        threw := false;
        server.SendToAllClients(ServerMsgPrefix + message);
        Display(ServerMsgPrefix + message);
      }
    }

    /** One turn of accept()'s loop: an exception ends the loop after the read-error line. */
    method AcceptLine(message: string, io: ConsoleIo)
      requires reading && !server.halted
      modifies this, server
      ensures State() == LineEffect(old(server.State()), message, io)
    {
      var threw := HandleMessageFromConsole(message, io);
      if threw {
        server.out := server.out + [ConsoleReadError];
        reading := false;
      }
    }

    /** main(args): pick the port, create the console, try to listen once. */
    static method Launch(args: seq<string>, listenFails: bool) returns (console: ServerConsole)
      ensures fresh(console) && fresh(console.server)
      ensures console.State() == ConsoleState(
        SB.ServerState(map[], ParseArgs(args).notices + (if listenFails then [SB.ListenError] else []),
                       ParseArgs(args).port, !listenFails, false),
        true)
    {
      var port := SB.DefaultPort;
      var notices: seq<string> := [];
      if |args| > 0 {
        match ParseInt(args[0]) {
          case Some(p) => port := p;
          case None => notices := [InvalidPortError];
        }
      }
      console := new ServerConsole(port);
      console.server.out := notices;
      var ok := console.server.Listen(listenFails);
      if !ok {
        console.server.out := console.server.out + [SB.ListenError];
      }
    }
  }
}
