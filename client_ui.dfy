/** The client's console (ClientConsole): it reads lines, hands those that
    start with '#' to its command handler and the rest to the client as chat
    text, and prints every message shown to the user as "> " + message. */
module ClientUi {
  import opened JavaText
  import CB = ClientBackend

  const DefaultPort: int := 5555
  const DefaultHost: string := "localhost"
  const NoLoginIdError: string := "ERROR - No login ID specified. Connection aborted."
  const InvalidPortError: string := "ERROR - Invalid port number. Using default port 5555"
  const SetupError: string := "Error: Can't setup connection! Terminating client."

  /** What handleCommand does with a command line. */
  datatype Command =
    | QuitCmd
    | LogoffCmd
    | SetHostCmd(host: string)
    | SetHostUsage
    | SetPortCmd(port: int)
    | InvalidPort
    | SetPortUsage
    | LoginCmd
    | GetHostCmd
    | GetPortCmd
    | UnknownCmd

  /** handleCommand's if/else chain. Five commands must match exactly;
      "#sethost" and "#setport" are prefixes whose argument is the second
      piece of command.split(" "). */
  function Classify(command: string): (r: Command)
    ensures r == QuitCmd <==> command == "#quit"
    ensures r == LogoffCmd <==> command == "#logoff"
    ensures r == LoginCmd <==> command == "#login"
    ensures r == GetHostCmd <==> command == "#gethost"
    ensures r == GetPortCmd <==> command == "#getport"
    ensures r.SetHostCmd? <==> StartsWith(command, "#sethost") && SecondToken(command).Some?
    ensures r.SetHostCmd? ==> r.host == SecondToken(command).value
    ensures r == SetHostUsage <==> StartsWith(command, "#sethost") && SecondToken(command).None?
    ensures r.SetPortCmd? <==>
      StartsWith(command, "#setport") && SecondToken(command).Some? && ParseInt(SecondToken(command).value).Some?
    ensures r.SetPortCmd? ==> Some(r.port) == ParseInt(SecondToken(command).value)
    ensures r == InvalidPort <==>
      StartsWith(command, "#setport") && SecondToken(command).Some? && ParseInt(SecondToken(command).value).None?
    ensures r == SetPortUsage <==> StartsWith(command, "#setport") && SecondToken(command).None?
    ensures r == UnknownCmd <==>
      command !in {"#quit", "#logoff", "#login", "#gethost", "#getport"} &&
      !StartsWith(command, "#sethost") && !StartsWith(command, "#setport")
  {
    NamesAreNotSetPrefixed();
    if command == "#quit" then QuitCmd
    else if command == "#logoff" then LogoffCmd
    else if StartsWith(command, "#sethost") then
      match SecondToken(command)
      case Some(h) => SetHostCmd(h)
      case None => SetHostUsage
    else if StartsWith(command, "#setport") then
      match SecondToken(command)
      case Some(p) => (match ParseInt(p) case Some(n) => SetPortCmd(n) case None => InvalidPort)
      case None => SetPortUsage
    else if command == "#login" then LoginCmd
    else if command == "#gethost" then GetHostCmd
    else if command == "#getport" then GetPortCmd
    else UnknownCmd
  }

  /** None of the exact-match command names starts with "#sethost" or "#setport". */
  lemma NamesAreNotSetPrefixed()
    ensures forall c :: c in {"#quit", "#logoff", "#login", "#gethost", "#getport"} ==>
      !StartsWith(c, "#sethost") && !StartsWith(c, "#setport")
  {
    NotPrefixAt("#quit", "#sethost", 1);
    NotPrefixAt("#quit", "#setport", 1);
    NotPrefixAt("#logoff", "#sethost", 1);
    NotPrefixAt("#logoff", "#setport", 1);
    NotPrefixAt("#login", "#sethost", 1);
    NotPrefixAt("#login", "#setport", 1);
    NotPrefixAt("#gethost", "#sethost", 1);
    NotPrefixAt("#gethost", "#setport", 1);
    NotPrefixAt("#getport", "#sethost", 1);
    NotPrefixAt("#getport", "#setport", 1);
  }

  /** A trailing space turns an exact-match command into an unknown one. */
  lemma ExactCommandsRejectTrailingSpace()
    ensures Classify("#quit ") == UnknownCmd
    ensures Classify("#logoff ") == UnknownCmd
    ensures Classify("#login ") == UnknownCmd
    ensures Classify("#login bob") == UnknownCmd
    ensures Classify("#gethost ") == UnknownCmd
    ensures Classify("#getport ") == UnknownCmd
  {
    var names := ["#quit ", "#logoff ", "#login ", "#login bob", "#gethost ", "#getport "];
    forall i | 0 <= i < |names|
      ensures !StartsWith(names[i], "#sethost") && !StartsWith(names[i], "#setport")
    {
      NotPrefixAt(names[i], "#sethost", 1);
      NotPrefixAt(names[i], "#setport", 1);
    }
    assert names[0] == "#quit " && names[1] == "#logoff " && names[2] == "#login ";
    assert names[3] == "#login bob" && names[4] == "#gethost " && names[5] == "#getport ";
  }

  /** "#sethost h" sets host h. */
  lemma SetHostArgument(h: string)
    requires h != "" && ' ' !in h
    ensures Classify("#sethost " + h) == SetHostCmd(h)
  {
    SecondTokenOf("#sethost", h);
    assert ("#sethost" + " " + h) == "#sethost " + h;
    StartsWithConcat("#sethost", " " + h);
  }

  /** "#sethost" and "#sethost " only print the usage. */
  lemma SetHostMissing()
    ensures Classify("#sethost ") == SetHostUsage
    ensures Classify("#sethost") == SetHostUsage
  {
    NoSecondTokenAfterTrailingSpace("#sethost");
    assert "#sethost" + " " == "#sethost ";
    assert StartsWith("#sethost ", "#sethost");
    assert StartsWith("#sethost", "#sethost");
    assert ' ' !in "#sethost";
  }

  /** "#setport" with a port written in decimal sets that port. */
  lemma SetPortNumber(p: int)
    requires InInt(p)
    ensures Classify("#setport " + IntToString(p)) == SetPortCmd(p)
  {
    NumberArgument("#setport", p);
    assert "#setport" + " " + IntToString(p) == "#setport " + IntToString(p);
  }

  /** "#setport" with a token that is not a number reports an invalid port. */
  lemma SetPortNotANumber()
    ensures Classify("#setport abc") == InvalidPort
  {
    var c := "#setport abc";
    AbcIsSecondToken();
    AbcIsNotANumber();
    assert StartsWith(c, "#setport") by {
      assert c[..8] == "#setport";
    }
  }

  lemma AbcIsSecondToken()
    ensures SecondToken("#setport abc") == Some("abc")
  {
    SecondTokenOf("#setport", "abc");
    assert "#setport" + " " + "abc" == "#setport abc";
  }

  lemma AbcIsNotANumber()
    ensures ParseInt("abc") == None
  {
    assert Magnitude("abc") == "abc";
    assert !IsDigit("abc"[0]);
  }

  /** "#setport" with no token, or only a trailing space, prints the usage. */
  lemma SetPortMissing()
    ensures Classify("#setport") == SetPortUsage
    ensures Classify("#setport ") == SetPortUsage
  {
    NoSecondTokenAfterTrailingSpace("#setport");
    assert "#setport" + " " == "#setport ";
    assert "#setport "[..8] == "#setport";
    assert ' ' !in "#setport";
    assert SecondToken("#setport") == None;
  }

  /** What a console command does to the client. */
  function CommandEffect(s: CB.ClientState, loginId: string, cmd: Command, io: CB.Io): (r: CB.ClientState)
    ensures cmd == QuitCmd ==> r == CB.QuitEffect(s, io.closeFails)
    ensures cmd == LogoffCmd ==> r == CB.LogoffEffect(s, io.closeFails)
    ensures cmd == LoginCmd ==> r == CB.LoginEffect(s, loginId, io)
    // Only #sethost with an argument changes the host, only #setport with a number the port.
    ensures cmd.SetHostCmd? ==> r == s.(host := cmd.host)
    ensures cmd.SetPortCmd? ==> r == s.(port := cmd.port)
    // Every other command shows exactly one message and changes nothing else.
    ensures cmd == SetHostUsage ==> r == s.(ui := s.ui + ["Usage: #sethost <host>"])
    ensures cmd == InvalidPort ==> r == s.(ui := s.ui + ["Invalid port number."])
    ensures cmd == SetPortUsage ==> r == s.(ui := s.ui + ["Usage: #setport <port>"])
    ensures cmd == GetHostCmd ==> r == s.(ui := s.ui + ["Current host: " + s.host])
    ensures cmd == GetPortCmd ==> r == s.(ui := s.ui + ["Current port: " + IntToString(s.port)])
    ensures cmd == UnknownCmd ==> r == s.(ui := s.ui + ["Unknown command."])
    ensures !cmd.SetHostCmd? ==> r.host == s.host
    ensures !cmd.SetPortCmd? ==> r.port == s.port
  {
    match cmd
    case QuitCmd => CB.QuitEffect(s, io.closeFails)
    case LogoffCmd => CB.LogoffEffect(s, io.closeFails)
    case SetHostCmd(h) => s.(host := h)
    case SetHostUsage => s.(ui := s.ui + ["Usage: #sethost <host>"])
    case SetPortCmd(p) => s.(port := p)
    case InvalidPort => s.(ui := s.ui + ["Invalid port number."])
    case SetPortUsage => s.(ui := s.ui + ["Usage: #setport <port>"])
    case LoginCmd => CB.LoginEffect(s, loginId, io)
    case GetHostCmd => s.(ui := s.ui + ["Current host: " + s.host])
    case GetPortCmd => s.(ui := s.ui + ["Current port: " + IntToString(s.port)])
    case UnknownCmd => s.(ui := s.ui + ["Unknown command."])
  }

  /** One line read by accept(): a command when it starts with '#', chat
      text otherwise. */
  function LineEffect(s: CB.ClientState, loginId: string, line: string, io: CB.Io): (r: CB.ClientState)
    ensures StartsWith(line, "#") ==> r == CommandEffect(s, loginId, Classify(line), io)
    ensures !StartsWith(line, "#") && CB.SendSucceeds(s, io.sendFails) ==> r.sent == s.sent + [line]
    ensures !StartsWith(line, "#") ==> r == CB.UserTextEffect(s, line, io)
  {
    if StartsWith(line, "#") then CommandEffect(s, loginId, Classify(line), io)
    else CB.UserTextEffect(s, line, io)
  }

  /** Only #quit, #logoff, #login and chat text touch the connection or the
      sent log; every other line changes at most the host, the port or the
      display, and never stops the client. */
  lemma OtherCommandsKeepTheSession(s: CB.ClientState, loginId: string, line: string, io: CB.Io)
    requires StartsWith(line, "#") && line !in {"#quit", "#logoff", "#login"}
    ensures var r := LineEffect(s, loginId, line, io);
      r.connected == s.connected && r.halted == s.halted && r.isTerminating == s.isTerminating &&
      r.sent == s.sent && |r.ui| <= |s.ui| + 1
  {
  }

  /** A line that starts with '#' and classifies as cmd has cmd's effect. */
  lemma CommandLine(s: CB.ClientState, loginId: string, line: string, io: CB.Io, cmd: Command)
    requires |line| > 0 && line[0] == '#' && Classify(line) == cmd
    ensures LineEffect(s, loginId, line, io) == CommandEffect(s, loginId, cmd, io)
  {
    assert line[..1] == "#";
  }

  lemma GetCommands()
    ensures Classify("#gethost") == GetHostCmd && Classify("#getport") == GetPortCmd
  {
  }

  /** "#sethost h" followed by "#gethost" shows "Current host: h". */
  lemma SetThenGetHost(s: CB.ClientState, loginId: string, h: string, io: CB.Io)
    requires h != "" && ' ' !in h
    ensures var r := LineEffect(LineEffect(s, loginId, "#sethost " + h, io), loginId, "#gethost", io);
      r == s.(host := h, ui := s.ui + ["Current host: " + h])
  {
    SetHostArgument(h);
    CommandLine(s, loginId, "#sethost " + h, io, SetHostCmd(h));
    GetCommands();
    CommandLine(s.(host := h), loginId, "#gethost", io, GetHostCmd);
  }

  /** "#setport p" followed by "#getport" shows "Current port: " and p in decimal. */
  lemma SetThenGetPort(s: CB.ClientState, loginId: string, p: int, io: CB.Io)
    requires InInt(p)
    ensures var r := LineEffect(LineEffect(s, loginId, "#setport " + IntToString(p), io), loginId, "#getport", io);
      r == s.(port := p, ui := s.ui + ["Current port: " + IntToString(p)])
  {
    SetPortNumber(p);
    CommandLine(s, loginId, "#setport " + IntToString(p), io, SetPortCmd(p));
    GetCommands();
    CommandLine(s.(port := p), loginId, "#getport", io, GetPortCmd);
  }

  /** A malformed or unknown command only shows a message: "#sethost" and
      "#setport" without an argument show their usage, a port that is not
      a number is reported, and anything else is "Unknown command.". */
  lemma MalformedCommandsOnlyDisplay(s: CB.ClientState, loginId: string, io: CB.Io)
    ensures LineEffect(s, loginId, "#sethost", io) == s.(ui := s.ui + ["Usage: #sethost <host>"])
    ensures LineEffect(s, loginId, "#setport", io) == s.(ui := s.ui + ["Usage: #setport <port>"])
    ensures LineEffect(s, loginId, "#setport abc", io) == s.(ui := s.ui + ["Invalid port number."])
    ensures LineEffect(s, loginId, "#quit ", io) == s.(ui := s.ui + ["Unknown command."])
  {
    SetHostMissing();
    CommandLine(s, loginId, "#sethost", io, SetHostUsage);
    SetPortMissing();
    CommandLine(s, loginId, "#setport", io, SetPortUsage);
    SetPortNotANumber();
    CommandLine(s, loginId, "#setport abc", io, InvalidPort);
    ExactCommandsRejectTrailingSpace();
    CommandLine(s, loginId, "#quit ", io, UnknownCmd);
  }

  /** ClientConsole.display: the line printed for a message. */
  function Display(message: string): (line: string)
    ensures StartsWith(line, "> ") && line[2..] == message
    ensures |line| == |message| + 2
  {
    "> " + message
  }

  /** The lines printed for the messages shown, one per message, in order. */
  function Screen(ui: seq<string>): (lines: seq<string>)
    ensures |lines| == |ui|
    ensures forall i :: 0 <= i < |ui| ==> StartsWith(lines[i], "> ") && lines[i][2..] == ui[i]
  {
    seq(|ui|, i requires 0 <= i < |ui| => Display(ui[i]))
  }

  /** How main starts the client, or why it aborts. */
  datatype Launch =
    | Abort(message: string)
    | Start(loginId: string, host: string, port: int, notices: seq<string>)

  /** main(args): args[0] is the login id (required), args[1] the host
      ("localhost" when missing), args[2] the port (5555 when missing or not
      a number, with a notice in the latter case). */
  function ParseArgs(args: seq<string>): (r: Launch)
    ensures r.Abort? <==> |args| == 0
    ensures r.Abort? ==> r.message == NoLoginIdError
    ensures r.Start? ==> r.loginId == args[0]
    ensures |args| == 1 ==> r == Start(args[0], DefaultHost, DefaultPort, [])
    ensures |args| >= 2 ==> r.Start? && r.host == args[1]
    ensures |args| == 2 ==> r.port == DefaultPort && r.notices == []
    ensures |args| >= 3 && ParseInt(args[2]).Some? ==> r.port == ParseInt(args[2]).value && r.notices == []
    ensures |args| >= 3 && ParseInt(args[2]).None? ==> r.port == DefaultPort && r.notices == [InvalidPortError]
  {
    if |args| < 1 then Abort(NoLoginIdError)
    else if |args| < 2 then Start(args[0], DefaultHost, DefaultPort, [])
    else if |args| > 2 then
      match ParseInt(args[2])
      case Some(p) => Start(args[0], args[1], p, [])
      case None => Start(args[0], args[1], DefaultPort, [InvalidPortError])
    else Start(args[0], args[1], DefaultPort, [])
  }

  /** A port given in decimal as the third argument is used. */
  lemma ParseArgsReadsPort(loginId: string, host: string, p: int, rest: seq<string>)
    requires InInt(p)
    ensures ParseArgs([loginId, host, IntToString(p)] + rest) == Start(loginId, host, p, [])
  {
    ParseIntToString(p);
  }

  // ---------------------------------------------------------------------------
  // The console object

  class ClientConsole {
    /** The client this console drives; the console is also its ChatIF, so
        messages the console displays join client.ui. */
    const client: CB.ChatClient
    /** Lines printed with System.out.println directly, without the "> " prefix. */
    var out: seq<string>

    /** new ClientConsole(loginId, host, port): create the client and open
        its connection; if that fails, report it and exit. */
    constructor(loginId: string, host: string, port: int, io: CB.Io)
      ensures fresh(client) && client.loginId == loginId
      ensures var s0 := CB.ClientState(false, false, false, host, port, [], []);
        if io.openFails then client.State() == s0.(halted := true) && out == [SetupError]
        else client.State() == CB.OpenEffect(s0, loginId, io) && out == []
    {
      var c := new CB.ChatClient(loginId, host, port);
      client := c;
      out := [];
      new;
      var ok := c.OpenConnection(io);
      if !ok {
        out := out + [SetupError];
        c.halted := true;
      }
    }

    method Display(message: string)
      modifies client
      ensures client.State() == old(client.State()).(ui := old(client.ui) + [message])
    {
      client.Display(message);
    }

    method HandleCommand(command: string, io: CB.Io)
      requires !client.halted
      modifies client
      ensures client.State() == CommandEffect(old(client.State()), client.loginId, Classify(command), io)
    {
      if command == "#quit" {
        client.Quit(io.closeFails);
      } else if command == "#logoff" {
        client.Logoff(io.closeFails);
      } else if StartsWith(command, "#sethost") {
        var parts := Split(command, ' ');
        if |parts| > 1 {
          client.SetHost(parts[1]);
        } else {
          Display("Usage: #sethost <host>");
        }
      } else if StartsWith(command, "#setport") {
        var parts := Split(command, ' ');
        if |parts| > 1 {
          match ParseInt(parts[1]) {
            case Some(p) => client.SetPort(p);
            case None => Display("Invalid port number.");
          }
        } else {
          Display("Usage: #setport <port>");
        }
      } else if command == "#login" {
        client.Login(io);
      } else if command == "#gethost" {
        Display("Current host: " + client.host);
      } else if command == "#getport" {
        Display("Current port: " + IntToString(client.port));
      } else {
        Display("Unknown command.");
      }
    }

    /** The body of accept()'s loop for the line read. */
    method HandleLine(message: string, io: CB.Io)
      requires !client.halted
      modifies client
      ensures client.State() == LineEffect(old(client.State()), client.loginId, message, io)
    {
      if StartsWith(message, "#") {
        HandleCommand(message, io);
      } else {
        client.HandleMessageFromClientUI(message, io);
      }
    }
  }
}
