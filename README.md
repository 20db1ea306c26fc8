# simpleChat in Dafny

This is a model of simpleChat, a small multi-client chat relay written in Java on top of the ocsf client/server framework.

- **EchoServer** accepts connections. A connection must log in with `#login <id>` before it may chat. Each chat line from a logged-in connection goes to every open connection as `<id>: <line>`. A second login, or chat before logging in, earns the offending connection an error message and is followed by closing that connection.
- **ChatClient** holds one connection to the server. Whenever the connection comes up it sends `#login <id>`. Its `isTerminating` flag tells a voluntary quit apart from a closure by the server.
- **ClientConsole** and **ServerConsole** are the two command lines:
  - a line starting with `#` is an administrative command;
  - anything else is chat text (client) or a `SERVER MSG> ` broadcast (server);
  - every message they display is printed as `> ` + message.

Files:

| file | module | models |
|---|---|---|
| `java_text.dfy` | `JavaText` | `String.startsWith`, `String.split(" ")`, `Integer.parseInt`, `Integer.toString` |
| `server_backend.dfy` | `ServerBackend` | `EchoServer`: the connections, login gating, broadcast, quit, main |
| `client_backend.dfy` | `ClientBackend` | `ChatClient`: the session flags, display log, sent log and callbacks |
| `client_ui.dfy` | `ClientUi` | `ClientConsole`: command classification, routing, display, main |
| `server_ui.dfy` | `ServerUi` | `ServerConsole`: command classification, routing, display, main |

Each Java class becomes a Dafny class. Its fields are the class's own state plus the framework and I/O state its methods depend on. `EchoServer` has no fields of its own in Java, so its Dafny fields (`clients`, `out`, `port`, `listening`, `halted`) are the ocsf server's state and the output log. `ChatClient` keeps `loginId` and adds the ocsf client's connection, host and port, the exit flag and the two logs; its `clientUI` becomes the `ui` log.

`State()` is a snapshot of an object's fields as a datatype. Every method ensures that the new `State()` is a pure function of the old one: `Dispatch`, `QuitEffect`, `LineEffect` and the rest. Nearly all of these functions state what the source promises in their own `ensures`. The exceptions are `ClientBackend.Step` and the two backend `Run` folds (over deliveries and over client events), which have no `ensures`; their properties are proved in the lemmas about them. `ServerUi.Run`, the fold over console lines, states its own.

How the outside world is represented:

- Each I/O call that may throw an `IOException` takes a boolean oracle (`Io`, `ConsoleIo`).
- What a program prints is a `seq<string>` log:
  - `out` is the server's standard output;
  - `ui` holds the messages the client hands to its display;
  - `sent` holds the messages the client sends to the server;
  - each server-side connection has an `outbox` of the messages sent to it.
- `System.exit` is the `halted` flag.

The ocsf transport is not part of this model, so it is stood in for by these assumptions:

- A successful `openConnection` sets `connected` and runs `connectionEstablished`. On an open connection it does nothing.
- A successful `closeConnection` clears `connected` and runs `connectionClosed`.
- A failing open or close changes nothing.
- `sendToServer` fails on a closed connection.
- The server's `sendToAllClients` reaches every open connection.
- `AbstractServer.close()` closes every connection and stops listening.

Notes on what the code does:

- `#login ` with nothing after it logs in with the empty id. Nothing checks that the id is non-empty (`ServerBackend.LoginNeedsTheSpace`).
- `#setport` is accepted even while the server is listening. When the framework starts using the new port is not modelled (`Listen` does not read it).
- A rejected connection is closed. It stays in the model's connection map as a closed entry, which nothing delivers to any more (`ServerBackend.RunLeavesClosedAlone`).
- An `IOException` from `#close` on the server console is not caught in `handleCommand`. It reaches `accept`, which prints "Unexpected error while reading from console!" and leaves its read loop (`ServerUi.RunStopsAfterClose`).

## Model

| member | source | states |
|---|---|---|
| JavaText.Fields | edu/seg2105/client/ui/ClientConsole.java:113 | the pieces between spaces: at least one, none containing the separator |
| JavaText.JoinFields | edu/seg2105/client/ui/ClientConsole.java:113 | joining the pieces of a string with the separator gives the string back |
| JavaText.FieldsJoin | edu/seg2105/client/ui/ClientConsole.java:113 | cutting a join of separator-free pieces gives back the same pieces |
| JavaText.Split | edu/seg2105/client/ui/ClientConsole.java:113 | split(" "): a string without a space is its own single piece; otherwise a prefix of the pieces, and only empty trailing pieces are dropped |
| JavaText.StartsWithSplits | edu/seg2105/client/ui/ClientConsole.java:88 | a string that startsWith a prefix is that prefix followed by the rest of the string |
| JavaText.StartsWithConcat | edu/seg2105/client/ui/ClientConsole.java:88 | every string prefix + rest startsWith prefix |
| JavaText.SecondToken | edu/seg2105/client/ui/ClientConsole.java:113-115 | parts[1], when it exists, is the piece right after the first space; it may be empty and contains no space. When it does not exist, every piece after the first is empty |
| JavaText.SecondTokenNeedsLaterPiece | edu/seg2105/client/ui/ClientConsole.java:113-114 | parts[1] exists only when some piece after the first space is non-empty |
| JavaText.SecondTokenOf | edu/seg2105/client/ui/ClientConsole.java:113-115 | "name arg" with a non-empty, space-free arg yields arg as parts[1] |
| JavaText.NoSecondTokenAfterTrailingSpace | edu/seg2105/client/ui/ClientConsole.java:113-118 | "name " with only a trailing space has no parts[1] |
| JavaText.ParseInt | edu/seg2105/client/ui/ClientConsole.java:123 | Integer.parseInt succeeds exactly on an optionally signed decimal numeral inside the int range, with that numeral's value; the empty string fails |
| JavaText.IntToString | edu/seg2105/client/ui/ClientConsole.java:136 | Integer.toString is non-empty and has no space |
| JavaText.ParseIntToString | edu/seg2105/client/ui/ClientConsole.java:123 | parseInt reads back every int that toString writes |
| JavaText.NumberArgument | edu/seg2105/client/ui/ClientConsole.java:119-124 | "name n", with n in decimal, starts with name; its parts[1] is n's numeral, and that numeral parses back to n |
| ServerBackend.Broadcast | edu/seg2105/edu/server/backend/EchoServer.java:132-134 | every open connection gets the message once; closed ones get nothing; no login id or open flag changes |
| ServerBackend.Reject | edu/seg2105/edu/server/backend/EchoServer.java:61-67 | send the error, then close: only the offender is touched; a failing send or close leaves it open and prints "Error closing client connection." |
| ServerBackend.Dispatch | edu/seg2105/edu/server/backend/EchoServer.java:50-83 | the first "#login " sets the id to the text after the prefix, sends nothing and prints three log lines; a second login is rejected; chat from a logged-in sender is broadcast as "<id>: <msg>"; chat before login is rejected; an id once set never changes; only logged-in chat reaches other connections |
| ServerBackend.CloseAll | edu/seg2105/edu/server/backend/EchoServer.java:141 | close() closes every connection and keeps each one's id and outbox |
| ServerBackend.QuitEffect | edu/seg2105/edu/server/backend/EchoServer.java:139-146 | the server always exits; a successful close closes everything and stops listening; a failed one prints "Error closing the server." and changes nothing else |
| ServerBackend.MainPort | edu/seg2105/edu/server/backend/EchoServer.java:158-169 | args[0] when it parses; 5555 when it is missing or does not parse |
| ServerBackend.MainPortReadsDecimal | edu/seg2105/edu/server/backend/EchoServer.java:162-165 | a port written in decimal as args[0] is the one used |
| ServerBackend.RunKeepsConnections | edu/seg2105/edu/server/backend/EchoServer.java:50-83 | no sequence of client messages adds or removes a connection |
| ServerBackend.RunKeepsLoginId | edu/seg2105/edu/server/backend/EchoServer.java:54-68 | over any run, a login id once set stays exactly as it was (at most one login per connection) |
| ServerBackend.RunLeavesClosedAlone | edu/seg2105/edu/server/backend/EchoServer.java:50-83 | over any run, a closed connection stays closed and is sent nothing more |
| ServerBackend.RunWithoutLoginsBroadcastsNothing | edu/seg2105/edu/server/backend/EchoServer.java:69-81 | while nobody has logged in, chat from other connections never reaches a connection and logs nobody in |
| ServerBackend.BobAndCarolScenario | edu/seg2105/edu/server/backend/EchoServer.java:54-73 | bob and carol log in; bob's "hi" reaches both as "bob: hi" |
| ServerBackend.ChatBeforeLoginScenario | edu/seg2105/edu/server/backend/EchoServer.java:74-81 | carol chats without logging in: she gets "Error: You must login first." and is disconnected; bob is untouched |
| ServerBackend.LoginIdIsTheRest | edu/seg2105/edu/server/backend/EchoServer.java:54-55 | a message is a login with id x exactly when it is "#login " followed by x: startsWith("#login ") and substring(7) split and rebuild the message |
| ServerBackend.LoginNeedsTheSpace | edu/seg2105/edu/server/backend/EchoServer.java:54-55 | "#login" without the space is chat and is rejected; "#login " logs in with the empty id |
| ServerBackend.EchoServer.constructor | edu/seg2105/edu/server/backend/EchoServer.java:36-39 | a new server has no connections, has printed nothing, is not listening and uses the given port |
| ServerBackend.EchoServer.ClientConnected | edu/seg2105/edu/server/backend/EchoServer.java:111-114 | an accepted connection is open, not logged in and has been sent nothing |
| ServerBackend.EchoServer.SendToClient | edu/seg2105/edu/server/backend/EchoServer.java:63 | on success the message joins that connection's outbox; on failure nothing changes |
| ServerBackend.EchoServer.CloseClient | edu/seg2105/edu/server/backend/EchoServer.java:64 | on success that connection is closed; on failure nothing changes |
| ServerBackend.EchoServer.SendToAllClients | edu/seg2105/edu/server/backend/EchoServer.java:132-134 | the new state is the broadcast of the message |
| ServerBackend.EchoServer.HandleMessageFromClient | edu/seg2105/edu/server/backend/EchoServer.java:50-83 | the new state is Dispatch of the old one |
| ServerBackend.EchoServer.SendThenClose | edu/seg2105/edu/server/backend/EchoServer.java:75-80 | the new state is Reject of the old one |
| ServerBackend.EchoServer.Listen | edu/seg2105/edu/server/backend/EchoServer.java:175 | listening starts unless listen() throws |
| ServerBackend.EchoServer.StopListening | edu/seg2105/edu/server/ui/ServerConsole.java:65 | listening stops and the connections stay as they are |
| ServerBackend.EchoServer.Close | edu/seg2105/edu/server/ui/ServerConsole.java:67 | on success every connection is closed and listening stops; on failure nothing changes |
| ServerBackend.EchoServer.SetPort | edu/seg2105/edu/server/ui/ServerConsole.java:73 | only the port changes |
| ServerBackend.EchoServer.Quit | edu/seg2105/edu/server/backend/EchoServer.java:139-146 | the new state is QuitEffect of the old one |
| ServerBackend.EchoServer.Launch | edu/seg2105/edu/server/backend/EchoServer.java:158-181 | a server on MainPort(args) that listens, or prints "ERROR - Could not listen for clients!" |
| ClientBackend.ClosedEffect | edu/seg2105/client/backend/ChatClient.java:128-136 | a terminating client shows "Client is terminating." and exits; otherwise it shows "Connection closed." and keeps running; nothing else changes |
| ClientBackend.ExceptionEffect | edu/seg2105/client/backend/ChatClient.java:144-148 | the exception notice is shown and the client exits; nothing else changes |
| ClientBackend.CloseEffect | edu/seg2105/client/backend/ChatClient.java:104 | a failing close changes nothing; a successful one takes the connection down and shows the closed hook's notice (the terminating one when quitting), leaving the sent log alone |
| ClientBackend.OpenEffect | edu/seg2105/client/backend/ChatClient.java:171 | nothing happens on an open connection or when opening fails; otherwise the connection comes up, "#login <id>" is sent and "<id> has logged on." shown, or the login error is shown and the client exits when that send fails |
| ClientBackend.QuitEffect | edu/seg2105/client/backend/ChatClient.java:99-108 | the client ends terminating and halted; a successful close shows "Client is terminating."; a failed close shows nothing and leaves the connection up; host, port and sent log are kept |
| ClientBackend.EstablishedEffect | edu/seg2105/client/backend/ChatClient.java:113-122 | exactly "#login <id>" is sent and "<id> has logged on." shown; a failed send shows the login error and quits |
| ClientBackend.ServerTextEffect | edu/seg2105/client/backend/ChatClient.java:70-75 | the server's message is shown verbatim and nothing else changes |
| ClientBackend.UserTextEffect | edu/seg2105/client/backend/ChatClient.java:82-94 | the user's text is sent verbatim; a failed send shows "Could not send message to server.  Terminating client." and quits without sending |
| ClientBackend.LogoffEffect | edu/seg2105/client/backend/ChatClient.java:153-163 | with no connection it shows "Already logged off."; a failed close shows "Error logging off."; otherwise the connection closes via the closed hook; a running client keeps running |
| ClientBackend.LoginEffect | edu/seg2105/client/backend/ChatClient.java:168-178 | with a connection it shows "Already connected."; a failed open shows "Error logging in."; otherwise the connection comes up and "#login <id>" is sent |
| ClientBackend.ClosedWhileRunning | edu/seg2105/client/backend/ChatClient.java:133-135 | a running client whose connection closes shows "Connection closed." and keeps running |
| ClientBackend.LogoffTwice | edu/seg2105/client/backend/ChatClient.java:153-163 | a second logoff only says "Already logged off." and the client keeps running |
| ClientBackend.StepKeepsConsistent | edu/seg2105/client/backend/ChatClient.java:99-108 | no step leaves a client terminating without having exited |
| ClientBackend.StepOnlyAppends | edu/seg2105/client/backend/ChatClient.java:70-178 | every step only extends the display log and the sent log |
| ClientBackend.StepSends | edu/seg2105/client/backend/ChatClient.java:82-122 | a step sends only "#login <id>" or the user's own text |
| ClientBackend.RunInvariants | edu/seg2105/client/backend/ChatClient.java:99-136 | over any run a client stays consistent, and its display and sent logs are only extended |
| ClientBackend.RunSendsOnlyTextAndLogins | edu/seg2105/client/backend/ChatClient.java:82-122 | over any run, everything sent to the server is "#login <id>" or a line the user typed |
| ClientBackend.ChatClient.constructor | edu/seg2105/client/backend/ChatClient.java:53-58 | a new client has the given id, host and port, is disconnected, and has shown and sent nothing |
| ClientBackend.ChatClient.Display | edu/seg2105/client/backend/ChatClient.java:72 | the message joins the display log |
| ClientBackend.ChatClient.SendToServer | edu/seg2105/client/backend/ChatClient.java:86 | it succeeds exactly on an open connection whose send does not throw, and then the message joins the sent log |
| ClientBackend.ChatClient.HandleMessageFromServer | edu/seg2105/client/backend/ChatClient.java:70-75 | the new state is ServerTextEffect of the old one |
| ClientBackend.ChatClient.HandleMessageFromClientUI | edu/seg2105/client/backend/ChatClient.java:82-94 | the new state is UserTextEffect of the old one |
| ClientBackend.ChatClient.Quit | edu/seg2105/client/backend/ChatClient.java:99-108 | the new state is QuitEffect of the old one |
| ClientBackend.ChatClient.CloseConnection | edu/seg2105/client/backend/ChatClient.java:104 | on success the connection is down and the closed hook has run; on failure nothing changes |
| ClientBackend.ChatClient.OpenConnection | edu/seg2105/client/backend/ChatClient.java:59 | on success the connection is up and the established hook has run; on failure nothing changes |
| ClientBackend.ChatClient.ConnectionEstablished | edu/seg2105/client/backend/ChatClient.java:113-122 | the new state is EstablishedEffect of the old one |
| ClientBackend.ChatClient.ConnectionClosed | edu/seg2105/client/backend/ChatClient.java:128-136 | the new state is ClosedEffect of the old one |
| ClientBackend.ChatClient.ConnectionException | edu/seg2105/client/backend/ChatClient.java:144-148 | the new state is ExceptionEffect of the old one |
| ClientBackend.ChatClient.Logoff | edu/seg2105/client/backend/ChatClient.java:153-163 | the new state is LogoffEffect of the old one |
| ClientBackend.ChatClient.Login | edu/seg2105/client/backend/ChatClient.java:168-178 | the new state is LoginEffect of the old one |
| ClientBackend.ChatClient.SetHost | edu/seg2105/client/ui/ClientConsole.java:115 | only the host changes |
| ClientBackend.ChatClient.SetPort | edu/seg2105/client/ui/ClientConsole.java:124 | only the port changes |
| ClientUi.Classify | edu/seg2105/client/ui/ClientConsole.java:107-140 | each command is recognised exactly when it matches its name, or its prefix for #sethost and #setport; a #setport argument is used exactly when it parses; everything else is unknown |
| ClientUi.NamesAreNotSetPrefixed | edu/seg2105/client/ui/ClientConsole.java:108-119 | no exact-match command name is caught by the #sethost or #setport prefix tests |
| ClientUi.ExactCommandsRejectTrailingSpace | edu/seg2105/client/ui/ClientConsole.java:108-139 | "#quit ", "#logoff ", "#login ", "#login bob", "#gethost " and "#getport " are unknown commands |
| ClientUi.SetHostArgument | edu/seg2105/client/ui/ClientConsole.java:112-116 | "#sethost h" sets host h |
| ClientUi.SetHostMissing | edu/seg2105/client/ui/ClientConsole.java:112-118 | "#sethost" and "#sethost " print the usage message |
| ClientUi.SetPortNumber | edu/seg2105/client/ui/ClientConsole.java:119-124 | "#setport p", with p written in decimal, sets port p |
| ClientUi.SetPortNotANumber | edu/seg2105/client/ui/ClientConsole.java:119-127 | "#setport abc" reports an invalid port number |
| ClientUi.SetPortMissing | edu/seg2105/client/ui/ClientConsole.java:128-130 | "#setport" and "#setport " print the usage message |
| ClientUi.CommandEffect | edu/seg2105/client/ui/ClientConsole.java:107-140 | #quit, #logoff and #login are the client's quit, logoff and login; #sethost h and #setport p change only the host or the port; every other command shows exactly its message ("Usage: #sethost <host>", "Invalid port number.", "Usage: #setport <port>", "Current host: " + host, "Current port: " + port, "Unknown command.") and changes nothing else |
| ClientUi.SetThenGetHost | edu/seg2105/client/ui/ClientConsole.java:112-134 | "#sethost h" then "#gethost" sets host h and shows "Current host: h" |
| ClientUi.SetThenGetPort | edu/seg2105/client/ui/ClientConsole.java:119-136 | "#setport p" then "#getport" sets port p and shows "Current port: " followed by p in decimal |
| ClientUi.MalformedCommandsOnlyDisplay | edu/seg2105/client/ui/ClientConsole.java:112-139 | "#sethost" and "#setport" show their usage, "#setport abc" shows "Invalid port number." and "#quit " shows "Unknown command."; nothing else changes |
| ClientUi.LineEffect | edu/seg2105/client/ui/ClientConsole.java:85-93 | a line starting with '#' is a command; any other line is sent to the server verbatim |
| ClientUi.OtherCommandsKeepTheSession | edu/seg2105/client/ui/ClientConsole.java:107-140 | apart from #quit, #logoff and #login, a command never touches the connection, the sent log or the exit flags, and shows at most one message |
| ClientUi.Display | edu/seg2105/client/ui/ClientConsole.java:148-151 | the printed line is "> " followed by the message |
| ClientUi.Screen | edu/seg2105/client/ui/ClientConsole.java:148-151 | one printed line per displayed message, in order, each "> " + message |
| ClientUi.ParseArgs | edu/seg2105/client/ui/ClientConsole.java:161-181 | with no arguments the client aborts with the missing-login-id error; the host defaults to "localhost"; the port defaults to 5555, and a port that does not parse is reported |
| ClientUi.ParseArgsReadsPort | edu/seg2105/client/ui/ClientConsole.java:172-176 | a port written in decimal as the third argument is the one used |
| ClientUi.ClientConsole.constructor | edu/seg2105/client/ui/ClientConsole.java:53-69 | the client is created and connected; if opening fails, "Error: Can't setup connection! Terminating client." is printed and the client exits |
| ClientUi.ClientConsole.Display | edu/seg2105/client/ui/ClientConsole.java:148-151 | the message joins the client's display log |
| ClientUi.ClientConsole.HandleCommand | edu/seg2105/client/ui/ClientConsole.java:107-140 | the client's new state is CommandEffect of Classify(command) |
| ClientUi.ClientConsole.HandleLine | edu/seg2105/client/ui/ClientConsole.java:85-93 | the client's new state is LineEffect of the line |
| ServerUi.NamesAreNotSetPortPrefixed | edu/seg2105/edu/server/ui/ServerConsole.java:62-68 | no exact-match command name is caught by the #setport prefix test |
| ServerUi.Classify | edu/seg2105/edu/server/ui/ServerConsole.java:61-91 | each command is recognised exactly when it matches its name, or the #setport prefix; a #setport argument is used exactly when it parses; everything else is unknown |
| ServerUi.SetPortNumber | edu/seg2105/edu/server/ui/ServerConsole.java:68-73 | "#setport p", with p written in decimal, sets port p |
| ServerUi.ExactCommandsRejectTrailingSpace | edu/seg2105/edu/server/ui/ServerConsole.java:62-90 | "#quit ", "#stop ", "#close ", "#start " and "#getport " are unknown commands |
| ServerUi.Display | edu/seg2105/edu/server/ui/ServerConsole.java:99-102 | the printed line is "> " followed by the message |
| ServerUi.CommandEffect | edu/seg2105/edu/server/ui/ServerConsole.java:61-91 | #quit is the server's quit; #stop stops listening; #close closes every connection and stops listening, and when it fails the console ends after the read error; #setport p sets only the port; #start listens or displays "Error starting the server."; "Invalid port number.", "Usage: #setport <port>", "Current port: " + port and "Unknown command." are displayed with nothing else changed; no command adds a connection, changes a login id or reopens one |
| ServerUi.LineEffect | edu/seg2105/edu/server/ui/ServerConsole.java:47-54 | a '#' line is a command; any other line goes to every open connection as "SERVER MSG> " + line and is displayed as "> SERVER MSG> " + line |
| ServerUi.ServerMessageBypassesLogin | edu/seg2105/edu/server/ui/ServerConsole.java:50-53 | a connection that never logged in still receives the server's message and stays open and anonymous |
| ServerUi.Run | edu/seg2105/edu/server/ui/ServerConsole.java:30-40 | once the loop has ended or the server has exited, further lines change nothing; otherwise the first line takes effect and the loop goes on with the rest |
| ServerUi.SetThenGetPort | edu/seg2105/edu/server/ui/ServerConsole.java:68-87 | "#setport p" then "#getport" sets port p and displays "Current port: " followed by p in decimal |
| ServerUi.RunKeepsSessions | edu/seg2105/edu/server/ui/ServerConsole.java:30-40 | whatever is typed on the console, no connection appears, none changes its login id, and none that was closed reopens |
| ServerUi.RunStopsAfterClose | edu/seg2105/edu/server/ui/ServerConsole.java:30-40 | a failing #close prints "Unexpected error while reading from console!", and the lines after it change nothing |
| ServerUi.ParseArgs | edu/seg2105/edu/server/ui/ServerConsole.java:104-113 | port 5555 unless args[0] parses; an argument that does not parse is reported |
| ServerUi.BothMainsAgreeOnPort | edu/seg2105/edu/server/ui/ServerConsole.java:105-113 | the console's main picks the same port as EchoServer's main |
| ServerUi.ServerConsole.constructor | edu/seg2105/edu/server/ui/ServerConsole.java:21-24 | a console over a new server on the given port, reading |
| ServerUi.ServerConsole.Display | edu/seg2105/edu/server/ui/ServerConsole.java:99-102 | "> " + message joins the server's output |
| ServerUi.ServerConsole.HandleCommand | edu/seg2105/edu/server/ui/ServerConsole.java:61-91 | it throws exactly on a failing #close, which changes nothing; otherwise the new state is CommandEffect's |
| ServerUi.ServerConsole.HandleMessageFromConsole | edu/seg2105/edu/server/ui/ServerConsole.java:47-54 | it throws exactly on a failing #close; otherwise the new state is LineEffect's |
| ServerUi.ServerConsole.AcceptLine | edu/seg2105/edu/server/ui/ServerConsole.java:30-40 | one turn of the read loop: the console's new state is LineEffect of the line |
| ServerUi.ServerConsole.Launch | edu/seg2105/edu/server/ui/ServerConsole.java:104-121 | the port from ParseArgs with its notices; the server listens, or prints "ERROR - Could not listen for clients!" |

## Left out

- The ocsf framework is not part of this model: `AbstractServer`, `AbstractClient` and `ConnectionToClient`. Its sockets, threads and object serialization are stood in for by the connection map, the `connected` flag and the I/O oracles, under the assumptions listed above.
- Concurrency: each server connection has its own thread, and the client's callbacks run asynchronously. The model runs one call at a time. `synchronized` on `clientDisconnected` has no counterpart.
- `serverStarted`, `serverStopped`, `clientConnected` and `clientDisconnected` only print a log line. That line is not modelled. `ClientConnected` adds the new connection and no more.
- The `while (true)` read loops of both consoles are modelled one line at a time (`HandleLine`, `AcceptLine`) and as the console trace `ServerUi.Run`. `Scanner.nextLine` itself is a parameter.
- Exit codes of `System.exit` (0 or 1) are not kept. An exit is the `halted` flag.
- `Integer.parseInt` also accepts non-ASCII Unicode digits. The model accepts only `0`–`9`.
- The client console's `out` log of direct `println` lines and the client's `ui` log are two separate sequences. How they interleave on standard output is not kept.
- `ClientBackend.ChatClient.constructor` does not open the connection. In Java, `openConnection` runs inside the `ChatClient` constructor. The model has `ClientUi.ClientConsole.constructor` call `OpenConnection` right after construction, which has the same effect.
- `EchoServer.java:164` also catches a missing `args[0]` (`ArrayIndexOutOfBoundsException` via `catch Throwable`). `MainPort` covers that case as "no arguments".
- When `closeConnection` throws, the transport's state is unknown. The model assumes the connection stays open and no hook runs.
