# Textual IRC server: verified model

This project models the parts of the Textual IRC server and of its client wrapper where
state, search or text cutting is intricate, and proves what they do on every input, or over
every run.

| files | what they model |
|---|---|
| `Glob.dfy`, `Wildcard.dfy`, `Matcher.dfy`, `Masks.dfy` | the ban-mask matcher: what a glob pattern means, what the search owes, the search itself with its cursors, and what each mask text stands for |
| `Auxiliar.dfy` | splitting a text at a separator and replacing in place |
| `Scheduler.dfy`, `Dispatcher.dfy` | the event scheduler as a state machine over whole runs, and as an object that changes a table of task objects |
| `Session.dfy` and the other `Session*.dfy`, `Clients.dfy` | registration, the ping exchange and the users' timers of any number of connections on one scheduler, as a state machine over whole runs, and as objects |
| `Wire.dfy`, `Format.dfy`, `Receiver.dfy` | the lines the server prints, what each form of line is read as, and the client that cuts them up in its receive buffer |
| `Roster.dfy`, `Listing.dfy` | the client's linked list of channel users, grown by NAMES and JOIN, and the server's NAMES string that feeds it |

Each imperative part (`Matcher`, `Dispatchers`, `Clients`, `Receiver`, `Roster.List`, the two
methods of `Auxiliar`) is proved equal to a function on values, and the theorems are about
those functions: `Wildcard.Expected`, `Scheduler.Apply`, `PassOnce` and `Run` (dispatcher.cpp:56-108),
`Session.OnLine`, `CloseIn`, `Fire` and `Release` (client.cpp:68-83, 145-182 and 281-508, user.cpp:43-72 and 685-695),
`Wire.ReadLine` and `Lines` (IRC.cc:219-308 and 651-716), `Roster.DecodeNames` (IRC.cc:578-648).
`Session.Take`, one step of the whole server, is put together from these on values only.

## Main results

**Matching.** `Glob.CanCut` says what a pattern means: the text can be cut into one piece per
atom. `Matcher.WildcardFit` decides it for every pattern with closed brackets, with one
exception that is characterised exactly. The loop that looks past `?` and `*` after a star makes
no progress on a `*` while text is left, so the program does not return. `Wildcard.LooksForEver`
derives this from the rounds of that loop. The whole matcher gives no answer if and only if
`Wildcard.Stuck` holds: some star follows another star with only `?` in between, and the pattern
before it, followed by `?*`, matches the text. `Matcher.TwoStarsGetNoAnswer` is the smallest case,
a pattern that matches and gets no answer. What a mask stands for is said on its text in `Masks`: stars,
question marks, classes and complemented classes, with the members that ranges give. A pattern without such a star always gets an
answer, and the termination of the mutually recursive search is part of the proof.

**Scheduling.** Over every run, with callbacks that do anything but cancel the event they run
for, every id is in exactly one of pending, fired and cancelled, fires at most once and never
early, and is not issued again. A due event is served after at most as many passes as there
were live entries up to it, plus the tasks added without an id meanwhile. The firing loop of the
scheduler object, whatever the callbacks ask of it, moves its table by such a run and fires the
same ids (`Scheduler.TakenState`, `Dispatchers.Dispatcher.DispatcherThread`).

**Connections.** The server is a state machine over any number of connections. Its invariant
bounds the pending pings, fixes the values of the ping counter, and ties the registration flags
together. Every run of the server is a run of its scheduler, so the server's events are served
in bounded time. In every run a ping is sent between two accepted answers, nothing but NICK is
handled while a ping is unanswered, and the welcome comes exactly behind the request that carried
the first accepted answer. A connection has sent NICK exactly when some line of it was a NICK, while it was
connecting, that was neither in use nor forbidden (`SessionLines.RegistrationInEveryRun`), an answer is
accepted exactly when nothing stands before its first `:` (`SessionLines.AnswerJudged`), a user's counters
are the numbers of its timers' firings (`SessionTicks.CountersInEveryRun`), and a connection is seen to
close exactly once (`SessionClosings.ClosedOnce`). Two things turn out otherwise than one would hope.

* An open connection is not always read from. `SessionSilence.StillListening` gives the condition
  for each line and `SessionSilence.DeafInEveryRun` for every run: it stops being read exactly when
  it repeats USER. `SessionSilence.RepeatedUser` is a run of three steps. The connection does not
  stay open like that: only pending reads and writes own its object, so object and socket go as
  soon as the refusal has been written.
* A close timer can be forgotten: still pending, but not on record, so that nothing will cancel it.
  In every run an open connection has a forgotten timer exactly when some line of it put a timer on
  record while the one before was pending (`SessionForgotten.ForgottenInEveryRun`), and while an
  answer stands it has no close timer pending at all exactly when none did
  (`SessionForgotten.SafeWhileAnswered`). `SessionTimers.ForgottenTimer` is such a run, and
  `SessionTimers.TimersInEveryRun` bounds the timers by the answers refused.

When a connection object goes, only the two events on record are cancelled. `SessionRelease.LeftBehind`
says which events still name it, in every run: all pings but the first and all forgotten timers,
and a ping for certain while an answer stands. It rests on the balance of pings asked for, sent and
pending (`SessionRelease.PingsBalance`).

**The wire.** A stream of printed messages comes out of the client's buffer line by line, each
with its source, command, parameters and target, exactly when the fields are free of the
delimiters that end them. The format is the prefix form of section 2.3.1 of RFC 2812. A hook is
handed a host pointer that was never assigned exactly when the source of the line has no `!`. A line is
answered with a PONG exactly when it begins with `PING ` (`Format.PongIffPing`).

A NAMES reply is decoded to the listed nicks with their statuses exactly when it is framed well,
no nick has a space and no plain nick begins with `@` or `+` (`Listing.NamesReply`). The server
accepts such nicks, because the loop that should refuse them runs too few times and a later NICK
is not checked, and `Listing.PlainTakenForOperator` is a plain user whom the client takes for an
operator. Without them the client agrees with the server on who is an operator and who has voice
(`Listing.FlagsAgree`), and where no two members are read as the same nick, only without them
(`Listing.FlagsAgreeExactly`).

## Model

| member | source | states |
|---|---|---|
| Glob.SimpleRange | server/src/wildcard.cpp:62-75 | `[lo-hi]` is the interval when it ascends, and otherwise the three characters including `-` |
| Glob.MatchesIffCut | server/include/wildcard.h:23-26 | matching by recursion on the pattern is the same as cutting the text into one piece per atom |
| Glob.StarAbsorbsRun | server/src/wildcard.cpp:88-104 | a star and k `?` match a text exactly when it has k characters and the star alone matches the rest, the case of a text that runs out included |
| Glob.StarStar | server/src/wildcard.cpp:97-98 | two stars in a row mean what one means |
| Wildcard.LooksForEver | server/src/wildcard.cpp:89-96 | the loop behind a star is still running after any number of rounds exactly when it meets a `*` with text left |
| Wildcard.ExpectedSearch | server/src/wildcard.cpp:105-117 | what a star before a literal, a class or the end owes is decided here, or else one place to the right, also where the search would get stuck |
| Wildcard.BeginsHere | server/src/wildcard.cpp:107-113 | the leftmost place leaves the most text: what fits further right with characters to spare fits here with them to spare, if it can be begun here at all |
| Wildcard.PlainMasks | server/src/wildcard.cpp:42-50 | a mask without special characters matches itself only, and followed by a star whatever begins with it |
| Masks.StarMask | server/src/wildcard.cpp:38-48 | `*` and a mask match a text exactly when the mask matches some end of it |
| Masks.CharacterMask | server/src/wildcard.cpp:35-44 | `?` and a mask match a text that has a first character and a rest the mask matches; any other character but `*` and `[` has to be that first character itself |
| Masks.ClassMask | server/src/wildcard.cpp:53-83 | `[`, a body, `]` and a mask match a text exactly when its first character is in the body and the mask matches the rest; a `]` that comes first belongs to the body |
| Masks.ComplementMask | server/src/wildcard.cpp:58-77 | with a `!` behind the bracket, exactly when its first character is not in the body |
| Masks.ListedMembers | server/src/wildcard.cpp:62-75 | a body of any length without a `-` between two others has exactly its own characters |
| Masks.JoinedMembers | server/src/wildcard.cpp:62-75 | bodies that no `-` joins have the members of both |
| Masks.DashedMembers | server/src/wildcard.cpp:64-68 | a `-` between two bodies adds what lies between its neighbours if they ascend, and else the `-` itself |
| Matcher.Set | server/src/wildcard.cpp:53-83 | one pass over a class ends on a bracket that depends on the pattern alone, decides membership in the class, complemented by `!`, and uses a text character exactly when it fits |
| Matcher.Asterisk | server/src/wildcard.cpp:85-119 | gives the answer owed at a star; on success the text cursor is at the leftmost place where the rest fits, past one character per `?`; no answer when its own loop runs for ever |
| Matcher.Search | server/src/wildcard.cpp:105-117 | the skipping search finds the least place where the rest fits, and fails only when there is none |
| Matcher.WildcardFit | server/src/wildcard.cpp:26-51 | for every closed pattern and text: no answer exactly when the pattern is stuck on the text, otherwise whether the pattern matches |
| Matcher.Fits | server/src/wildcard.cpp:26-51 | a pattern without redundant stars gets an answer on every text, and it is the declarative meaning |
| Matcher.TwoStarsGetNoAnswer | server/src/wildcard.cpp:89-96 | the pattern `**` matches the text `a` and gets no answer |
| Auxiliar.SplitString | server/src/auxiliar.cpp:69-79 | the loop returns the pieces between the separators |
| Auxiliar.ReplaceString | server/src/auxiliar.cpp:81-92 | reports whether the key occurs; its copy of the text ends as the pieces between the keys joined by the value, also when the value contains the key |
| Auxiliar.JoinOfSplit | server/src/auxiliar.cpp:69-79 | joining the pieces with the separator gives the text back |
| Auxiliar.SplitIsSeparable | server/src/auxiliar.cpp:73-77 | no piece contains the separator, and the separator behind each piece is the first one |
| Auxiliar.SplitOfJoin | server/src/auxiliar.cpp:69-79 | splitting undoes joining exactly when the separator does not turn up before the end of any piece |
| Auxiliar.SplitOfJoinBorderless | server/src/auxiliar.cpp:69-79 | for separators no beginning of which is also an end, exactly when no piece contains the separator |
| Scheduler.RunAccounted | server/src/dispatcher.cpp:61-108 | from every accounted state and over every run: each id is in exactly one of pending, fired, cancelled, fires once and not before its due time; nothing recorded is taken back and no issued id is issued again |
| Scheduler.EveryRun | server/src/dispatcher.cpp:34-38 | the same over every run from the start with fewer than 2^32 events |
| Scheduler.FiredInTake | server/src/dispatcher.cpp:94-106 | a step fires only in a pass, and then the least id that is due and not stopped |
| Scheduler.CancelledOrStoppedNeverFires | server/src/dispatcher.cpp:68-88 | an event cancelled, or in the table when the scheduler is stopped, does not fire in any later step |
| Scheduler.BoundedWaiting | server/src/dispatcher.cpp:90-108 | while a due event is live, the passes of a run plus the live entries still ahead of it never exceed those ahead at first plus the tasks added without an id |
| Scheduler.DueEventsAreServed | server/src/dispatcher.cpp:90-108 | after that many passes the event has fired, or was cancelled or stopped |
| Scheduler.TakenState | server/src/dispatcher.cpp:56-108 | the step of the recorded state machine is the operation, or the pass, that the object's methods perform, whatever the callback asks for |
| Dispatchers.Task.constructor | server/src/dispatcher.cpp:27-32 | a task is due its delay after the time it is made, and is not stopped |
| Dispatchers.Dispatcher.Start | server/src/dispatcher.cpp:48-54 | a stopped scheduler runs again, with the same entries |
| Dispatchers.Dispatcher.AddEvent | server/src/dispatcher.cpp:61-66 | the object's new state is the state machine's, and the id returned is the new counter |
| Dispatchers.Dispatcher.AddTask | server/src/dispatcher.cpp:56-59 | the task goes in under 0 unless one is there |
| Dispatchers.Dispatcher.StopEvent | server/src/dispatcher.cpp:68-77 | the entry goes and no other changes |
| Dispatchers.Dispatcher.Stop | server/src/dispatcher.cpp:79-88 | every entry stays in the table, marked as stopped, and the scheduler no longer runs |
| Dispatchers.Dispatcher.Pass | server/src/dispatcher.cpp:94-106 | the trip over the table fires the least due live entry, whose callback runs while it is still in the table, and erases it |
| Dispatchers.Dispatcher.DispatcherThread | server/src/dispatcher.cpp:90-108 | the loop moves the table as a run of the state machine does, and fires the ids that run records |
| SessionInvariant.FinishOk | server/src/client.cpp:447-483 | the end of a line leads from the state in the middle of a line to the invariant between lines, and touches nothing of other connections |
| SessionInvariant.PongOk | server/src/client.cpp:412-439 | an answer, accepted or refused, keeps the count of pending pings in step with the ping counter |
| SessionInvariant.MakeUserOk | server/src/user.cpp:43-58 | a new user has exactly one pending event of each kind, at the ids it records |
| SessionInvariant.UserTimerFires | server/src/user.cpp:685-695 | a user's timer that fires counts once and is replaced by its next event, and the whole invariant is kept |
| SessionInvariant.PingFires | server/src/client.cpp:145-164 | a ping that fires keeps the whole invariant |
| SessionRuns.StepOk | server/src/client.cpp:281-484 | every step of the server, a failed read or write included, keeps the invariant of all connections, users and pending events |
| SessionRuns.RunOk | server/src/client.cpp:281-484 | so does every run with fewer than 2^32 events |
| SessionRuns.DestroyUserOk | server/src/user.cpp:60-72 | destroying a user keeps the invariant |
| SessionRuns.NothingRefersTo | server/src/user.cpp:69-71 | no pending event refers to a user who is not there, a destroyed one included |
| SessionTraces.LineSeen | server/src/client.cpp:309-478 | exactly which requests, accepted answers, welcomes and closings a line makes visible, and that only an accepted answer moves the ping state |
| SessionTraces.StepTrace | server/src/client.cpp:281-484 | exactly which events each step of the server adds to the trace |
| SessionTraces.RunTraceOk | server/src/client.cpp:281-484 | every run keeps the trace lawful and the state of each connection in step with it |
| SessionTraces.EveryRun | server/src/client.cpp:48-66 | the invariant and the lawful trace hold over every run from the empty server |
| SessionOrder.PingBetweenAnswers | server/src/client.cpp:424-428 | in every run, between two accepted answers of a connection a ping was sent to it |
| SessionOrder.RequestsAreAnswered | server/src/client.cpp:447-453 | in every run a request other than NICK is handled only while the last ping sent stands answered, and NICK only after the welcome |
| SessionOrder.WelcomeOnce | server/src/client.cpp:456-477 | in every run the welcome is sent exactly two events behind the first accepted answer, with the request that carried it in between, and so at most once |
| SessionOrder.RequestsHaveUser | server/src/client.cpp:345-453 | in every run a step hands over a request only if it is a line of that connection with these words, and the connection has its user by then |
| SessionLines.UserJudged | server/src/client.cpp:309-344 | a USER of less than four words changes nothing but that the next line is waited for, a repeated one is the last to be read, and any other leaves the connection with a user and marked as having sent it |
| SessionLines.NickJudged | server/src/client.cpp:357-410 | while connecting, a NICK that is in use or forbidden changes nothing but that the next line is waited for, and any other leaves the connection with a user and marked as having sent it |
| SessionLines.RegistrationInEveryRun | server/src/client.cpp:309-439 | in every run a connection has sent USER exactly when a line of it was a USER of at least four words, NICK exactly when one was a NICK, while connecting, neither in use nor forbidden, and has as many refusals to its name as answers were refused |
| SessionLines.AnswerJudged | server/src/client.cpp:418-439 | with no answer standing, one is accepted exactly when the text before its first `:` is empty; otherwise a close timer due in 120 seconds goes on record |
| SessionLines.ColonIsAccepted | server/src/client.cpp:418-427 | so `PONG :` with any text behind it is accepted |
| SessionLines.WarnedOnce | server/src/client.cpp:440-446 | a line that is neither USER, NICK nor PONG starts a timeout of 40 seconds exactly when no USER was sent and no such warning stands |
| SessionClosings.ClosedOnce | server/src/client.cpp:498-508 | in every run a connection is seen to close once if its socket is closed, and else never |
| SessionTraces.ConnectionsInEveryRun | server/src/client.cpp:412-478 | at most two pings pending, the ping counter in {0, 1, 120, 121, 122}, a user exactly after USER or NICK, an answered ping only after the welcome, connecting exactly until the welcome |
| SessionTraces.UsersInEveryRun | server/src/user.cpp:685-695 | exactly one pending event of each kind at the recorded ids, and a join counter not ahead of the seconds since creation |
| SessionTicks.CountersInEveryRun | server/src/user.cpp:685-695 | in every run the idle counter of a user who is not destroyed is the number of passes that fired its idle timer, and the join counter that of its join timer |
| SessionTicks.NextTick | server/src/user.cpp:685-695 | the timer that has fired is on record again, due one second after the pass |
| SessionSilence.DeafInEveryRun | server/src/client.cpp:315-319 | in every run an open connection is being read from exactly when none of its lines was a repeated USER |
| SessionSilence.RepeatedUser | server/src/client.cpp:315-319 | a run of three steps that leaves an open connection unread |
| SessionSilence.SecondUserIsTheLastLine | server/src/client.cpp:315-319 | after a second USER no line of the connection is handled in any later run |
| SessionTimers.LineTimers | server/src/client.cpp:424-453 | a line that is let through takes out the close timer on record, or none when it is itself a refused answer |
| SessionTimers.ForgottenTimer | server/src/client.cpp:433-453 | a run from the empty server in which a connection that was refused once is welcomed with its registration timeout still pending |
| SessionTimers.TimersInEveryRun | server/src/client.cpp:424-453 | in every run a connection has at most one close timer for each answer refused and one for a standing warning, and none was refused before it registered |
| SessionForgotten.ForgottenInEveryRun | server/src/client.cpp:433-453 | in every run an open connection has no close timer pending but the one on record exactly when no line of it put a timer on record while the one before was pending |
| SessionForgotten.SafeWhileAnswered | server/src/client.cpp:424-453 | while an answer stands, no close timer at all is pending exactly under that condition |
| SessionRelease.PingsBalance | server/src/client.cpp:424-449 | in every run the pings sent and pending are together those asked for: one by the complete registration and one by each accepted answer |
| SessionRelease.LeftBehind | server/src/client.cpp:68-83 | in every run, as the connection object goes, the events that still name it are the pings but the first and the close timers but the one on record; some ping is among them while an answer stands; there are none exactly when no answer was accepted or every ping asked for was sent, and no timer is forgotten |
| SessionDelays.LineDelays | server/src/client.cpp:424-449 | what a line adds to the scheduler is due after the delay of its kind: a first ping at once, a ping after an accepted answer in 120 seconds, a close timer in 40 before registration and in 120 after, anything else in one |
| SessionSchedule.RunScheduled | server/src/client.cpp:281-484 | every run of the server moves its scheduler by a run of the scheduler, pass for pass |
| SessionSchedule.ServerServesDueEvents | server/src/dispatcher.cpp:90-108 | a due event of the server is gone after as many passes as there were events up to it |
| Clients.User.constructor | server/src/user.cpp:43-58 | the new user's fields and the two events it adds |
| Clients.User.OnIdle | server/src/user.cpp:685-689 | does to the user and the scheduler what the state machine's firing does: counts, and records the event it adds |
| Clients.User.OnJoin | server/src/user.cpp:691-695 | the same for the join timer |
| Clients.User.Destroy | server/src/user.cpp:69-71 | both recorded events are cancelled |
| Clients.Client.constructor | server/src/client.cpp:48-66 | a connection begins unregistered, and is not read from yet |
| Clients.Client.Start | server/src/client.cpp:166-182 | a banned address is closed at once, any other is waited on |
| Clients.Client.SendPing | server/src/client.cpp:145-164 | does to the connection what the state machine's firing of its event does |
| Clients.Client.CloseConnection | server/src/client.cpp:498-508 | the same for the close timer; closing is done once, and ends any pending read |
| Clients.Client.CloseWithError | server/src/client.cpp:283-292 | a failed read closes the connection as the state machine's disconnection does |
| Clients.Client.Destroy | server/src/client.cpp:74-79 | the two events on record are cancelled, if there are any |
| Clients.Client.OnPong | server/src/client.cpp:418-439 | the object's new state is the state machine's for an answer |
| Clients.Client.Finish | server/src/client.cpp:447-483 | the object's new state is the state machine's for the end of a line |
| Clients.Client.ReceiveFromSocket | server/src/client.cpp:294-484 | the object's new state, its user, the scheduler and what was seen are the state machine's for the line, from the raw text on |
| Clients.ReturnDropped | server/src/client.cpp:297-303 | the carriage return is no part of a line's words; a line that holds one before its end loses its last character |
| Clients.WordsReceived | server/src/client.cpp:297-303 | words sent with a space between any two and CR LF behind are those handled exactly when none holds a space |
| Wire.LineRoundTrip | server/src/user.cpp:411-491 | a printed line is read back as its source, command, parameters and target exactly when the fields are free of the delimiters that end them |
| Wire.ParametersReadBack | server/src/user.cpp:411-491 | the parameters printed say which channel or target and which text were meant exactly when the name can not be taken for the text or its introduction |
| Wire.StreamRoundTrip | client_wrapper/IRC.cc:219-229 | a printed stream is split into its lines, in order, exactly when none contains CR LF |
| Wire.MessagesRoundTrip | client_wrapper/IRC.cc:219-308 | both together, for any stream of messages, as one condition on the fields |
| Wire.MessagesDelivered | client_wrapper/IRC.cc:219-308 | what comes out of a printed stream is what was meant, message by message, exactly under that condition |
| Wire.HostHandedOver | client_wrapper/IRC.cc:296-308 | the host handed to a hook is wild exactly when the source has no `!`, and null exactly when no `@` follows the first `!` |
| Wire.ServerLineHost | client_wrapper/IRC.cc:296-308 | for `:irc.host 001 n :Welcome` the host handed to the hook was never assigned |
| Wire.PrintedHost | server/src/user.cpp:411-491 | a printed message never leaves the host wild unless a space in the nick comes before any `!` |
| Wire.ParametersHandedOver | client_wrapper/IRC.cc:651-661 | the parameters handed to a hook are a wild pointer exactly for a notice with a target and no text |
| Format.PrintedLines | server/src/user.cpp:411-491 | each printer's line, written out |
| Format.LineEnds | client_wrapper/IRC.cc:219-229 | a line ends at the first CR LF, and what follows the last one is no line |
| Format.PongIffPing | client_wrapper/IRC.cc:691-702 | a line is answered exactly when it begins with `PING `, and what follows is what the answer is made from |
| Format.WithoutSource | client_wrapper/IRC.cc:688-716 | any other line without a source goes to the hook with the text before its first space as the command and all text behind it as parameters, and is dropped without a space |
| Format.WithSource | client_wrapper/IRC.cc:279-308 | a line with a source goes to the hook with its source, command and parameters; 353 with its parameters cut, MODE to its branch |
| Format.WithTarget | client_wrapper/IRC.cc:651-672 | a private message or notice goes to the hook with its target and its text apart |
| Format.WithoutText | client_wrapper/IRC.cc:651-672 | without a text a private message is dropped, and a notice handed over with parameters one past null |
| Format.WithoutParameters | client_wrapper/IRC.cc:279-295 | without parameters a reply is handed over with null, but for those on which the program follows the null pointer (PRIVMSG, NOTICE and 353), which are taken to be dropped |
| Format.SourceParts | client_wrapper/IRC.cc:296-308 | nick, ident and host as the first `!` and the first `@` behind it part them, a missing ident leaving the host unassigned and a missing host null |
| Format.NamesCutOff | client_wrapper/IRC.cc:578-585 | a 353 reply is cut for its hook before the first ` :` behind the first `#` |
| Receiver.CutAt | client_wrapper/IRC.cc:285-307 | the client's cut: a NUL over the first delimiter leaves two C strings, the text before it and the text behind it, and changes nothing else |
| Receiver.ParseSource | client_wrapper/IRC.cc:296-308 | the pointers into the prefix lead to nick, ident and host, a host that was never looked for told apart from one that was not found |
| Receiver.ParseIrcReply | client_wrapper/IRC.cc:267-308 | what is delivered for a line is what reading it as a value gives, private messages, notices and names replies cut as their branches do, and nothing outside the line is written |
| Receiver.SplitToReplies | client_wrapper/IRC.cc:219-229 | the buffer yields the deliveries of its complete lines, in order; a buffer of printed messages yields what was meant exactly when their fields are free of the delimiters |
| Roster.List.FreeFrom | client_wrapper/IRC.cc:594-605 | the walk ends on a free node at the end of the list, added if need be |
| Roster.List.OnNames | client_wrapper/IRC.cc:566-650 | the list grows by exactly the entries decoded from the reply |
| Format.NamesListed | client_wrapper/IRC.cc:578-648 | the names behind the first ` :` behind the first `#` are listed, split at spaces, on the channel in between, and none without them |
| Format.MarkedName | client_wrapper/IRC.cc:607-616 | a name with `@` is an operator's, with `+` a voiced user's, and the mark is no part of the nick |
| Roster.List.OnJoin | client_wrapper/IRC.cc:310-332 | the list grows by one entry without flags, if there is a list |
| Roster.List.Receive | client_wrapper/IRC.cc:566-650 | over any run of NAMES and JOIN replies the list holds the decoded entries in order |
| Roster.EachReplyAdds | client_wrapper/IRC.cc:310-332 | in a run of replies each adds its own entries behind those there are: a NAMES reply those decoded from it, a JOIN one without flags if a NAMES reply came before |
| Roster.List.HasFlag | client_wrapper/IRC.cc:231-265 | reports the flag of the first entry for the user on the channel |
| Listing.NamesReply | server/src/client.cpp:620-634 | the server's NAMES string is decoded to every listed nick with its status, in order, and one entry without a nick, exactly when the client's nick has no `#`, the channel begins with `#` and has no ` :`, no nick has a space and no plain nick begins with `@` or `+` |
| Listing.PlainTakenForOperator | server/src/client.cpp:380-387 | a plain user `@bob`, whom the server accepts, is decoded as the operator `bob` |
| Listing.FlagsAgree | client_wrapper/IRC.cc:231-265 | the flags looked up in the list after such a reply are the statuses the server listed, the first one for a nick listed twice |
| Listing.FlagsAgreeExactly | client_wrapper/IRC.cc:607-616 | when no two members are read as the same nick, they agree on every nick exactly when no plain nick begins with `@` or `+` |

## Left out

- Matcher.WildcardFit: an unclosed `[` is a precondition, because the program then reads past the end of the pattern; characters are compared as code points, not as signed bytes.
- Wildcard.LooksForEver: a loop that never ends is modelled by the result `NoAnswer`, given where this lemma shows the loop to run for ever.
- Auxiliar.SplitString: the separator is not empty, because the program's loop does not end for an empty one; the same holds for the key of `ReplaceString`.
- Scheduler.RunAccounted: the counter wraps at 2^32 in the model, and the theorems are for runs with fewer events than that; due times and the clock are unbounded. Operations and passes are atomic, although the program takes no locks. A callback that cancels its own event is excluded, because the program then erases through an invalid iterator.
- SessionRuns.RunOk: a connection closed by something other than its own lines, timers or errors is closed in a step of its own. Nothing else in the server cancels events of connections and users; the topic event of a channel, whose id is never assigned before it is cancelled, is not part of this model. The scheduler is not stopped.
- Clients.Client.ReceiveFromSocket: lines on which the program reads past its tokens or throws are a precondition (NICK alone, USER with exactly four tokens, QUIT alone when it is let through). What the request handler does is left out except for closing on QUIT; on MODE with the own nick alone, USERHOST alone and SETHOST alone it reads past the tokens, and these are taken to return. Whether a nick is taken or not allowed is a parameter. A name that registers is not stored.
- Clients.User.OnIdle: the idle counter is reset by a private message, which is not part of this model.
- SessionSilence.SecondUserIsTheLastLine: the destruction of the connection object that follows is no step of a run, because the program's remaining events then follow a dangling pointer; `SessionRelease.LeftBehind` is about its moment.
- Receiver.ParseIrcReply: the MODE branch cuts the parameters further before the hook is called, if it is, so for MODE the delivery is what the branch is given; 353 and JOIN are modelled in `Roster`. What MODE, PART, QUIT and NICK do to the roster and the own nick is not part of this model. A PRIVMSG, NOTICE or 353 without parameters, on which the program follows a null pointer, is dropped; a JOIN without parameters, on which it does so once there is a list, and a NICK without them from the client's own nick are handed to the hook.
- Roster.List.OnNames: works on the text of the reply instead of cutting it in the buffer, so that the cuts in the reply's own bytes are not captured.
- Roster.List.HasFlag: a list whose only node is still free is excluded, because the program then compares a null pointer.
- Wire.LineRoundTrip: sockets, partial reads and the size of the receive buffer are not part of this model, so a stream is taken to arrive in one piece.
- The request handler, channels, bans, the database, configuration, logging and name resolution.
- The client's list of command hooks, which calls the first hook registered for a command.
- The mode message, which the client does not read back as it was printed.
