# Registration forms, from the editor to the database

The repository sends student registration forms from colleges to an education board. An editor
checks a form and saves it as a text file of 39 lines. A sending program goes through the
directory of such files and transmits those not yet marked sent, over a line protocol of its own.
A threaded server stores each form twice, as a text file and as a flat record in its college's
database, and answers; on the answer the sender sets one character in the header line of its file.
Small tools read the records back.

This project models that way of a form in Dafny and proves what the system is for: that a form
which counts as sent is stored whole, under its own key, and can be read back exactly; that
this survives any chunking of the network, lost connections, time-outs and cancellations; and
where the code does not keep that promise, exactly when it does.

## How the model is laid out

| file | part of the system |
|---|---|
| `Bytes.dfy` | C strings and the scanf/printf conversions in use |
| `Streams.dfy` | `read`/`write` with any chunking, `readn`, `writen`, the buffered `readline`, and the pure line split they refine |
| `Records.dfy` | the flat record, its two unpackers, the database |
| `Server.dfy`, `Framing.dfy`, `StoreInvariant.dfy` | `manage_client` as functions of its input; framing; what can be put |
| `ManageClient.dfy` | `manage_client` as imperative code over a socket, proved against `Server.dfy` |
| `Forms.dfy`, `FormFile.dfy`, `FormWindow.dfy`, `FileNames.dfy` | the form printer, the header and its in-place rewrite, the loader, file names and keys |
| `NumberLists.dfy`, `PairRules.dfy`, `SubjectCodes.dfy` | number files, the subject-code checker and its rule language |
| `Protocol.dfy` | any number of clients and server threads over byte channels, as a state machine |
| `ProtocolInvariant.dfy`, `ProtocolClient.dfy`, `ProtocolServer.dfy`, `ProtocolRuns.dfy` | the invariant of every session, kept by every event |
| `ProtocolTheorems.dfy`, `ProtocolSessions.dfy`, `ProtocolProgress.dfy`, `Announcements.dfy` | what follows for whole runs |
| `ProtocolScripts.dfy`, `LostForm.dfy` | runs that exist, the failing one among them |
| `RecordRoom.dfy`, `ProtocolOverruns.dfy`, `FullRecord.dfy` | when a thread writes outside its buffers: states, steps and runs |
| `ProtocolMessages.dfy` | what a client writes over a run, and which replies it goes on after |
| `ProtocolThread.dfy` | the state machine's server thread is `manage_client` |
| `Registration.dfy` | both ends together, for real forms |

A run of the protocol is a list of events: a client connects or takes a step, a server thread takes
a step, a connection is cut after any byte in either direction, a server thread gives up, an
operator cancels. Each step is a function of the state and of a choice that stands for everything
outside (which file the directory gives next, whether a file opens, whether a write goes out and
how much of a failed one did, the clock). Fields called history only remember what happened.

## What the code does not promise

`apply_forms` writes the FILENAME line of a form before `apply_form` opens the file again. When that
second open fails, the function returns and the scan goes on, but the server has opened a body
under that name. The FILENAME line of the next form becomes a line of that body, its lines follow,
and its dot stores all of it under the wrong key; the acknowledgement then marks the second form
sent. `LostForm.RollTwoIsLost` is such a run, `ProtocolScripts.MarkedButNotStored` says that any two forms have one.
`ProtocolTheorems.RightExactlyWhen` gives the exact condition: with the server's files working, a put is right if and
only if no name was announced in vain since the last acknowledgement. `ProtocolSessions.EndToEnd` proves the promise for
a client in all runs in which it could reopen the forms it announced, whatever befell the other clients, and resends after
a lost acknowledgement included; `ProtocolSessions.MarkedIsKept` proves it at the very step that sets the flag.

The server can write outside two of its buffers. It checks that the 1024 bytes of the record are not full before it copies
a line, not that the line fits. Each swallowed FILENAME line takes 30 bytes, and the lines of the form that follows come on
top. `RecordRoom.OverrunExactly` gives the condition: the record buffer is overrun if and only if more than 35 names
were announced in a row, or names and lines come to more than 1024 bytes without filling the buffer to the byte at the end
of a line before (there the check fires and the file is given up). `ProtocolOverruns.ThreadOverruns` says so of every
reachable session, `ProtocolOverruns.OverrunRun` gives a run for every list of forms that meets the condition, and in
`FullRecord.FiveFormsOverrun` five forms of the editor do: four names in vain and a record of 921 bytes, which
`FullRecord.FullRecordIs` shows an editor's form can have. No form of the editor overruns the buffer by itself
(`Forms.FormIsSendable`).

The other overrun is of the name buffers. A FILENAME line cut short by a lost connection can leave a name of one to three
characters, for which the source takes four off its length anyway; and one cut right behind the blank leaves none, so that
the name heard last is used, which in a session that has named no file yet is taken to be empty.
`Framing.CutNameOverruns` says that these are the only cases, `ProtocolOverruns.CutRun` that every entitled client's
connection can break in each of them, and `ProtocolOverruns.StepOverruns` characterises both overruns at every step of
every run, whatever the server's files do. `Server.dfy` enters `Undefined` at both places, and nothing is claimed about the
thread from there on.

Smaller results of the same kind. `SubjectCodes.SafeExactly` says which lists of special codes let the checker read past
its 17 boxes. `Records.UnpackWithin` says which records `reg_getdb` can walk without leaving them.

Two remarks. Ten ordinary boxes and two special codes are accepted without a fourth subject only if the group lists the
code 0 (`SubjectCodes.TwoSpecialNeedAFourth`). And two databases that hold exactly the same forms are the same
(`ProtocolTheorems.MirrorsAlike`), so resending, order and breaks leave no trace in a database that has converged.

## Model

| member | source | states |
|---|---|---|
| Streams.Socket.Readn | server/support.c:3-23 | however reads are chunked or interrupted, exactly the next n bytes of the stream are delivered, fewer only at end of file, and nothing beyond them is consumed |
| Streams.Socket.Writen | server/support.c:25-44 | a message goes out whole and the call says so, or a proper prefix goes out and the call says -1 |
| Streams.Rline.Refill | server/support.c:103-112 | after retries the empty buffer holds the front of the stream, or the stream has ended the way the result says; delivered, buffered and unread bytes stay the same stream |
| Streams.Rline.MyRead | server/support.c:101-116 | the next byte of buffered followed by unread, none lost or repeated |
| Streams.Rline.Readline | server/support.c:118-154 | for every chunking the result is the pure bounded line of buffered followed by unread, and the return value is its length, or one more when it does not end in a newline |
| Streams.SplitIsASplit | server/support.c:138-153 | the successive lines up to end of file put together are the stream, and every one but the last ends at a newline or at the buffer's limit |
| Streams.SplitIsUnique | server/support.c:138-153 | no other sequence of pieces has these properties |
| Streams.SplitOfBroken | server/support.c:138-153 | a stream that breaks off loses its last piece exactly when that has neither its newline nor the length of the buffer, and no other |
| Records.PackInjective | server/eduserver.c:699-712 | two different lists of NUL-free lines never make the same record |
| Records.UnpackPack | server/regdb.c:109-119 | the first 39 lines packed are the lines the unpacker returns |
| Records.UnpackWithin | server/regdb.c:109-119 | the unpacker stays inside a record exactly when the record holds 39 NULs |
| Records.PlainPack | server/showregdb.c:307-314 | printing a packed record gives the lines joined |
| Records.ShowRawData | server/showregdb.c:301-315 | the walk ends, stays inside exactly those records whose last byte is NUL, and prints every other byte in order |
| Records.RegDb.Insert | server/regdb.c:27-60 | with `confirm` the key now has the new record, without it an existing key keeps the old one; other keys are untouched |
| Records.RegDb.Get | server/regdb.c:90-128 | an unknown key is told apart, and a known one gives the 39 strings of its record or runs past it |
| Server.Gate | server/eduserver.c:344-496 | a session is accepted if and only if the bytes received begin with the magic, a known, enabled user inside its time window and that user's digest, and the replies went out; the line protocol starts at the very next byte |
| Server.UserReplySays | server/eduserver.c:410-449 | the number of the reply to USER: 301 exactly for an unknown user, 302 for a disabled one, 304 for one too early and 305 for one too late, with the time that matters behind it, 500 for one who may go on |
| Server.UserIsRead | server/eduserver.c:399-410 | the user is the word behind USER, leading blanks skipped |
| Framing.CommandOpens | server/eduserver.c:615-650 | between files a FILENAME line opens a body under exactly that name |
| Framing.CutNameOverruns | server/eduserver.c:622-633 | a cut FILENAME line overruns the name buffers if and only if one to three characters of the name came through, or none did and the name heard last is no name |
| Framing.BodySwallowsName | server/eduserver.c:656-714 | inside a body the same line is one more line of text and record, or finds the record full, or overruns it |
| Framing.BodyTakesLine | server/eduserver.c:698-713 | a form line never looks like a dot or a QUIT; it goes into both stores unchanged, unless the write fails or the record has no room for it |
| Framing.CommandRefusesLine | server/eduserver.c:567-618 | a form line outside a body ends the session |
| Framing.ImagesAreRefused | server/eduserver.c:574-580 | an announced image is answered 310, opens nothing and leaves the line loop where it was |
| Framing.BodyIsTaken | server/eduserver.c:656-714 | with a working disk all lines of a form reach both stores, the size guard does not fire and the record buffer is not overrun |
| Framing.FormIsStored | server/eduserver.c:559-674 | from the bytes of FILENAME, lines and dot the server recovers the name and exactly those lines, stops at the client's own dot, and stores them twice |
| StoreInvariant.EveryPutIsFramed | server/eduserver.c:517-720 | for every input: no effect before the handshake succeeded, and every put goes to the college the accepted user's name begins with, is everything between one FILENAME piece and the dot that ends it, and fits the record buffer |
| StoreInvariant.StoresAgree | server/eduserver.c:661-712 | for any number of text lines, printing the stored record gives the text file of the same transfer |
| ManageClient.Handshake | server/eduserver.c:344-496 | over a socket with any chunking the three fixed reads and replies come to what the pure handshake says |
| ManageClient.BodyLines | server/eduserver.c:656-714 | the body loop with its line buffer, its record buffer of 1024 bytes and the text file does what the pure loop says of the remaining input; a copy past the record buffer is told apart |
| ManageClient.Lines | server/eduserver.c:559-724 | the same for the command loop |
| ManageClient.Manage | server/eduserver.c:274-732 | for every chunking, interruption and ending of the input and every failing write, replies, effects and the college they go to are those of the pure server |
| Forms.VerifyName | project2/src/myfuncs.c:1577-1600 | accepts exactly the texts that start with a letter and have only letters, dots, dashes and single blanks |
| Forms.HeaderRoundTrip | project2/src/myfuncs.c:1539-1544 | scanning a printed header gives back its seven fields |
| Forms.PaddedText | project2/src/myfuncs.c:797-811 | printing the number of a box with four digits puts zeros in front of the text of the box |
| Forms.SubLabelSays | project2/src/myfuncs.c:821-823 | the label of a subject line is SUB_ and the number of its box in two digits |
| Forms.HeaderText | project2/src/myfuncs.c:797-798 | the header line spelled out, roll and TOT serial as their texts with zeros in front |
| Forms.FormIsSendable | project2/src/myfuncs.c:797-848 | every form within the widget widths has 39 lines of at most 119 bytes that the server cannot mistake for a command, and its record has at most 921 bytes |
| Forms.RecordSize | project2/src/myfuncs.c:797-848 | the size of a form's record, exactly: 445 bytes and the letters of its fields |
| FormFile.WriteForm | project2/src/myfuncs.c:797-848 | the printing statements write the text the other results are about, the CLASS_ROLL and TOT_LIST lines holding the texts of their boxes with zeros in front |
| FormFile.FlagIsRead | project2/src/myfuncs.c:1347-1349 | the flag scanned from a saved form is the flag it was saved with |
| FormFile.TextFile.MarkSent | project2/src/myfuncs.c:1534-1548 | on the file of any form, sent or not, the rewrite in place leaves the file of the form as saved sent: same length, one byte changed; a file without a header stays as it is |
| FormFile.MarkingIsOneByte | project2/src/myfuncs.c:1534-1548 | scanning the header and printing it over itself with the flag set turns the one flag byte from 0 to 1, keeps every other byte, and does nothing the second time |
| FormWindow.Window.LoadStudentInfo | project2/src/editor.c:2620-2800 | two lines are skipped and every further line of the file lands in the box its number stands for |
| FormWindow.LoadShows | project2/src/editor.c:2645-2800 | loading a printed form fills every box from its own line and no other |
| FormWindow.ShownSays | project2/src/editor.c:2645-2800 | what each box then shows: its field without leading blanks, a blank section restored, the dates split, and an old photo kept where the form names none |
| FormWindow.ThreeResplit | project2/src/editor.c:2714-2731 | a birth date comes back from its printed form exactly when no part holds a dash, none is empty before a filled one, and the first has no leading blank |
| FormWindow.TwoResplit | project2/src/editor.c:2783-2796 | the same for the two years of the previous session |
| FormWindow.RoundTrip | project2/src/editor.c:2645-2800 | printing and loading gives the same form, the texts of roll and TOT serial with zeros in front, if and only if no text starts with white space and the dates resplit |
| FormWindow.VerifiedComesBack | project2/src/myfuncs.c:408-668 | every form that passes all the checks, none switched off, and whose texts from lists have no leading blank comes back |
| FileNames.NameIsStandard | project2/src/myfuncs.c:4376-4420 | every name has 19 characters, ends in .txt and fits the server's buffers |
| FileNames.NameSays | project2/src/myfuncs.c:4376-4420 | what each place of a name says: M or F, the digits of roll and TOT serial, the section or an underscore, and the place of the group in the list of groups, with u exactly for Home Economics |
| FileNames.KeysAreDistinct | project2/src/myfuncs.c:4376-4420 | the name without .txt decides gender, roll, section, TOT serial and group, the group spelled differently in the code included |
| NumberLists.SignedReads | project2/src/myfuncs.c:1663 | strtol and "%d" both read white space, one sign or none and all the digits there are |
| PairRules.WalkIs | project2/src/myfuncs.c:1897-1930 | the walk with its counter meets a rule exactly when one listed code stands before any marker 2, or two after the same one |
| PairRules.PairCheck | project2/src/myfuncs.c:1852-1937 | -1 without table or codes, 0 exactly when every code without a rule or with a met rule, else the 1-based place of the first that is not |
| PairRules.OrderDoesNotMatter | project2/src/myfuncs.c:1883-1931 | acceptance is the same for every permutation of the filled codes |
| PairRules.LastLineWins | project2/src/myfuncs.c:1978-2006 | the table maps a key to a rule exactly when the last rule line with that key says so |
| PairRules.RuleIsRead | project2/src/myfuncs.c:1978-2006 | a line that shows numbers is the rule of its first number with up to nine more as codes, in the order of the line; fewer than two numbers are none |
| PairRules.PairFileIsRead | project2/src/myfuncs.c:1940-2016 | a file of such lines: the table has a rule for a key exactly when some line shows key and codes and no later line is a rule for that key |
| PairRules.PairTable.Create | project2/src/myfuncs.c:1940-2016 | the table is read once; a missing file or a table already there changes nothing |
| SubjectCodes.VerifySubjectCodes | project2/src/myfuncs.c:1605-1848 | accepts exactly when the declarative conditions on the 17 boxes hold, and reads index 17 exactly when more boxes are needed than there are and all are good |
| SubjectCodes.ListIsRead | project2/src/myfuncs.c:1636-1710 | of a list file every number is read, in order, up to the first thing that is none |
| SubjectCodes.CollectCodes | project2/src/myfuncs.c:1717-1792 | the loop over the boxes ends well exactly when the needed boxes are long enough, in the group and all different, and its list is their codes |
| SubjectCodes.FiveAreSafe | project2/src/myfuncs.c:1702-1792 | with at most five different special codes index 17 is never read |
| SubjectCodes.SixOverrun | project2/src/myfuncs.c:1702-1792 | with any six or more it can be: boxes, group and fourth subject that do it, with three characters a box for three-digit codes |
| SubjectCodes.SafeExactly | project2/src/myfuncs.c:1702-1792 | a list of special codes lets index 17 be read for some boxes if and only if it has at least six different codes |
| ProtocolClient.ReceiveIs | project2/src/myfuncs.c:3572-3634 | a client's readline takes the one reply there is, or what a dead connection left of it, and leaves its static buffer empty |
| ProtocolClient.RejectionIsHeard | project2/src/myfuncs.c:2965-2990 | a rejected password is recognised even when the reply's newline was lost |
| ProtocolClient.ClientKeeps | project2/src/myfuncs.c:1183-1569 | every step of a client keeps the session invariant; a form is marked only when its put is in the log |
| ProtocolMessages.CancelledStops | project2/src/myfuncs.c:1317-1393 | from any state on, a cancelled client writes at most the rest of its login, the dot if it stood behind a last line, one more FILENAME line if it stood behind none, and then nothing but QUIT |
| ProtocolMessages.CancelStops | project2/src/myfuncs.c:3915-3925 | the same from the moment the operator presses the button |
| ProtocolMessages.NoDirectoryNoForms | project2/src/myfuncs.c:1317-1326 | a client that cannot open its directory, or was cancelled before, announces nothing |
| ProtocolMessages.QuitIsLast | project2/src/myfuncs.c:1385-1393 | a session that came to its end with the connection standing ended with QUIT |
| ProtocolMessages.AnnouncedOnce | project2/src/myfuncs.c:1347-1350 | in a whole session no form is announced twice, and none that was marked sent |
| ProtocolMessages.HeardExactly | project2/src/myfuncs.c:2759-2996 | which replies, whole or cut, a client goes on after: the whole 500 for the magic and the mark, three bytes reading as 500 for the user, three bytes not reading as 303 for the password |
| ProtocolServer.TurnIs | server/eduserver.c:559-720 | what any message of a client does to the line loop, whatever the server's files do; a put happens exactly at a dot inside a body, and no body outgrows the record buffer |
| ProtocolServer.CutTurn | server/eduserver.c:656-674 | the rest of a message cut by a lost connection puts nothing |
| ProtocolServer.UserReplyIs | server/eduserver.c:410-449 | the reply to USER is always one line the client has room for, and consent only for known, enabled users |
| ProtocolServer.ServerKeeps | server/eduserver.c:344-720 | every step of a server thread keeps the session invariant; what it puts is a whole form of an entitled client |
| ProtocolRuns.NextKeeps | project2/src/myfuncs.c:1183-1569 | every event of any session, faults included, keeps the invariant of the whole system |
| ProtocolTheorems.EveryPutIsAWholeForm | project2/src/myfuncs.c:1475-1506 | wherever runs are cancelled, cut or timed out: every record ever put fits the buffer, ends with all lines of one form, goes to its own client's college, and is the same in both stores |
| ProtocolTheorems.MarkStep | project2/src/myfuncs.c:1510-1548 | the step that marks a form belongs to an accepted session whose put of this very exchange is in the log; the database holds the form if its key was put cleanly since |
| ProtocolTheorems.OnlyAcceptedGetOn | project2/src/myfuncs.c:2717-2997 | no client is past authentication without the server having taken its password, and the server takes it only for an enabled account with that digest |
| ProtocolTheorems.SentIsStored | project2/src/myfuncs.c:1475-1553 | behind every form marked sent is a put of its exchange, and from any put of it the database holds the form as long as only its own client puts its key, right after an acknowledgement |
| ProtocolTheorems.RightExactlyWhen | project2/src/myfuncs.c:1464-1470 | with the server's files working a put is right if and only if no name was announced in vain before it |
| RecordRoom.FoldForm | server/eduserver.c:656-714 | where names announced in a row and the lines after them lead: one open body with all of them, a file given up where the buffer is hit to the byte, or an overrun |
| RecordRoom.OverrunExactly | server/eduserver.c:707-712 | names and lines overrun the record buffer if and only if there are more than 35 names, or they come to more than 1024 bytes and no line before ends at byte 1024 |
| Announcements.ExactlyWhen | server/eduserver.c:656-714 | the equivalence for one put, from the messages that led to it |
| ProtocolSessions.EndToEnd | project2/src/myfuncs.c:1475-1553 | in every run in which this client could reopen the forms it announced, a form it marked sent has puts, each of exactly its lines under its own key, and from each of them on the database holds the form until another client puts the key |
| ProtocolSessions.MarkedIsKept | project2/src/myfuncs.c:1510-1548 | in such a run the database holds a form at the step that marks it, unless another client put the key since this exchange did |
| ProtocolSessions.ThroughMeansSent | project2/src/myfuncs.c:1328-1387 | a session that visited the whole directory and missed nothing leaves every form marked sent |
| ProtocolSessions.SentMeansConverged | server/eduserver.c:549-663 | after any such run, sessions broken anywhere and other clients failing at will, once all forms of a college's only sender are marked the database holds exactly these forms |
| ProtocolSessions.ThroughMeansConverged | project2/src/myfuncs.c:1328-1387 | and one session that missed nothing is enough, whatever happened before it |
| ProtocolProgress.LockStep | project2/src/myfuncs.c:3575-3602 | static read buffers are empty in every reachable state, and at most one reply line is under way, to a client waiting for it |
| ProtocolProgress.NoDeadlock | project2/src/myfuncs.c:2759-2996 | client and server never both wait to read |
| ProtocolProgress.SomeoneCanMove | server/eduserver.c:344-675 | until both sides are done one of them has a step |
| ProtocolProgress.SessionEnds | project2/src/myfuncs.c:1328-1387 | a session left to its two sides takes at most a number of steps known in advance |
| ProtocolScripts.ASessionCanGoThrough | project2/src/myfuncs.c:1183-1569 | from every reachable state an idle, entitled client can run a session to its end in which announced forms are reopened, after which all its forms are marked sent |
| ProtocolScripts.ASessionCanConverge | project2/src/myfuncs.c:1183-1569 | every run in which a college's only sender could reopen the forms it announced can be continued so that the database holds exactly its forms |
| ProtocolScripts.MarkedButNotStored | project2/src/myfuncs.c:1464-1470 | for any two forms there is a run without any fault of network or server that marks one of them sent although the database lacks its key |
| LostForm.RollTwoIsLost | project2/src/myfuncs.c:1464-1470 | such a run for one concrete college with two concrete forms |
| ProtocolOverruns.ThreadOverruns | server/eduserver.c:707-712 | in every reachable state a thread has overrun its record buffer if and only if the names and lines it took do not fit |
| ProtocolOverruns.StepOverruns | server/eduserver.c:559-714 | a step overruns a buffer if and only if a line that does not fit meets a record that is not full, or a cut FILENAME line leaves no name |
| ProtocolOverruns.CutRun | server/eduserver.c:622-633 | every entitled client has runs with one broken connection and no other fault that overrun the name buffers, for each of the cut places |
| ProtocolOverruns.OverrunRun | project2/src/myfuncs.c:1464-1470 | every list of forms that together do not fit has a run that overruns the record buffer, no connection broken and every file of the server working |
| FullRecord.FullRecordIs | project2/src/myfuncs.c:797-848 | a form of the editor whose record has 921 bytes, so the bound is met |
| FullRecord.FiveFormsOverrun | server/eduserver.c:707-712 | such a run for one concrete college: four forms that cannot be reopened, and the fifth |
| ProtocolThread.ThreadIsServer | server/eduserver.c:274-732 | on every input the state machine's thread can be stepped to its end doing exactly what the whole-input server does: the effects on both stores, the puts in the user's college, and the replies as far as the connection carries them |
| ProtocolThread.ArrivalMakesNoDifference | server/support.c:95-116 | however bytes arrive among the thread's steps and whenever the client goes away, the thread does what it does when all of them are there from the start |
| ProtocolThread.ArrivingIsServer | server/eduserver.c:274-732 | so on bytes that arrive piecemeal, too, the thread does what the whole-input server does |
| Registration.DirectoryIsGood | project2/src/myfuncs.c:780-848 | what the protocol assumes of form files holds of all files the editor can save |
| Registration.NameSpells | project2/src/myfuncs.c:777-806 | the name of a saved form spells the texts of its boxes, roll and TOT serial with zeros in front |
| Registration.SameKeySameStudent | project2/src/myfuncs.c:4376-4420 | forms share a key only when gender, zero-padded roll and TOT serial, section and group agree |
| Registration.RegisteredForm | project2/src/myfuncs.c:1475-1553 | once a saved form is marked sent, the record under its key unpacks to exactly its 39 lines and prints as exactly its file, until another client puts the key |
| Registration.Replay | server/eduserver.c:661-664 | the puts of a log, made one by one with `confirm`, leave exactly the database the other results are about |
| Registration.Fetch | server/regdb.c:90-128 | `reg_getdb` on that database finds a form marked sent and returns the lines that were saved |
| Registration.FilesTellSent | project2/src/myfuncs.c:1347-1350 | after every run the file of a form is the form as saved but for its flag, the flag reads as sent exactly when the form was marked, and an unsent file reads as exactly the lines sent |
| Registration.RightExactly | project2/src/myfuncs.c:1464-1470 | the equivalence for all forms the editor can save |
| Registration.RecordOverruns | server/eduserver.c:707-712 | the condition for an overrun record buffer for all forms the editor can save |
| Registration.AFormCanBeLost | project2/src/myfuncs.c:1464-1470 | without that condition a saved form can be marked sent and have no record |

## Left out

- ProtocolSessions.EndToEnd: asks that the client could reopen the forms it announced, because without it the statement is false; the exact condition is in ProtocolTheorems.RightExactlyWhen.
- ProtocolOverruns.ThreadOverruns: is stated for exchanges in which no file of the server failed and no cancellation came between two forms; ProtocolOverruns.StepOverruns states each step without these conditions.
- ProtocolSessions.SentMeansConverged: asks that no other client program has the same college and that this one could reopen the forms it announced; two senders of one college with different files for one student overwrite each other by design.
- ProtocolTheorems.RightExactlyWhen: is stated for names of 19 characters, which all names of the editor have; Registration.RightExactly states it without that condition.
- FormFile.TextFile.MarkSent: when the header cannot be scanned the source prints whatever its variables held before; the file is then left unchanged here.
- Forms.FormIsSendable: is stated for a TOT serial of digits, as are all results about forms that fit; with `ignore_totlist` the editor takes any four characters there.
- ProtocolThread.ThreadIsServer: when a reply about images failed to go out but later replies do, the connection of the state machine is broken and carries none of them.
- FormWindow.VerifiedComesBack: is stated for forms that passed every check; with checks switched off by the ignore options, with previous-exam fields nobody checked, or with a college name or religion that starts with a blank, FormWindow.RoundTrip says when the form comes back.
- SubjectCodes.VerifySubjectCodes: messages and the highlighting of the offending box are not part of the result.
- Photo transfer: the server is modelled as it starts, refusing images; the reply 310 is kept, the payload loop is not, since it does not read the announced number of bytes.
- GTK windows, progress labels and focus; widget texts are an input record with the widths of the widgets.
- Sockets, signals, threads, directories, BerkeleyDB and OpenSSL; the digest is any 20 bytes, `put` and `get` are map operations, and the result of `put` is ignored as in the source.
- The year: the server starts a new database each year; a run here stays inside one year.
- Two sessions writing the same text file at once; text and record are compared for one transfer.
- Edits of a form file between sessions; a form's lines stay what they were when it was saved.
- Names the server cannot hold: a name shorter than 4 or longer than 19 characters leads to the mode `Undefined` in the same way.
- Overruns of the record buffer: the thread enters `Undefined` and makes no further step; the other threads of the process are taken to go on undisturbed, as they are after the overrun of a name buffer.
- Buffers of the loader (`name`, `value`): texts longer than they are not modelled as overflowing.
- Records.ShowRawData: the source hands each string to `printf` as its format; a record containing `%` is taken to print as it is.
- The fixed-column export of `showdata`, the password tools, `verify_date` and the entry filters, which would only add easy members.
- `benchmark/myfuncs.c`, `test-client/listen.c` and `project2/src/educlient.c`, older copies of the same loops.
