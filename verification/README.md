# A verified model of the concurrent TCP file transfer service

The service stores files under flat names. A client sends one request on a TCP connection, `GET name` or
`PUT name size`; the server answers with one control line, and file bytes follow in one direction or the other.
The server is one thread that polls all connections. An upload goes to a temporary file, which is renamed to its
final name when the declared number of bytes has arrived.

The model has these layers, from the bottom up.

- `Text`, `Requests`: decimal numbers, safe names, the request parser and printer, temporary names.
- `Disk` (module `Storage`): names bound to files, and files that outlive their names while they are open.
- `Connection`: one connection as a value, and what each handler makes of the outcomes of the system calls it
  makes. The outcomes are parameters, so every result holds for all of them. `ServerClient` holds the object whose
  fields the handlers update in place; each method is proved equal to the function of the same meaning.
- `Outcomes`: the whole table of what one poll event does, in terms of the bits that poll reports, the state, and the
  first answer that counts, with texts and limits written out. Every event is its reading followed by its writing
  (`Requested.ReadsThenRest`), so the table covers all of them.
- `ConnectionInvariant`, `ConnectionProofs`, `Transcript`: what every handler keeps, with a history of the bytes
  received and sent and of the commits made. `Grounds`: what a refusal or a download says about the store.
- `System`, `Linearizability`: all connections over one storage root, in every interleaving. `Endings`: what is left of
  a connection that has broken off.
- `Rounds`, `EventLoop`: the events of one pass and of the whole loop as functions of what poll and accept answer, and
  the loop over the vector of connection objects, with the poll array, marking, compacting and accepting, proved to make
  exactly these events of the machine of `System`. `Polling`: which events these are, place by place in the vector and
  call by call. `Requested`: what poll is asked for, and what the bits that it reports can change.
- `Lifecycle`, `Fairness`: a measure of each connection, bounds on what one event moves, independence of the
  pieces in which input arrives, and the share of each connection in the loop.
- `TempNames`, `Guards`, `SafeEvents`: why results about the store need a hypothesis on names, and exactly when they do.
- `Peer`, `ClientProgram`: the client as a machine, and the client program itself, proved to follow it and to succeed
  exactly when it can. `Receipts`: when that is, in terms of the answers of the calls.
- `Limits`: the alphabet of names, the limits, and the texts of the protocol, written out on both sides of each limit.
- `Net`, `EndToEnd`: the server with any number of clients, each joined to it by two byte channels. On connections
  without such a client anything may arrive.
- `RealTime`: the store is linearizable, as its clients see it.
- `Progress`, `Completion`, `Termination`, `Settling`: transfers in which nothing fails never block, can always be brought
  to their end, and come to it in every fair run.

Bytes are modelled as characters, and streams, buffers and file contents as strings. 64-bit counters are natural numbers
with the bounds that the code checks written out; the invariants show that none of its subtractions goes below zero.
The handlers receive their system-call outcomes as a script; a script that has run out stands for a call that would
block on the server, and for one that fails in the client, whose socket is blocking.

Results about runs of the server suppose that no accepted request names a file in the form of the server's own temporary
files (`CleanRun`, `CleanNetRun`). The name check admits such names, and `TempNames` has a run in which an upload under such
a name takes the place of another upload, and one in which a download under such a name reads bytes that are never
committed. `SafeEvents` does without the hypothesis: it proves of every handler call, of every event and of every run that
no harm is done if and only if three guards are met, which a server could check before it renames, creates or opens.

Where the code and its documentation differ, the model follows the code. `docs/architecture.md:12` lets any state lead to
`SendingError`; in the code a download that has begun to answer is closed without an error line. `docs/protocol.md:36` lists
the error reasons without `request-too-long`. A request line of more than 4096 bytes is always refused: as
`bad-request` if all of it but the last piece that arrives is at most 4096 bytes long, and as `request-too-long` otherwise.
So the reply to a line of 4097 to 69631 bytes depends on the pieces, and that to a longer one does not.

`dafny verify dfyconfig.toml` checks the whole project.

## Model

Server lines are in `src/server.cpp`, client lines in `src/client.cpp`.

| member | source | states |
|---|---|---|
| `Text.ParseUint64` | src/server.cpp:109-126 | accepts exactly the nonempty digit strings whose mathematical value is below 2^64, and returns that value; the overflow test before each multiplication is sound and complete |
| `Text.ParsePort` | src/server.cpp:86-107 | the early exit above 65535 gives the same answer as parsing the whole number and comparing it |
| `Text.ParseClientPort` | src/client.cpp:64-72 | the client's port parser accepts exactly 1 to 65535 |
| `Text.PrintedNumberParses` | src/server.cpp:321 | parsing inverts printing, on exactly the numbers that fit 64 bits |
| `Text.DecimalInjective` | src/server.cpp:367-369 | two numbers print alike only if they are equal |
| `Requests.IsSafeFilename` | src/server.cpp:128-143 | decides exactly the safe names; `Limits.SafeNames` says which these are |
| `Limits.SafeNames` | src/server.cpp:128-143 | a name is safe if and only if it has 1 to 255 characters, all among the 65 that are written out, and is neither `.` nor `..` |
| `Limits.AcceptedNamesStayInside` | src/server.cpp:157-160 | so no accepted request has a slash, a backslash or a zero byte in its name |
| `Limits.OutsideIsRefused` | src/server.cpp:157-160 | `GET ../outside` is refused as unsafe |
| `Limits.SpaceCharacters` | src/server.cpp:146-152 | white space is exactly the six characters of the C locale |
| `Limits.ReturnIsIgnored` | src/server.cpp:146-152 | a line that ends in a carriage return is accepted like one that does not |
| `Limits.NumberLimit` | src/server.cpp:109-126 | numbers are accepted up to 18446744073709551615 |
| `Limits.UploadLimit` | src/server.cpp:175-179 | sizes are accepted up to 17179869184 |
| `Limits.ResponseLines` | src/client.cpp:273-288 | error lines are those that begin with `ERR `, and sizes are read from `OK ` and digits, and from nothing else |
| `Limits.ReceiveLimit` | src/server.cpp:383-385 | one receive delivers 1 to 65536 bytes |
| `Limits.RequestPieces` | src/server.cpp:382-410 | the pieces of a request line do not matter up to 4096 bytes and from 69632 on |
| `Limits.ResponsePieces` | src/client.cpp:209-234 | nor do those of a response line |
| `Requests.WordsOfSpread` | src/server.cpp:146-152 | splitting a line at white space undoes any spacing of words |
| `Requests.ParseRequestExact` | src/server.cpp:145-182 | the whole decision table of the parser, in its order of precedence, in terms of the words of the line only |
| `Requests.RequestRoundTrip` | src/server.cpp:145-182 | every valid request, printed as the client prints it, fits one line within the limit and is parsed back as the same request |
| `Requests.AcceptedLineReprints` | src/server.cpp:145-182 | conversely an accepted line spells one valid request, up to spacing and the spelling of the size, and its canonical form parses to the same request |
| `Requests.TempNameInjective` | src/server.cpp:366-369 | temporary names agree only if both the descriptor and the sequence number do |
| `Storage.PublishTemp` | src/server.cpp:313-318 | the rename is one atomic change of the visible store at one name, and disturbs no file that is being read and no other upload |
| `Storage.TruncateTemp` | src/server.cpp:370 | opening the temporary file changes nothing that requests can see |
| `Storage.AppendTemp` | src/server.cpp:433 | writing to the temporary file changes nothing that requests can see |
| `Storage.RemoveTemp` | src/server.cpp:251-257 | removing it changes nothing that requests can see |
| `Connection.FlushConserves` | src/server.cpp:282-304 | whatever the sends answer, bytes sent and bytes left make up the same text, and the line counts as drained exactly when nothing is left |
| `ServerClient.Client.RemoveTemporaryFile` | src/server.cpp:251-257 | object update equal to the model |
| `ServerClient.Client.Close` | src/server.cpp:259-267 | closes both streams, removes the temporary file and marks the descriptor; says nothing more |
| `ServerClient.Client.Refuse` | src/server.cpp:269-276 | same, and queues one error line in place of what was pending |
| `ServerClient.Client.FlushPendingOutput` | src/server.cpp:282-304 | the flush loop is the recursive flush over the outcomes of its sends |
| `ServerClient.Client.Complete` | src/server.cpp:306-325 | close, rename, confirmation, with each failure turned into a storage-failure line |
| `ServerClient.Client.StartDownload` | src/server.cpp:330-361 | the checks of a download in their order, with the state that each failure leaves |
| `ServerClient.Client.StartUpload` | src/server.cpp:363-379 | numbers and opens the temporary file and queues `READY` |
| `ServerClient.Client.Start` | src/server.cpp:327-380 | dispatch on the operation |
| `ServerClient.Client.HandleRequestReadable` | src/server.cpp:382-422 | one receive with repeats for interrupted calls, and all exits of the loop; what each of them leads to is said in `Outcomes` |
| `ServerClient.Client.HandleUploadReadable` | src/server.cpp:424-460 | one receive with repeats for interrupted calls: clipped write, excess, completion, and giving up when the peer has gone; what each of them leads to is said in `Outcomes` |
| `ServerClient.Client.FillBuffer` | src/server.cpp:463-478 | reads the next part of the file into the array, at most what is still expected |
| `ServerClient.Client.SendBuffered` | src/server.cpp:480-496 | one send from the array |
| `ServerClient.Client.HandleFileWritable` | src/server.cpp:462-497 | refill and send together |
| `ServerClient.Client.HandleWritable` | src/server.cpp:499-537 | the state switch of a writable event |
| `ServerClient.Client.HandleEvent` | src/server.cpp:554-578 | one poll event: error bits, reading, writing, hang-up |
| `ConnectionProofs.DispatchKeeps` | src/server.cpp:554-578 | one event with any outcomes, and the closing that may follow, keeps the invariant of the connection, leaves all frozen files and all other temporary files alone, keeps the store equal to its history, and commits at most its own payload |
| `ConnectionProofs.OthersKeep` | src/server.cpp:306-380 | what one connection does to the shared state never disturbs the invariant of another |
| `ConnectionProofs.CloseKeeps` | src/server.cpp:259-267 | closing never changes what was said or stored |
| `ConnectionProofs.ServesVisible` | src/server.cpp:339-359 | a download takes a file that no unfinished upload can write to, with the contents that the visible store has at that moment |
| `Transcript.DispatchHeard` | src/server.cpp:382-460 | request and payload are what splitting all received bytes at the first newline gives, and each error line names its cause: in those bytes, in a file operation that failed, or in a name that was not in the root when the request was handled |
| `Grounds.NamesStay` | src/server.cpp:313-318 | a name that is in the store stays there, whatever is committed later |
| `Grounds.DispatchRemembers` | src/server.cpp:382-460 | in every event: a request is accepted once, and what is remembered with it is whether its name was there, and the length of the history, at that moment |
| `Grounds.StaysGrounded` | src/server.cpp:330-361 | so a download is marked as missing if and only if the store did not have its name when the request was handled |
| `System.NextGood` | src/server.cpp:580-608 | accepting, handling and dropping keep the invariant of the whole system, for any number of connections |
| `System.DescriptorsStayDistinct` | src/server.cpp:580-598 | in every run no two live connections share a descriptor, although numbers are reused |
| `Linearizability.StoreIsAtomic` | src/server.cpp:306-325 | in every run the visible store is the initial one with the commits replayed; an event changes it by at most one commit, which is the whole declared payload of the upload that the event belongs to |
| `Linearizability.DownloadsAreStable` | src/server.cpp:339-359 | a download keeps reading the contents that its name had at one point of the history, whatever is committed later |
| `Linearizability.EveryConnectionSpeaks` | src/server.cpp:269-325 | the output language: nothing, `OK n` and a prefix of one version, `READY` and then `OK n` only after the commit, or one error line with its cause, alone or after `READY`; `not-found` means that the store did not have the name when the request was handled, or that the lookup failed |
| `Linearizability.WindowTracksFile` | src/server.cpp:462-497 | bytes sent, the window and the reader position are consecutive parts of the file, and the position never passes its end |
| `Linearizability.UploadsAccumulate` | src/server.cpp:424-460 | the temporary file of an unfinished upload holds exactly the payload received so far, within the declared size, and belongs to nobody else |
| `Linearizability.TempsConserved` | src/server.cpp:363-370 | temporary files present are exactly those of live unfinished uploads, besides those that were there at the start |
| `Linearizability.NothingLeftBehind` | src/server.cpp:721-723 | after all connections are closed no temporary file of the server is left |
| `Outcomes.BrokenOff` | src/server.cpp:411-420 | when the peer has gone or its socket has failed, at the first receive that is not interrupted, a connection that waits for its request or its payload is closed, its temporary file is removed, nothing is committed, heard or said |
| `Outcomes.ReadingClosesIff` | src/server.cpp:382-460 | and these are the only reasons for which reading closes a connection |
| `Outcomes.NothingReceived` | src/server.cpp:414-419 | nothing to receive, after any number of interruptions, changes nothing |
| `Outcomes.LineGoesOn` | src/server.cpp:390-395 | a line that has not ended is kept up to 4096 bytes and refused from 4097 on |
| `Outcomes.BadLine` | src/server.cpp:397-400 | a line of more than 4096 bytes, or with something after it, is refused, whatever it says |
| `Outcomes.RejectedLine` | src/server.cpp:402-408 | a complete line that is no request gets the reason of the parser, and nothing of it stays in the buffer |
| `Outcomes.AcceptedLine` | src/server.cpp:327-380 | the answers to a request, each with the whole state that it leaves: for a download in the order of its checks, for an upload with its number and its temporary file |
| `Outcomes.PayloadEvent` | src/server.cpp:424-448 | the answers to more payload: failed write, excess, completion with each of its failures, or going on; each with the whole state and root that it leaves |
| `Outcomes.FlushExactly` | src/server.cpp:282-304 | a flush sends as many bytes as the calls accept in all, up to the first that accepts none, and ends as that call says |
| `Outcomes.WriteLineEvent` | src/server.cpp:499-537 | what a writable event makes of a control line, for any answers of the calls: the state that follows, or the end |
| `Outcomes.WriteFileEvent` | src/server.cpp:462-497 | what a writable event makes of a download: a window that is used up is replaced by the next part of the file, at most 65536 bytes, and as much of it as one call accepts is sent |
| `Outcomes.FailedSocket` | src/server.cpp:555-557 | a failed socket closes the connection, whatever else is reported |
| `Outcomes.HungUpAskedFor` | src/server.cpp:576-577 | a peer that has hung up is not waited for |
| `Outcomes.HungUpWhileSending` | src/server.cpp:569-577 | a hang-up counts as writable while there is something to say, and as the end when input is wanted next |
| `Endings.BrokenOffForGood` | src/server.cpp:411-420 | in every run an upload that is broken off commits nothing, its connection stays closed, and its temporary file is gone for good, whatever happens later |
| `Endings.TempNeverReturns` | src/server.cpp:313-318 | the temporary name of an upload that is over, in whatever way, never appears in the root again |
| `Endings.StaysClosed` | src/server.cpp:706-713 | a closed connection is never heard of again |
| `Endings.NextDropped` | src/server.cpp:672-676 | a connection that is dropped from outside is closed in the same way as one that has broken off |
| `Polling.HandlesExactly` | src/server.cpp:700-709 | the connections for which any of the four bits was reported are handled, each one once, in order and with its own answer, and no others are |
| `Polling.DropsExactly` | src/server.cpp:672-676 | the marked connections are dropped, each one once and in order, and no others are |
| `Polling.AcceptsExactly` | src/server.cpp:580-608 | of the calls before the first that would block or fails, those that give a usable connection are taken in order, as many as there are places below 256; each gets the least descriptor that is free, different from all others |
| `Polling.PassExactly` | src/server.cpp:670-719 | so one pass is: the drops of the marked, the events of the reported among those left, and then, if the listener was ready, the accepts; only the drops if poll gave no answers |
| `Polling.ServeExactly` | src/server.cpp:670-724 | the loop goes on after a poll that was interrupted or timed out, ends after the first one that fails, and then drops what is left |
| `Polling.FinalExactly` | src/server.cpp:721-723 | each connection that is left, once and in order |
| `Requested.RequestsMatchHandlers` | src/server.cpp:539-552 | input is asked for exactly while a request or payload is awaited, and output in all other states |
| `Requested.ReadableIgnored` | src/server.cpp:559-563 | while output is asked for, a readable socket changes nothing |
| `Requested.ReadsThenRest` | src/server.cpp:554-578 | an event is its reading followed by the rest of it |
| `Requested.WritableIgnored` | src/server.cpp:554-578 | while input is asked for and nothing is read, a writable socket changes nothing |
| `Requested.UnrequestedIff` | src/server.cpp:554-578 | the exact condition under which it makes no difference that a socket is reported writable besides readable although only input was asked for: the reading closes the connection or still waits for input, the peer has hung up, or no call takes or ends anything |
| `Requested.UnrequestedCounts` | src/server.cpp:554-578 | an event for which it does make a difference |
| `EventLoop.Server.HandleAt` | src/server.cpp:706-708 | one event for the object in place i: the history grows by that event, the other objects stay, and the descriptor either stays or is marked |
| `EventLoop.Server.DropMarked` | src/server.cpp:672-676 | idle connections are marked, in order, and no others |
| `EventLoop.Server.Compact` | src/server.cpp:677-680 | the survivors keep their order |
| `EventLoop.Server.BuildPoll` | src/server.cpp:682-687 | entry i + 1 describes connection i, and asks for input exactly while its request or its payload is awaited and for output in all other states |
| `EventLoop.Server.HandlePolled` | src/server.cpp:700-713 | services of the polled connections in order, then compaction: the state is that of the machine after exactly these events |
| `EventLoop.Server.Service` | src/server.cpp:700-718 | after that, and only if the listener was ready, accepts, by room and free descriptors as they are after compaction |
| `EventLoop.Server.DispatchAll` | src/server.cpp:700-709 | handles the connections of `Handles`, which `Polling.HandlesExactly` determines, and every entry still describes its connection while it is handled |
| `EventLoop.Server.AcceptConnections` | src/server.cpp:580-608 | admits the connections of `Admitted`, which `Polling.AcceptsExactly` determines, with room for 256 |
| `EventLoop.Server.Pass` | src/server.cpp:670-719 | one pass adds exactly: drops of the idle, services of the polled in order, and the accepts that room and descriptors then allow; the state is that of the machine after these events |
| `EventLoop.Server.Serve` | src/server.cpp:670-724 | the history is that of the passes in order, until polling fails or the signal comes, and then one drop for each connection left, and no connection is left open |
| `EventLoop.Server.DescriptorsDistinct` | src/server.cpp:580-598 | the descriptors in the vector are distinct |
| `EventLoop.Server.ShutdownIsClean` | src/server.cpp:721-723 | after the loop no temporary file is left that was not there at the start |
| `Lifecycle.EventsDescend` | src/server.cpp:499-578 | every event with any outcomes leaves the connection exactly as it is or strictly decreases a measure of phase and bytes left |
| `Lifecycle.NeverAgain` | src/server.cpp:382-422 | in every run a connection never returns to an earlier state, and keeps the one request that it has |
| `Lifecycle.EventIsModest` | src/server.cpp:554-578 | one event receives at most 64 KiB and moves at most 64 KiB of payload; the request buffer stays within 4096 bytes while asking, and one chunk more at the end |
| `Lifecycle.SplitsDoNotMatter` | src/server.cpp:382-410 | a request line that fits has the same outcome in any split as in one piece |
| `Lifecycle.LongLinesRefused` | src/server.cpp:390-399 | a longer line is refused in every split |
| `Lifecycle.LongLineReply` | src/server.cpp:382-410 | the exact reply for every split: `bad-request` if all but the last piece are at most 4096 bytes, `request-too-long` otherwise |
| `Lifecycle.SplitsAgreeIff` | src/server.cpp:382-410 | all splits of a line get the same reply if and only if it has at most 4096 bytes, or at least 4096 + 65536 |
| `Lifecycle.ReasonDependsOnPieces` | src/server.cpp:390-399 | for every line in between, cuts after 4096 and after 4097 bytes get different reasons |
| `Lifecycle.PayloadSplitsDoNotMatter` | src/server.cpp:424-460 | exactly the declared bytes, in any split, with working storage, are committed once and whole by the last piece |
| `Fairness.EveryBufferBounded` | src/server.cpp:382-400 | the bounds of the request buffer, in every run |
| `Fairness.RunTotal` | src/server.cpp:499-578 | the payload moved never decreases, and grows by at most 64 KiB for each event that is handled |
| `Fairness.FairShare` | src/server.cpp:670-719 | for two consecutive passes of a server: from the service of a connection in one to its service in the next, all others together move at most 64 KiB for each of them, so at most 255 buffers |
| `Fairness.NextFront` | src/server.cpp:677-680 | who stands in front of a connection in the next pass stood in front of it in this one |
| `TempNames.TempNameIsSafe` | src/server.cpp:128-143 | every temporary name is a safe file name, so a request can use it |
| `TempNames.StolenUpload` | src/server.cpp:313-323 | so there is a run in which an upload is confirmed while the bytes of another one are stored under its name |
| `TempNames.DirtyRead` | src/server.cpp:330-361 | and a run in which a download is answered with a byte of an unfinished upload, which was never committed |
| `TempNames.ClosingRemovesCommit` | src/server.cpp:251-267 | and after a commit under the temporary name of another upload, closing that one removes what was committed |
| `SafeEvents.HarmlessIffGuarded` | src/server.cpp:327-460 | the exact condition, with no hypothesis on names, for every handler call from every state in which all unfinished uploads own their files: order is kept, everything stored and open stays but for one commit of the own payload, and a download that begins serves what is stored, if and only if a commit is not made under the temporary name of another upload, a temporary file is not opened where something is stored, and a download is not of an unfinished upload |
| `SafeEvents.CallsMakeTheEvent` | src/server.cpp:554-578 | a poll event is the sequence of its handler calls |
| `SafeEvents.EventHarmlessIffGuarded` | src/server.cpp:554-608 | the same for whole events: no call does harm if and only if each meets its guard, and then the store is again what the history says |
| `SafeEvents.RunHarmlessIffGuarded` | src/server.cpp:670-724 | and for whole runs: with all guards met, what is stored under names that are not of unfinished uploads is the initial root with the commits replayed |
| `SafeEvents.CleanRunsAreGuarded` | src/server.cpp:128-143 | when nobody asks for a temporary name and the root has none at the start, all guards are met |
| `Peer.EveryPeerRunIsGood` | src/client.cpp:290-416 | in every run of the client machine: request, then payload in order and only after `READY`; the file is the part of the stream after the header; success only with everything sent and the right size confirmed |
| `Peer.SendsInOrder` | src/client.cpp:351-399 | in every state what was sent is a prefix of request and payload, with no payload before `READY` |
| `ClientProgram.SendAll` | src/client.cpp:188-203 | sends all bytes across short sends and interruptions, or gives up, and says which calls are left; `Receipts.SentIff` says when |
| `Receipts.SentIff` | src/client.cpp:188-203 | a text is sent exactly when some calls in a row, none of which fails, accept so many bytes |
| `Receipts.FileTaken` | src/client.cpp:384-403 | a file that can be read is sent in whole by calls each of which takes something, if there are enough of them |
| `Receipts.ShortReadBreaks` | src/client.cpp:384-403 | a read that comes short of 65536 bytes before the end breaks the upload |
| `Receipts.FlowExactly` | src/client.cpp:221-231 | what arrives is what the receives deliver before the first that is neither data nor an interruption |
| `Receipts.LineFoundIff` | src/client.cpp:209-234 | the reader finds a line exactly when a receive brings one while no more than 4096 bytes without one have piled up |
| `ClientProgram.AdvanceTwice` | src/client.cpp:188-203 | sending in pieces comes to the same as sending at once |
| `ClientProgram.BufferedSocketReader.ReadLine` | src/client.cpp:209-234 | returns the first line of buffered and unread bytes together, keeps the rest; it finds every line of at most 4096 bytes in any split, and none of 4096 + 65536 or more |
| `ClientProgram.FoundAlikeIff` | src/client.cpp:209-234 | whether a line is found is the same for all that single receives may deliver, and whatever follows it, if and only if it has at most 4096 bytes, or at least 4096 + 65536 |
| `ClientProgram.BufferedSocketReader.CopyExactly` | src/client.cpp:236-266 | writes exactly the next bytes of the stream, and succeeds if and only if there are enough of them and the file has room |
| `ClientProgram.ResponseIsError` | src/client.cpp:273-279 | decides exactly the lines that begin with `ERR ` |
| `ClientProgram.ParseOkSize` | src/client.cpp:281-288 | reads the size of an `OK` line, and fails on every other line |
| `ClientProgram.GetHeader` | src/client.cpp:296-331 | response line, size and local checks: it succeeds exactly when all of them do; an existing destination or temporary file stops it and stays |
| `ClientProgram.RunGet` | src/client.cpp:290-349 | follows the machine to its end; on success the destination is the payload of the stream, otherwise it is as before, and no temporary file is left or changed; it succeeds if and only if the request can be sent, the header is found, all that it announces follows, and the local file can be written |
| `ClientProgram.SendFile` | src/client.cpp:384-403 | the reading loop sends the whole file, read by read, or gives up exactly when a read comes short or a send fails |
| `ClientProgram.RunPut` | src/client.cpp:351-416 | follows the machine to its end, or sends nothing when the file cannot be used; success only after request and whole file have been sent and the size has been confirmed, and always when they can be sent and the confirming line fits |
| `ClientProgram.ProgramIsGood` | src/client.cpp:290-416 | the machine that the program follows keeps its invariant |
| `Net.EveryNetRunIsGood` | src/client.cpp:188-266 | over channels that split and merge at will: what one side has received and what is on its way is exactly what the other has sent |
| `EndToEnd.EndToEndDownload` | src/client.cpp:290-349 | a download that reports success wrote exactly the contents that the store had under the name at some moment between its acceptance and its end, in every run with any number of other connections |
| `EndToEnd.DownloadPoint` | src/server.cpp:339-359 | that moment is the point at which its file was opened, which lies between the two |
| `EndToEnd.EndToEndUpload` | src/client.cpp:351-416 | an upload that reports success was committed: the local bytes, under the remote name |
| `EndToEnd.CommitPrecedesOk` | src/server.cpp:313-323 | the commit comes before the first byte of the line that confirms it |
| `EndToEnd.FramingNeverFails` | src/client.cpp:369-399 | a client that follows the protocol is refused only after its request was understood: an upload because of a file operation that failed, a download because the store did not have the name when the request was handled or because a lookup, open or measurement failed |
| `EndToEnd.HearsRequest` | src/server.cpp:382-409 | once the server has a line it is the request that the client meant, and what follows is its payload |
| `EndToEnd.LastCommitWins` | src/server.cpp:313-318 | the last commit under a name decides what the store holds there |
| `EndToEnd.PutThenGet` | src/client.cpp:290-416 | upload and then download under the same name is the identity on bytes, if nobody commits there in between |
| `RealTime.RealTimeOrder` | src/server.cpp:306-361 | of two transfers of which one was completed before the other was accepted, the first takes effect first |
| `RealTime.CommitsDiffer` | src/server.cpp:306-325 | two completed uploads are two different commits |
| `RealTime.RunsAreLinearized` | src/server.cpp:306-361 | linearizability, in every run with any number of clients: each completed upload is a commit of its own, each completed download reads what the commits before its point have left, and these moments respect the order of transfers that do not overlap |
| `Progress.NoDeadlock` | src/server.cpp:499-552 | with nothing failed and the client not at its end, one side can act, even over channels of one byte |
| `Progress.ServerListens` | src/server.cpp:539-552 | while the client sends, the server reads |
| `Progress.FinishedAnswers` | src/server.cpp:499-537 | a connection that has closed in good order has answered everything its client waits for |
| `Completion.PeerDescends` | src/client.cpp:290-416 | every step of the client with any outcomes leaves it as it is or strictly decreases a measure of phase and bytes left |
| `Completion.DispatchWell` | src/server.cpp:554-578 | an event in which nothing fails refuses no upload and no download of a name that is there, and closes only what has been said completely |
| `Completion.ClientWell` | src/client.cpp:290-416 | as long as the server has not refused, every line the client acts on is the one it expects |
| `Termination.EveryStepCloser` | src/server.cpp:499-578 | each step of either program, with any outcomes, leaves both ends as they are or brings them closer in the lexicographic order of phases and bytes left |
| `Termination.NeverStuck` | src/server.cpp:499-552 | from every state before the end there is a possible step that changes something and respects channels of any capacity |
| `Termination.Finishes` | src/client.cpp:290-416 | from every such state productive steps lead to the end, which is success unless the name of a download was missing when its request was handled |
| `Termination.RefusedIffMissing` | src/server.cpp:330-361 | while nothing fails a download is refused if and only if the store did not have its name when the request was handled |
| `Termination.DownloadSucceeds` | src/client.cpp:290-349 | a download of a name that was in the store when it was accepted, for which nothing has failed so far, can always be completed, and then the client has a version that was current at some moment of the transfer, whatever other connections do |
| `Termination.UploadSucceeds` | src/client.cpp:351-416 | an upload for which nothing has failed so far can always be completed, and then it is confirmed and committed, whatever other connections do |
| `Termination.FaultFreeRunsProgress` | src/server.cpp:554-578 | every run in which nothing fails on a connection stays among those states, whatever happens on the others |
| `Termination.StartsHealthy` | src/server.cpp:592-597 | and so does every freshly accepted transfer |
| `Settling.Settles` | src/server.cpp:499-578 | no infinite sequence of events, with faults or without, changes a transfer infinitely often |
| `Settling.AlwaysEnabled` | src/server.cpp:499-552 | in every infinite run in which nothing fails for it, a transfer has a productive step to take as long as it has not concluded |
| `Settling.FairRunsConclude` | src/server.cpp:670-719 | such a transfer concludes in every run that is fair to it: when a productive step can be taken, one is taken some time later |

## Left out

- Address lookup, sockets, binding, listening, `fcntl`, signals: calls into the system without logic of their own.
- Command lines, usage texts, console messages and exit codes.
- Clocks: an idle timeout is a connection being closed from outside at any time; delays are not modelled.
- Symbolic links, directories, permissions and other programs that write to the storage root.
- The buffering of C++ streams: a write appends all its bytes or none, and a read delivers any prefix of what was wanted.
- A file that was opened keeps its size: nobody but the server writes to the root, so `seekg` and `tellg` agree with it.
- Failure of `remove`: a temporary file is always removed when the server wants to.
- The wrap-around of the 64-bit upload counter: it needs 2^64 uploads.
- The poll timeout of one second, and `POLLNVAL`, which is treated like `POLLERR`.
- Bytes that arrive after a complete request or payload in a later receive: they stay unread in the socket.
- `legacy/`, which is not built, the build files and the shell test.
- Linearizability.StoreIsAtomic: like all results about runs but those of `SafeEvents`, supposes that no accepted request has the form of a temporary name; see `TempNames.StolenUpload` and `TempNames.DirtyRead` for why.
- Linearizability.TempsConserved: speaks of names that were not already in the root when the server started, because the server never looks for leftovers of earlier runs.
- Settling.FairRunsConclude: that a real scheduler is fair to a transfer is a hypothesis; `Fairness` bounds what the loop does between two services.
- Fairness.FairShare: bounds payload; control lines, which are at most one short line in each event, are not counted.
- ClientProgram.BufferedSocketReader.ReadLine: promises success for lines of at most 4096 bytes, and failure from 4096 + 65536 bytes on; in between it is said only in terms of the receives (`LineFound`), because it depends on them.
- ClientProgram.SendFile: the local file does not change while it is read.
