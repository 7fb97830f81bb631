# Replicated file synchronisation: verified model

The repository is a file synchroniser. Clients keep a directory per user in step with a server over a
small binary protocol. One server is the primary and the others are backups; all of them keep a list of
the servers (the "metadata"). When the primary fails, the backups elect a new one on the ring given by
that list, and a DNS process tells clients where the primary is.

This project models that behaviour in Dafny and proves what it is relied on for:

- **Election and failover** (`Servers`, `ElectionServer`, `Ring`, `RingSafety`, `TokenCount`, `Failover`,
  `FailoverRuns`, `LateTokens`). `ElectionServer` holds one server's handlers, as a class over its list;
  `Ring` puts any number of them together with messages in flight that arrive in any order or are lost.
- **Joining** (`Coms`, `Membership`, `JoinOrder`, `ComsThreads`, `Lifecycle`): the requests between servers, the
  join sequence as a state machine, the one thread in which a server answers the others, and the step from a
  settled cluster to a failover.
- **The wire** (`Wire`, `Streams`, `Packets`, `Protocol`, `Session`, `Storage`, `Handler`): bytes, the buffered
  reader and writer, the packets, both protocol halves, sessions of requests and replies, and what they say
  about files that all connections of a user change.
- **The client's machinery** (`AsyncQueue`, `QueueThreads`, `Tasks`, `SyncState`) and the server's
  **registry of clients** (`Registry`).
- **Synchronisation** (`Replicas`): one user's server directory and any number of clients, from the user's edit
  to the other clients' files.

Code that changes state step by step is a class or a method with loops, proved against functions on
values; a protocol between threads or processes is a function from a state and an action to the next
state, and its theorems speak of every sequence of enabled actions. What the code takes from outside
(what a `send` returns, how the network cuts a stream, whether a file can be written, when a server is
suspected) is a parameter or a free choice.

Where the code does not do what one would expect, the model follows the code and a lemma shows it:

- a token that reaches an elected server ends it (`LateTokenStopsLeader`, `TwoInitiatorsCanLoseTheLeader`), and
  failover succeeds exactly when one survivor starts an election (`FailsOverIff`);
- a winner that was ever told of a registration answers one fetch only and then waits for itself, so that with
  three or more survivors the election hangs unless the greatest of them joined last
  (`FinishesIff`, `WinnerStaysAway`, `JoinedClusterFinishesIff`, `JoinOrderDecides`);
- a backup that fails to follow a change makes the server send one reply too many, and the client stays
  behind from then on (`InStepThroughoutIff`, `RepliesLag`, `FailedBackupMisleads`);
- asking a server that lists no primary for the primary crashes it (`AskingCrashesIff`);
- a server whose registration breaks off stays listed, and the others are not told: the last to have joined keeps
  an old list (`BrokenAnnouncementLeavesBehind`, `MissedIffBroken`);
- a connection that breaks inside a delete packet deletes the file named before; `CutRequestHarmsIff` says exactly
  when a broken connection does harm;
- a file is changed before the event is broadcast, so that another connection's change can be told of first, and
  the last event says the opposite of what the server has (`NamesAreReportedIff`, `OvertakenEventMisleads`);
- a user who connects while a client with a failed socket is still registered brings the server down: the index
  of the purge wraps round below zero (`CanConnect`, `Purge`, `BrokenSocketStopsServer`);
- a refused listing is reported as a success (`ReportIsTrueIff`, `ReportsAreTrueIff`);
- a transfer that fails is not tried again (`LostUploadDiverges`, `LostDownloadDiverges`);
- the file watcher pads names with NULs and the network does not, so every written download is uploaded again,
  and a download can be dropped (`NeverEchoesIff`, `DropsOnlyKnownIff`); without the padding a download that
  cannot be written can cause an upload nobody asked for (`FailedWriteBreaksIff`);
- for the same reason a client with nothing left to do can hold another version of a file than the server
  (`PaddedNameDiverges`); `RestingClientsIff` says exactly when.

`dafny verify dfyconfig.toml` checks the whole project.

## Model

| member | source | states |
|---|---|---|
| Servers.GreaterIsStrictTotalOrder | server/src/election.cpp:36-40 | the order on (ip, port) that decides elections is a strict total order |
| Servers.GreaterIff | server/src/election.cpp:36-40 | who wins a comparison, in numbers: the greater ip, and among equal ips the greater port |
| Servers.TransferIsIdentityIff | server/src/coms.cpp:165-187 | a list survives a fetch unchanged exactly when it has at most one primary |
| Servers.WithoutMembers | server/src/election.cpp:52-62 | dropping the failed primary keeps exactly the other entries, and shortens the list exactly when it was listed |
| Servers.WithoutPrimaryIsBackups | server/src/election.cpp:391-400 | with one primary listed, dropping primaries on a token and dropping the failed server on suspicion give the same list |
| Servers.PromoteIff | server/src/election.cpp:251-262 | exactly the first own entry becomes primary |
| ElectionServer.ElectionServer.constructor | server/src/state.cpp:7-16 | a server starts with a list of itself alone |
| ElectionServer.ElectionServer.GetNextServer | server/src/election.cpp:78-111 | the entry after the first one for the server, modulo the length; nothing exactly when it is not listed, where the process exits |
| ElectionServer.ElectionServer.InitiateElection | server/src/election.cpp:46-73 | a primary, or a server whose list lacks the failed one, does nothing; any other drops it and sends its own identity to its successor |
| ElectionServer.ElectionServer.SetElected | server/src/election.cpp:251-305 | the server and its first entry become primary and nothing else changes; its own endpoint goes to the DNS, or the process exits when the DNS cannot be told |
| ElectionServer.ElectionServer.HandleElection | server/src/election.cpp:388-414 | primaries are dropped; then the server elects itself on its own identity, exiting if the DNS cannot be told, or forwards the greater of the two |
| ElectionServer.ElectionServer.UpdateElected | server/src/election.cpp:310-377 | the fetched list replaces the old one, and a failed fetch leaves it |
| ElectionServer.ElectionServer.HandleElected | server/src/election.cpp:419-428 | the winner stops the notice; every other server takes the winner's list and passes the notice on |
| ElectionServer.SuspicionFate | server/src/election.cpp:46-73 | exactly when a suspicion does nothing (at a primary, or when the suspected server is not listed), ends the process, or starts an election |
| ElectionServer.NoticeFate | server/src/election.cpp:310-428 | the winner drops a notice; any other server takes the list fetched, or keeps its own, and passes the notice to the entry after its own, or exits if it has none |
| ElectionServer.ElectedServerExitsOnToken | server/src/election.cpp:391-404 | a token ends a server exactly when all entries for itself in its list are marked primary |
| RingSafety.TokenStep | server/src/election.cpp:405-413 | a delivered token elects its target only if that is the greatest of the ring, and else goes on with an identity at least as great as all those passed |
| RingSafety.HighestIff | server/src/election.cpp:36-40 | the greatest of a ring is the listed server with the greatest ip and, among those with that ip, the greatest port |
| RingSafety.StepIsSafe | server/src/election.cpp:388-428 | every step, suspicion, delivery or loss, keeps: each token is at least every identity on the ring arc from its owner to its target |
| RingSafety.FirstElectedIsHighest | server/src/election.cpp:388-414 | with any number of initiators, any delivery order and any losses, the first server elected is the survivor with the greatest ip and, among those, the greatest port; until then nobody has exited and the DNS is unchanged |
| TokenCount.TokenFate | server/src/election.cpp:388-414 | in any state, a token delivered is sent on as exactly one token, elects its target, or ends it |
| TokenCount.TokenPassedOn | server/src/election.cpp:405-413 | before the first election, a delivery that elects nobody replaces one token by exactly one |
| TokenCount.TokensAreConserved | server/src/election.cpp:49-63 | no survivor starts two elections for one crash; tokens never outnumber the survivors that started one, and until somebody is elected those in flight and those lost are exactly that many |
| TokenCount.MessagesAreConserved | server/src/election.cpp:388-428 | in any run from any state every message sent is in flight, was delivered or was lost |
| Failover.TokenComesHome | server/src/election.cpp:409-413 | the identity a single token carries after any number of hops is the greatest from the starter on, and it meets its owner after n + d hops and not before |
| FailoverRuns.FailoverCompletes | server/src/election.cpp:251-305 | one initiator, no losses, nothing left in flight: all survivors hold the old list without the failed primary, in order, with the survivor of greatest ip and port as only primary, and the DNS names it |
| FailoverRuns.ElectionTerminates | server/src/election.cpp:388-428 | a one-initiator run takes at most 2n + d deliveries and has nothing in flight exactly after that many, with n + d election and n elected messages sent, at most 3n - 1 in all, and n - 1 fetches made |
| FailoverRuns.ElectionProgresses | server/src/election.cpp:388-428 | no one-initiator run gets stuck: something is in flight exactly when some message can be delivered |
| FailoverRuns.ElectionCanFinish | server/src/election.cpp:388-428 | every one-initiator run, wherever it stands, can be carried on until nothing is in flight |
| FailoverRuns.EveryStarterHasARun | server/src/election.cpp:46-73 | whichever survivor notices the crash, there is a one-initiator run to the end |
| FailoverRuns.FailsOverIff | server/src/election.cpp:388-428 | exactly when failover succeeds: a lossless run with nothing left in flight has failed over if and only if exactly one survivor started an election |
| FailoverRuns.ViewsNeverSplit | server/src/election.cpp:362-371 | at no moment does one survivor list the failed primary while another lists a new one; once someone is elected nobody lists the failed one |
| LateTokens.LateTokenStopsLeader | server/src/election.cpp:394-404 | in every run with one winner so far, any further token delivered to it ends it |
| LateTokens.TwoInitiatorsCanLoseTheLeader | server/src/election.cpp:388-414 | a lossless run with two initiators after which the elected server has exited while the DNS names it |
| Coms.RequestRoundTrip | server/src/coms.cpp:96-113 | every request code is read back as the request, whatever follows |
| Coms.RequestBytes | server/src/coms.cpp:96-113 | the five requests, byte by byte |
| Coms.MetadataLayout | server/src/coms.cpp:165-187 | the list on the wire, field by field, lowest byte first |
| Coms.RefusedList | server/src/coms.cpp:118-148 | a reply with another status than zero carries no list and no primary |
| Coms.MetadataRoundTrip | server/src/coms.cpp:118-131 | decoding an encoded list of any length gives it with only its first primary; the identity exactly when it has at most one, none included |
| Coms.JoinDialogue | server/src/coms.cpp:197-230 | hello, register and fetch on one connection: the newcomer is appended, every other listed backup and nobody else is told, and what the newcomer decodes is the grown list |
| Coms.AskingCrashesIff | server/src/coms.cpp:232-241 | asking for the primary crashes exactly the servers that list none |
| Coms.UnknownIsRefused | server/src/coms.cpp:158-263 | a request of unknown kind is answered with status 10 and the connection dropped; without even a kind nothing is sent |
| Coms.PrimaryIsTold | server/src/coms.cpp:141-148 | the asking side decodes the one primary the server lists |
| Coms.OthersIff | server/src/coms.cpp:216-228 | the servers told of a registration are the listed backups except the newcomer |
| Coms.OthersInOrder | server/src/coms.cpp:216-228 | and in the order of the list |
| Coms.WriteMetadata | server/src/coms.cpp:168-184 | the loops write exactly the encoded list, or a prefix of it when a send fails |
| Coms.ReadMetadata | server/src/coms.cpp:118-131 | the loop decodes exactly what the parser does, for every cut of the stream |
| Coms.DeferredUpdatesFetchLast | server/src/coms.cpp:596-636 | while the lists name one primary first, wherever it stands in them, any number of deferred updates never crash and leave the list the last successful one fetched |
| Coms.ComsServer.ProcessDeferred | server/src/coms.cpp:596-636 | one turn for each deferred request, each asking the first server then marked primary and taking what it sends; it crashes exactly when at some turn no primary is listed, and the requests stay deferred |
| Coms.ComsServer.Announce | server/src/coms.cpp:216-228 | the servers are told in list order up to the first that cannot be reached |
| Coms.ComsServer.Admit | server/src/coms.cpp:197-230 | a registration counts even when the reply or an announcement fails |
| Coms.ComsServer.HandleRequest | server/src/coms.cpp:158-263 | one request of any code: the list, the deferred count, the reply and the announcements are those of the specification |
| Membership.StepIsGood | server/src/main.cpp:171-248 | every step of every server keeps the membership invariant |
| Membership.AskIsGood | server/src/main.cpp:145-165 | a joining server that asks anyone who lists a primary learns the real one; asking another makes both exit |
| Membership.NotifyIsARequest | server/src/coms.cpp:243-261 | telling a server of a registration, over bytes: it acknowledges, and its list and count become those of the join step, one more deferred update |
| Membership.RegisterIsARequest | server/src/coms.cpp:197-230 | a registration, over bytes: the primary's list and the servers to be told are those of the join step |
| Membership.FetchIsARequest | server/src/coms.cpp:165-187 | a fetch, over bytes: what is decoded is the list of the join step |
| Membership.AskIsARequest | server/src/coms.cpp:232-241 | asking for the primary, over bytes: the server asked crashes exactly when the join step ends it, and else the primary decoded is the one of the join step |
| Membership.ListGrowsAtEnd | server/src/coms.cpp:201-205 | the primary's list only grows at its end |
| Membership.ViewsArePrefixes | server/src/coms.cpp:596-636 | after any interleaving of joins, broken connections and repeated deferred updates every joined server holds a prefix of the primary's list, led by the primary and containing itself, and lags only if it was told of a registration since its last fetch, and then has a deferred request to fetch, or is about to be told, or its connection broke |
| Membership.JoinersLearnThePrimary | server/src/main.cpp:145-165 | in every run no joining server is told of another primary |
| Membership.DeferredUpdatesCatchUp | server/src/coms.cpp:596-636 | reprocessing the never-cleared deferred requests, in any order, brings each told server up to date and changes nothing else |
| Membership.OnlyMissedStayBehind | server/src/coms.cpp:216-228 | after one round of the updates owed, only servers whose connection broke before they were told can be behind |
| Membership.SettledClusterIsElectionReady | server/src/main.cpp:171-248 | a settled cluster, servers that exited before they were listed aside, in which no endpoint booted twice has agreed views, distinct endpoints and one primary: what the election starts from |
| JoinOrder.DeferredIsLaterJoins | server/src/coms.cpp:216-261 | in a settled cluster each server has exactly one deferred request for every server that joined after it |
| JoinOrder.AnyJoinOrder | server/src/main.cpp:171-248 | any distinct servers can join in any order and settle |
| JoinOrder.MissedIffBroken | server/src/coms.cpp:216-228 | a server misses a registration exactly when the server that registers goes before it was told |
| JoinOrder.BrokenAnnouncementLeavesBehind | server/src/coms.cpp:197-230 | for any servers: when the connection of one that registers breaks before the others are told, the last to have joined keeps the list without it in every continuation in which nobody else registers |
| ComsThreads.SelfWaitIsForever | server/src/coms.cpp:595-660 | a thread that waits for an answer of its own server does so whatever anybody does, as long as the server runs |
| ComsThreads.DeferredFetchIsServed | server/src/coms.cpp:595-640 | a deferred request carried out with a primary that is free: the server has its list and goes on to the next, and the primary turns to its own |
| ComsThreads.FetchFromDeadPrimaryEnds | server/src/coms.cpp:595-640 | a server that was fetching from the primary when it crashed gives up, fails its other deferred requests and waits for connections again, with nothing else changed |
| ComsThreads.WinnerStaysAway | server/src/coms.cpp:595-660 | in every run with one starter and any interleaving, a winner with deferred requests that has once turned to them never accepts or serves another connection |
| ComsThreads.NoRunGetsStuck | server/src/election.cpp:388-428 | in a cluster with at most two survivors, or whose greatest has no deferred request, every run of the election and the threads with one starter, wherever it stands, can be carried on until nothing is in flight |
| ComsThreads.FinishesIff | server/src/coms.cpp:595-660 | some interleaving of the election and all these threads ends with nothing in flight if and only if at most two servers survive or the greatest has no deferred request |
| Lifecycle.JoinedClusterFailsOver | server/src/election.cpp:388-428 | joins in any order, then a crash and a lossless one-initiator election with nothing left in flight: all others hold the joined list without its head, with the greatest as primary |
| Lifecycle.JoinedClusterFinishesIff | server/src/coms.cpp:595-660 | joins in any order, then a crash: an election with one starter can be finished exactly when at most two servers survive or the greatest of them joined last |
| Lifecycle.JoinOrderDecides | server/src/coms.cpp:595-660 | for any servers, any order of joining and any starter: there is a run of joins that settles, and after it the election can be finished exactly under that condition |
| Wire.ValueAppend | server/src/reader.cpp:105-142 | one turn of the reading loop adds the byte above those read |
| Wire.OrIsAdd | server/src/reader.cpp:105-142 | the shift and bitwise OR of the reading loops is that addition, at every width |
| Wire.MaskIsModulo | server/src/writer.cpp:43-74 | the bitwise mask of the writing loops is the remainder |
| Wire.ShiftIsQuotient | server/src/writer.cpp:43-74 | the right shift of the writing loops is the quotient |
| Wire.ValueOfLow | server/src/writer.cpp:43-74 | the low bytes rebuild the value modulo the width |
| Wire.UintRoundTrip | server/src/reader.cpp:105-142 | an integer written low byte first is read back exactly, whatever follows |
| Wire.BytesRoundTrip | server/src/reader.cpp:186-206 | a byte array is read back unchanged |
| Wire.StringRoundTrip | server/src/writer.cpp:86-103 | a string is read back as its prefix before the first NUL, the whole exactly when it has none |
| Streams.TcpWriter.Flush | server/src/writer.cpp:15-31 | the buffer goes out and is emptied, or nothing changes |
| Streams.TcpWriter.WriteU8 | server/src/writer.cpp:33-41 | bytes sent and bytes buffered together are everything written, the buffer never holding more than 32 |
| Streams.TcpWriter.WriteUint | server/src/writer.cpp:43-74 | the loop of masks and shifts writes the low bytes in order, or a prefix of them when a send fails |
| Streams.TcpWriter.WriteBytes | server/src/writer.cpp:105-112 | the bytes, or a prefix when a send fails |
| Streams.TcpWriter.WriteByteArray | server/src/writer.cpp:114-125 | the length and the bytes, or a prefix |
| Streams.TcpWriter.WriteString | server/src/writer.cpp:86-103 | the length up to the first NUL and the characters before it, or a prefix |
| Streams.TcpReader.FillBuffer | server/src/reader.cpp:36-61 | the bytes still to be read are unchanged, whatever the buffers and the network do; failure means there are none |
| Streams.TcpReader.Peek | server/src/reader.cpp:77-83 | the first byte still to be read |
| Streams.TcpReader.Step | server/src/reader.cpp:85-91 | moves past exactly that byte |
| Streams.TcpReader.ReadU8 | server/src/reader.cpp:93-103 | takes the first byte of the stream, for every way of cutting it into reads of 1 to 32 bytes |
| Streams.TcpReader.ReadUint | server/src/reader.cpp:105-142 | the loop of shifts and ORs reads the integer of the next bytes, or fails exactly when there are too few |
| Streams.TcpReader.ReadBytes | server/src/reader.cpp:174-184 | takes exactly the next bytes |
| Streams.TcpReader.ReadString | server/src/reader.cpp:156-172 | takes a string off the stream; a missing length is reported as success with the old value |
| Streams.TcpReader.ReadByteArray | server/src/reader.cpp:186-206 | takes a byte array off the stream; a missing length goes unnoticed |
| Packets.HandshakeRoundTrip | server/src/protocol.cpp:29-47 | a handshake is read back with what follows untouched, and is refused as a later packet |
| Packets.PacketRoundTrip | server/src/protocol.cpp:49-82 | every other request likewise |
| Packets.ReceivedWhole | server/src/protocol.cpp:49-82 | what the server takes off a stream is the packet sent, whenever a whole one is there |
| Packets.RequestLayout | client/src/protocol.cpp:5-118 | every request, byte by byte: version, type and fields |
| Packets.ReplyLayout | server/src/protocol.cpp:84-264 | every reply, byte by byte: version, status and fields |
| Packets.FileLayout | server/src/protocol.cpp:190-235 | an entry of a listing: three times and the name |
| Packets.RejectedIff | client/src/protocol.cpp:38-276 | exactly which packets and replies are rejected: another version, a type that is not expected, an event of unknown kind |
| Packets.FlagIff | server/src/protocol.cpp:29-47 | a handshake comes from a primary exactly when its flag is one |
| Packets.CutReplyPassesIff | client/src/protocol.cpp:38-276 | exactly when a reply that is cut passes for a whole one, and for which: a download cut in its length, an event cut in the length of its name, a listing cut in the length of its last name |
| Packets.CutRequestTakesHeldName | server/src/protocol.cpp:49-82 | a request other than an upload that is cut is not received if cut within its header, and is else received as the same request for the name left over from the packet before |
| Packets.FilesRoundTrip | client/src/protocol.cpp:168-191 | a listing of any length is read back entry by entry |
| Packets.ReplyRoundTrip | client/src/protocol.cpp:38-74 | every reply the server may give is read back exactly, whatever follows |
| Packets.PacketsRoundTrip | server/src/protocol.cpp:49-82 | packets written back to back come apart as written, no byte left over |
| Packets.ConnectionRoundTrip | server/src/protocol.cpp:29-82 | a connection's bytes are the handshake and then exactly the packets |
| Protocol.SendRequest | client/src/protocol.cpp:5-36 | the request is encoded and flushed, or a prefix is left behind when a send fails |
| Protocol.SendReply | server/src/protocol.cpp:84-264 | the same for every reply |
| Protocol.ReceiveHandshake | server/src/protocol.cpp:29-47 | succeeds exactly on a whole handshake and decodes it, for every cut of the stream into reads |
| Protocol.ReceivePacket | server/src/protocol.cpp:49-82 | decodes what the specification says on any stream, also one that ends inside a packet, except for the contents of a cut upload |
| Protocol.ReceiveFiles | client/src/protocol.cpp:175-190 | the loop over the listing succeeds exactly when the parser does, on any stream, and decodes all entries |
| Protocol.ReceiveReply | client/src/protocol.cpp:141-194 | the receiving half of each request succeeds exactly when the parser does, on any stream, and decodes the same |
| Session.Rollbacks | server/src/server.cpp:137-142 | as many failure replies as backups did not report success, and nothing else |
| Session.RepliesRoundTrip | client/src/protocol.cpp:211-276 | replies of any kinds sent back to back come apart as sent, no byte left over |
| Session.ExchangeLeaves | server/src/server.cpp:89-240 | after one exchange the client has the first reply sent, and the others are still in the stream |
| Session.InStepIff | server/src/server.cpp:137-142 | both streams are consumed after an exchange exactly when every backup asked reported success, and then the client has the handler's answer |
| Session.SessionIsCalls | server/src/server.cpp:89-240 | without failing backups a session over byte streams equals remote procedure calls, for every script and whatever the user's other connections do meanwhile |
| Session.InStepThroughoutIff | server/src/server.cpp:187-192 | a session is in step after each exchange exactly when no exchange met a failing backup |
| Session.RepliesLag | server/src/server.cpp:113-145 | once replies are owed, a client that keeps changing files gets for each request the reply to an earlier one |
| Session.LagIs | server/src/server.cpp:113-145 | a client that uploads and deletes is behind by as many replies as backups did not follow its changes |
| Session.FailedBackupMisleads | server/src/server.cpp:137-142 | for every upload a backup refuses: it takes place and is reported failed, and a delete of an absent file after it is reported done |
| Storage.FilesFollowChanges | server/src/server.cpp:96-213 | over a session, with the user's other connections changing files at any moment, the files are those that all changes, own and foreign, in their order make of the files at first |
| Storage.EventsAreConserved | server/src/server.cpp:145-234 | over a session, events told and events still waiting are those that waited at first and those broadcast by all connections, one per own change reported as done, in order |
| Storage.AnswersAreExact | server/src/server.cpp:95-234 | the answer to every request after any script: when an upload, a deletion, a download, a listing succeeds, with which contents, and which event an update brings |
| Storage.ListingIsThePresentFiles | server/src/server.cpp:210-224 | a client in step decodes a listing exactly when the directory can be read, entry by entry, and its names are exactly those of the files present after all changes so far |
| Storage.NamesAreReportedIff | server/src/server.cpp:147-154 | the events, heard and still waiting, say truly whether the server has a file exactly when the last change of it and the last event about it agree |
| Storage.NamesAreReported | server/src/server.cpp:147-154 | they do whenever each change of the file was told of before the next one, whatever else the connections do |
| Storage.OvertakenEventMisleads | server/src/server.cpp:147-154 | otherwise they may not: for every file, an upload overtaken by a deletion leaves no file, and a last event that says it was modified |
| Storage.DownloadReturnsUpload | server/src/server.cpp:96-156 | a download returns what was uploaded under the name, if no connection touched it in between, whatever was done to other files |
| Storage.ToldIsTrue | server/src/server.cpp:96-213 | while no other connection of the user changes a file, a client can work out exactly which files the server has from its requests and the answers, and every file it downloads is the one it would expect |
| Session.WholePacketsFirst | server/src/server.cpp:89-240 | whole packets at the front of a stream are served as sent, whatever follows them |
| Session.PipeliningIsTheSame | server/src/server.cpp:89-240 | sending all requests first changes neither the files nor the replies, and leaves no byte unread |
| Session.CutRequestIsServed | server/src/server.cpp:89-209 | a stream that ends inside a request other than an upload is served as the packets before it and, beyond the header, as the same request for the name sent last |
| Session.CutRequestHarmsIff | server/src/server.cpp:161-209 | such a stream changes files, beyond what other connections do, exactly when the request is a delete cut after its header, the file call works, the file named last is there and nobody touches it again in that turn |
| Session.NothingAfterExit | server/src/server.cpp:89-240 | an exit ends the connection: no reply, and nothing after it is read |
| Session.LastNameIs | server/src/server.cpp:66-94 | the name left over is that of the last request that named a file |
| Session.ConnectionIsServed | server/src/server.cpp:35-57 | from its first byte a connection is one handshake, acknowledged or refused, and then fully served |
| Handler.ConnectToClient | server/src/server.cpp:35-57 | a proper handshake registers the client exactly when the registry admits it, and the reply says so, unless the registry starts to purge; anything else, a handshake cut short included, changes nothing |
| Handler.ClientHandler.FollowBackups | server/src/server.cpp:117-144 | the loop over the backups sends exactly those failure replies |
| Handler.ClientHandler.HandleRequest | server/src/server.cpp:95-234 | every request changes files and events as specified, with the user's other connections changing them before it and before its own broadcast, even when replies cannot be sent, and sends exactly the specified replies when they can |
| Handler.ClientHandler.Serve | server/src/server.cpp:89-240 | the loop sends exactly the specified replies and ends in the specified state, for every cut into reads and wherever the stream ends, except inside an upload; when a send fails it has served some first packets of the stream completely and no others |
| QueueThreads.StepKeepsAccount | client/include/async_queue.h:23-84 | every step keeps: the mutex is free or held by one thread, and tokens free, held and owed equal the entries |
| QueueThreads.MutualExclusion | client/include/async_queue.h:23-91 | two threads never hold the vector at once |
| QueueThreads.FrontExists | client/include/async_queue.h:40-50 | a thread about to take the front finds an entry |
| QueueThreads.TakeIsOldest | client/include/async_queue.h:52-84 | an entry taken with or without an id is the oldest it may be |
| QueueThreads.EveryRunIsSafe | client/include/async_queue.h:23-91 | for any number of threads and any interleaving: guarded vector, accounted tokens, no front of an empty vector, entries exactly pushed or taken, order kept, oldest first |
| QueueThreads.SearchMissesOnlyAbsent | client/include/async_queue.h:57-67 | a search gives up only when no entry has the id |
| QueueThreads.SearchEndsWithEntry | client/include/async_queue.h:52-84 | a `pop_by_id` ends only with an entry of that id; a `try_pop_by_id` also after a search that found none |
| QueueThreads.TryPopIsEmptyIff | client/include/async_queue.h:40-50 | in every run a `try_pop` comes back empty-handed exactly when every entry is claimed by another thread or still being announced |
| QueueThreads.SomebodyGoesOn | client/include/async_queue.h:23-91 | no deadlock: in every run a thread inside a call can go on, or the holder of the mutex it waits for can, or it waits for a token and none is free |
| QueueThreads.IdleQueueIsConsistent | client/include/async_queue.h:17-28 | between calls the mutex is free and the other semaphore counts the entries |
| QueueThreads.PushAlone | client/include/async_queue.h:23-28 | a `push` alone appends its entry and announces it, in four steps |
| QueueThreads.TryPopAlone | client/include/async_queue.h:40-50 | a `try_pop` alone takes the front, in three steps |
| QueueThreads.SearchAlone | client/include/async_queue.h:52-84 | a search alone takes the first entry with the id and keeps the order of the rest; without one it leaves everything as it was, and `pop_by_id` starts over |
| AsyncQueue.AsyncQueue.Push | client/include/async_queue.h:23-28 | appends the entry |
| AsyncQueue.AsyncQueue.TryPop | client/include/async_queue.h:40-50 | takes the oldest entry, or nothing exactly when there is none |
| AsyncQueue.AsyncQueue.TryPopById | client/include/async_queue.h:70-84 | takes the first entry with the id and keeps the order of the rest; without one changes nothing, and waits exactly on an empty queue |
| AsyncQueue.AsyncQueue.PopById | client/include/async_queue.h:52-68 | takes the first entry with the id and keeps the order of the rest; waits, changing nothing, exactly while there is none |
| AsyncQueue.AsyncQueue.Size | client/include/async_queue.h:86-91 | the number of entries |
| Tasks.SameIdIff | client/src/network.cpp:364-366 | two submissions share a number exactly when they are a multiple of 2^32 apart |
| Tasks.IdsDistinctIff | client/src/network.cpp:364-366 | n submissions have distinct numbers exactly when n is at most 2^32 |
| Tasks.ReportIsTrueIff | client/src/network.cpp:199-304 | success implies the server's word exactly outside the one branch of refused lists, which report success and keep the connection; a lost connection never counts as success |
| Tasks.ReportIsExact | client/src/network.cpp:199-304 | success is reported if and only if the server confirmed the task, or refused a listing, and the local file was no obstacle; a confirmed listing, and nothing else, brings files; the connection is kept exactly when the exchange went through |
| Tasks.ReportsAreTrueIff | client/src/network.cpp:192-305 | the same for every done record in every run |
| Tasks.ReportsAreExact | client/src/network.cpp:192-305 | both for every done record of every run |
| Tasks.ConnectionIs | client/src/network.cpp:188-340 | the thread works only while connected, and loses its connection exactly by a task or a poll that did not go through |
| Tasks.TryGetIsOldest | client/src/network.cpp:460-470 | in every run a call without a number gets the done record whose task was taken up first |
| Tasks.StepIsGood | client/src/network.cpp:192-305 | every step keeps task conservation, and the branch for unknown task types is never taken |
| Tasks.TasksAreConserved | client/src/network.cpp:192-305 | in every run, reconnections included, each task submitted is in exactly one place, unaltered but for its number and result, with at most one done record, and tasks are taken up in the order queued |
| Tasks.EveryTaskCanBeDone | client/src/network.cpp:192-305 | no run gets stuck: wherever one stands, and whatever the tasks are yet to meet, broken connections included, it can go on until each submission not handed back has its one done record |
| Tasks.CallerGetsItsTask | client/src/network.cpp:491-494 | what a caller gets under a number is a submission with that number which nobody got before, a multiple of 2^32 submissions away from the caller's own, and so its own up to 2^32 submissions |
| Tasks.Network.Submit | client/src/network.cpp:364-454 | takes the next number, wrapping at 32 bits, and appends the task under it |
| Tasks.Network.CarryOut | client/src/network.cpp:199-304 | exactly one done record per known task with its true result, and the connection is kept exactly when specified |
| Tasks.Network.Turn | client/src/network.cpp:192-338 | at most the oldest task is carried out per turn, the loop goes on only if it and the poll went through, and a polled change is passed on exactly when it is a deletion or its download did not break off |
| Tasks.Network.GetTaskById | client/src/network.cpp:491-494 | hands over the first done record with the number, and waits exactly while there is none |
| Registry.StepKeepsCap | server/src/client.cpp:59-67 | no step lifts a user over two connections that are not a primary's |
| Registry.HeldIsCount | server/src/client.cpp:59-64 | the counting loop counts the user's connections that are not a primary's |
| Registry.RegisteredIff | server/src/client.cpp:70-104 | a connection is registered, at the end and with no events, exactly when it comes from a primary, or the user has fewer than two and no client is invalid |
| Registry.ThirdIsRefused | server/src/client.cpp:59-67 | of three connections of one user exactly the first two are registered |
| Registry.StepKeepsInformed | server/src/client.cpp:129-166 | every step keeps: fetched and pending events are the broadcasts for the user since the client joined |
| Registry.RegistryIsSafe | server/src/client.cpp:44-166 | in every run of joins, failing sockets, removals, broadcasts and fetches, up to a purge: no user has more than two connections that are not a primary's, and every client has heard or will hear exactly what was sent for its user since it joined |
| Registry.FetchingCatchesUp | server/src/client.cpp:129-166 | wherever a run stands, a client that fetches as often as events wait for it has heard all that was sent for its user since it joined, in order, and none is left |
| Registry.RemovalDropsItsArgumentIff | server/src/client.cpp:110-121 | a removal drops exactly the client whose thread ends if and only if no client before it came a multiple of 2^64 connections earlier |
| Registry.Client.GetEvent | server/src/client.cpp:155-166 | hands out the oldest pending event, or none exactly when there is none |
| Registry.ClientRegistry.CanConnect | server/src/client.cpp:44-68 | a registered client that is invalid makes the purge run out of range; else true exactly when the user holds fewer than two such connections, and nothing changes |
| Registry.ClientRegistry.Purge | server/src/client.cpp:53-57 | the loop erases exactly the invalid clients, and then reads a position beyond the end of their list |
| Registry.BrokenSocketStopsServer | server/src/client.cpp:53-57 | for any users: one connects, the socket fails, and the next to connect brings the server down |
| Registry.ClientRegistry.ClientNew | server/src/client.cpp:70-104 | a client is registered at the end exactly when it is admitted and no purge starts; one from a primary never starts it |
| Registry.ClientRegistry.ClientRemove | server/src/client.cpp:110-121 | the first client with the id is dropped, if there is one, and the others keep their order |
| Registry.ClientRegistry.SendEvent | server/src/client.cpp:129-153 | the event goes to the back of the queue of each client of the user and of no other |
| SyncState.UploadsAreEdits | client/src/app.cpp:58-68 | in every run notifications queue no more uploads of a file than the user made edits plus, for a name the watcher does not pad, failed writes of downloads and, for one it pads, downloads written |
| SyncState.ChangesArePending | client/src/app.cpp:46-68 | the hash notifications compare with differs from the file's only while a notification is pending or handled, or the file is untouched since startup, or, for an unpadded name, a download is being written or was the last to fail |
| SyncState.DownloadIsNotEchoedIff | client/src/fs_notify.cpp:85-94 | a download that was written is not uploaded again, whatever happens until the user writes the file or another download upsets it, exactly when the watcher uses its name unpadded or the hash is noted under the padded one already |
| SyncState.PaddedNameEchoes | client/src/fs_notify.cpp:85-94 | for every file whose name is padded and any contents, a run in which a download is uploaded with no edit and no failure |
| SyncState.NeverEchoesIff | client/src/app.cpp:97-108 | over all runs without failed writes, uploads never exceed edits exactly for files whose names the watcher does not pad |
| SyncState.StaysWithinIff | client/src/app.cpp:58-68 | from any reachable state, exactly when uploads stay within edits as long as no download upsets the file |
| SyncState.FailedWriteBreaksIff | client/src/app.cpp:101-106 | a failed write breaks that exactly when a notification is still coming, the file is not the one noted, and every edit was uploaded |
| SyncState.WrittenDownloadBreaksIff | client/src/app.cpp:97-108 | a written download breaks that exactly when the name is padded, its hash is not noted under the padded name, and every edit was uploaded |
| SyncState.FailedWriteCausesUpload | client/src/app.cpp:101-106 | for an unpadded name and any two contents that hash differently, a run in which a failed write causes an upload |
| SyncState.DropsOnlyKnownIff | client/src/app.cpp:100-102 | a download of a file at rest is dropped only when the file has its hash, exactly for files whose names are not padded |
| SyncState.PaddedNameDropsDownload | client/src/app.cpp:100-102 | for a padded name and any two such contents, a run after which a download of what the user replaced is dropped |
| SyncState.App.NotifyModified | client/src/app.cpp:46-68 | the file is uploaded exactly when its hash is news under the name given, and then it is news no longer |
| SyncState.App.NetworkModified | client/src/app.cpp:97-108 | news is noted and, unless the write fails, written |
| Replicas.StepIsOk | client/src/network.cpp:192-338 | every step of every client, of its network thread and of the server's threads keeps, for each file and client: the network's cache entry is the hash of the server's version unless something of it is under way, and an unheard-of file is as at first or has an upload under way |
| Replicas.RestingClientsIff | client/src/app.cpp:97-108 | in every run, with any number of clients: one with nothing of a file pending, queued, coming or failed holds the server's version, up to the hash, exactly when its two cache entries for the file agree; in particular always for an unpadded name |
| Replicas.PaddedNameDiverges | client/src/fs_notify.cpp:85-94 | for every padded name and any two contents that hash differently, a run after which the client is at rest with one version and the server has the other |
| Replicas.RestMeansSyncedIff | client/src/fs_notify.cpp:85-94 | over all runs, being at rest means being in step with the server exactly for the files whose names the watcher does not pad |
| Replicas.LostUploadDiverges | client/src/network.cpp:210-242 | an upload that fails is not tried again: for every file and any contents, a run after which nothing is under way and the server does not have the file |
| Replicas.LostDownloadDiverges | client/src/network.cpp:309-318 | nor is a download: for every file and any two contents, a run after which the user has one and the server the other with nothing under way |

## Left out

- Sockets, name lookup, threads, sleeps, signals, logging and exit codes. A `send` is taken to transmit everything or to fail.
- The heartbeat's timing: suspicion of the crashed primary may arise at any survivor at any moment; suspicion of a live or of the newly elected primary is not modelled.
- An event between the moment a server drops the primary and the moment it looks up its successor: one message or one suspicion is handled as one step. A fetch from the winner is one step as well.
- In the runs of several servers the DNS always answers; what one server does when it does not is in `HandleElection`.
- FailoverCompletes, ElectionTerminates, ElectionProgresses, ViewsNeverSplit: stated for one initiator and no lost message; FailsOverIff says that failover succeeds in no other lossless run. With losses, what is stated is FirstElectedIsHighest and TokensAreConserved.
- JoinedClusterFailsOver, SettledClusterIsElectionReady: a run in which no endpoint boots a second time; one that does is listed twice. There every fetch is answered; JoinedClusterFinishesIff says in which clusters the winner does answer.
- FinishesIff, JoinedClusterFinishesIff, JoinOrderDecides: at the crash every thread waits for a connection; FetchFromDeadPrimaryEnds says that a server fetching from the old primary at that moment comes back to that. NoRunGetsStuck says that no such run is stuck, not that every schedule gets to the end.
- Progress of joins and updates: servers wait for each other's replies, and nothing here says that they end. The loop over the requests of one connection between servers appears only as the steps of `Membership`.
- Ports computed as port + 1, + 2 or + 3.
- A list request whose send fails leaves the metadata lock held (server/src/coms.cpp:168-185); the lock is not modelled.
- ReceivePacket, Serve: an upload that is cut is read from freed memory, so its contents are not determined; nor is anything after it.
- Serve: when a send fails, which of the replies still went out is stated request by request in `HandleRequest`.
- The names of files: two spellings of one path are two files here. A listing's order, contents and times come from the environment, and failed reads leave nothing behind.
- Replication to the backups beyond the status the primary checks: its error branches are empty in the code, and backups never start listening for it.
- The client's own reader and writer: its `write_bytes` returns false on success and is unused.
- Turn: what it passes on after a download the server refused is whatever the buffer held; what the application makes of it is in `SyncState`, for downloads.
- A file call is one step: two connections that write the same file at once do not mix their contents here.
- Replicas: deletions, broken connections and failing backups are not part of it; a client's first downloads are one step, its tasks and polls come in any order, and a file of which an upload or download failed is no longer promised anything.
- `pop` of the queue: it posts the mutex twice (client/include/async_queue.h:35-36), and its only caller is never called.
- PopById, TryPopById, GetTaskById: a call that waits is said to wait; waking up again is modelled in `QueueThreads`, which says that somebody can go on, not that every schedule lets a given call end.
- What a purge of invalid clients does after it has run out of the list (server/src/client.cpp:53-57) is undefined; runs end there. CanConnect, ClientNew, Purge and ConnectToClient take the list to be shorter than 2^64, as a vector is.
- Ids of connections are taken one at a time; the counter in server/src/connection.cpp is not protected by a lock.
- The client's directory: deletions are not modelled. After a failed download of a changed file the code may still pass old contents on; here contents are arbitrary.
- The command line, the table printer and the debug output.
