# Verification of uologin

uologin is a login proxy for Ultima Online. It accepts TCP connections from
clients, takes the 83 bytes of their first two packets, checks the user name and
password in them against a database, possibly shows a list of game servers,
connects to a game server, replays the packets there, and from then on moves bytes
both ways through kernel pipes. Beside that it limits what a single client may do:
a token bucket, delays for clients that went over the limit ("tarpit"), a cap on
connections, and UDP knocking.

This project models that logic in Dafny and proves what it keeps true over whole
runs. `dafny verify dfyconfig.toml` checks everything.

## How it is built

* `Packets.dfy`, `Kernel.dfy`: packet layouts, and the answers that system calls can
  give. Chunk sizes, EAGAIN, end of file, errors, partial sends, timers and the
  scheduling of threads are all chosen by an environment about which nothing is
  assumed beyond what is listed below.
* `ProxySpec.dfy`, `ProxyInvariant.dfy`, `ProxyRuns.dfy`: one proxied connection as
  a function from events to states, the invariant of its runs, and the theorems
  about runs. `ProxyExamples.dfy`: runs in which the code does not do what one
  might expect, and what a small change of it would give.
* `Wire.dfy`, `ProxySteps.dfy`, `Logins.dfy`: the packets a second time, byte by byte
  in plain numbers; what each event does, told on those bytes; and whole logins, in
  whatever pieces they arrive, from the first byte to the relay.
* `Splicing.dfy`, `Proxy.dfy`: the objects: sockets, pooled pipes, `Splice`, and
  the class `Connection` with its handlers. Every handler is proved to do what the
  function of the same name in `ProxySpec` does (`View() == ProxySpec.X(old(View()))`),
  and `Connection.Dispatch` keeps the invariant.
* `Pool.dfy`: any number of `Connection` objects over one pool of pipes, in any
  interleaving of their events. `ConnectionPool.Serve` creates them and delivers
  the events, and ends with every object in the state `Run` of its own events; so
  the theorems about runs are theorems about these objects.
* `Metrics.dfy`, `Instance.dfy`: the counters, as sums of the calls that connections
  make, for one connection and for a whole instance.
* `Jobs.dfy`, `Database.dfy`: the credentials job between event loop and worker
  thread, in all interleavings; database reloading; the classes behind both.
* `Limiter.dfy`: what one client's entry decides, as statements about the client's
  history, and when forgetting an entry cannot be noticed.
* `Accounting.dfy`, `Listener.dfy`, `KnockListener.dfy`: the accounting objects. A
  ghost map records every client's past; the invariant ties each entry to it, so
  what `Limiter` proves of a past holds of the objects.
* `Service.dfy`: a listener and a knock listener over the same accounting, with
  anything happening to them in any order: `Service.Serve` creates them, lets it
  happen, and ends with the heap as it must be and with what that means for every
  client.

## Main results

1. **Streams.** On every run, what the game server receives is the client's two
   packets (with the REMOTE_IP packet in between if configured), PlayServer(0) if
   a server list was shown, and a prefix of the client's later bytes; what the
   client receives is our ServerList, if any, and a prefix of the server's bytes
   with exactly its first ServerList packet cut out. This holds if and only if no
   event of the run cut a handshake packet short: the code takes any positive
   count for success (src/Connection.cxx:492) and, for ServerList and
   PlayServer(0), any non-negative one (:132, :383), without sending the rest.
   `ShortHelloExample` and `ShortRepliesExample` are runs in which that happens
   and the relay begins all the same.
2. **Flow control, and its price.** Bytes wait in a pipe exactly while WRITE is
   scheduled for them, and then READ is off at their source, so the "pipe full"
   branches are never entered. But no handler schedules READ again: a direction
   that has once met backpressure delivers what its pipe holds and nothing more,
   forever (`StallIsForever`), and READ is on exactly if its pipe was empty at
   every event boundary of the relaying (`ReadScheduledIff`). `StallExample` is
   such a run, over one single byte. Were READ scheduled again in the OK case of
   DoSpliceSend, the relay would resume after every drain (`ResumesAfterDrain`).
3. **Assertions.** Of all assertions in Connection.cxx and Splice.cxx one can
   fail: src/Connection.cxx:281, exactly when client data arrives while the game
   server is being contacted and no server list is configured (:265 has scheduled
   READ); `EarlyDataExample` is such a run. Where each is covered:
   * by the status `Aborted` and `AssertionsHold`: Connection.cxx:281, 286, 290,
     326, 396, 409, 442, and Splice.cxx:57, 58 in both of their uses;
   * by assertions in `Proxy.Connection` that verify: 286, 290, 395, 396, 409
     (in `OnIncomingReady` and `OnOutgoingReady`), 326 and 442 (in `NothingRead`);
   * by preconditions that `Proxy.Connection.Dispatch` and the handlers meet at
     every call: 106, 109, 145, 146, 147, 176, 177, 236, 464, 498, 523;
   * by `Splice.ReceiveFrom` and `Sendable` under the pool's invariant: Splice.cxx:24,
     57, 58.
4. **Authorization.** Whatever the interleaving of the threads and the history of
   the database file, with a database configured a client gets an address to
   connect to only if the worker accepted the credentials in its own 83 bytes
   (`DatabaseGuards`, and `PasswordGuards` with the password check itself); the job is destroyed once, called back at most once, and
   never after it was cancelled (`JobRace`).
   And nobody else is kept out: a job is created exactly by the event that completes
   a well-formed login (`JobCreatedIff`), and with a right password every client
   gets through to the relay, in whatever pieces its packets arrive, with the
   server it chose and the greeting it is due (`GetsThrough`, `GetsThroughListed`).
5. **Reloading.** Everyone is let in exactly if no database is configured, or if
   no regular file has ever shown a modification time other than 0 (`FailsOpenIff`).
6. **The limiter as history.** The delay is a function of when the limit was
   exceeded (`DelayHistory`): 100 ms more for each time, 100 ms less for each charge
   within the limit in the minute after. A charge goes over the limit exactly if some window
   ending with it was overspent; there is a delay exactly if that happened less
   than a minute ago; a knock counts exactly until it happens again; at most
   10 + T connections of one client are let in undelayed in T seconds, even if it
   is forgotten in between. Connections that are refused after their charge are
   not bounded so (`ForgottenAccepts`), unless all deletions were harmless
   (`HarmlessAcceptRate`; not the converse, as a deletion that is not harmless
   shows in some continuation, but need not show in a rate).
7. **Forgetting.** Deleting an entry is unnoticeable if and only if it is
   `Harmless`. A client without connections is deleted by the first firing of the
   timer five minutes after its last disconnect, whatever it does meanwhile
   (`ForgottenIff`), and at most six minutes after it (`GoneInSixMinutes`). Five minutes after a quiet client's last disconnect it is, exactly
   if no knock stood and at most 290 tokens were missing. Without a connection, or
   with charges after the last disconnect, it is noticed: `ForgottenKnock`,
   `ForgivenCharge`.
8. **Conservation.** Gauges equal the live connections and those with a server, on
   every history of the instance; made and failed server connections never exceed
   accepted logins; the byte counters count the relayed bytes and no others.
9. **Framing.** The ServerList length field is right, and the packet can be
   consumed at all, if and only if there are at most 1638 servers.

## Assumptions

* `TokenBucket::Update` leaves `min(burst, available + elapsed) - size` tokens, can go
  below zero, and a new bucket is full. Times are integers (nanoseconds) in place of
  `double`. The clock is monotone.
* `SocketEvent` dispatches scheduled flags, and hangups and errors at any time.
* `ThreadQueue::Cancel` succeeds exactly while no worker has taken the job; a job
  that was taken is delivered to `Done` on the loop thread later.
* A due timer is handled before the loop's clock is seen to pass it.
* A read or splice never returns more than asked for. Bytes that a socket delivers
  are whatever the environment says.
* `IsPrintableASCII` accepts 0x20 to 0x7e.
* A short send or splice delivers a prefix of the data.

## Model

| member | source | states |
|---|---|---|
| ProxyRuns.ClientToServer | src/Connection.cxx:461-518 | on every run the game server's stream is its due, byte by byte (the client's 83 bytes, with the REMOTE_IP packet in between exactly if configured and known, 0xa0 0 0 after a list, the client's later bytes) up to what waits in the pipe, if and only if no event of the run cut one of the handshake packets short; always a prefix then, even after the end |
| ProxyRuns.ServerToClient | src/Connection.cxx:354-391 | the same towards the client: our ServerList, then the server's bytes without exactly its first ServerList packet, if and only if no event cut our list short |
| ProxyRuns.WholeIff | src/Connection.cxx:103-140 | what the kernel took of the three handshake packets was whole exactly if no event of the run is one of the short sends: a connection with 0 < sent < size, or a list or PlayServer(0) answered with 0 <= reply < size |
| ProxyRuns.CleanClose | src/Connection.cxx:318-323 | when relaying ended with a side's FIN, every byte that side ever sent had been delivered |
| ProxyRuns.AssertionsHold | src/Connection.cxx:271-442 | a run fails one of the assertions at lines 281, 286, 290, 326, 396, 409, 442, or one of Splice::SendTo, if and only if it contains the early-data event at line 281; the other assertions hold unconditionally, as listed above |
| ProxyExamples.EarlyDataExample | src/Connection.cxx:265-281 | a concrete run, for any further data, that fails the assertion at line 281 |
| ProxyExamples.ShortHelloExample | src/Connection.cxx:486-507 | a run that relays although the server got one byte of the client's packets |
| ProxyExamples.ShortRepliesExample | src/Connection.cxx:132-140 | a run that relays although neither our ServerList nor PlayServer(0) was sent at all: both streams differ from what is due |
| ProxyExamples.StallExample | src/Connection.cxx:70-90 | a run of four events after which READ is off with an empty pipe, and no continuation reads from the client again |
| ProxyExamples.ResumesAfterDrain | src/Connection.cxx:74-76 | with READ scheduled in the OK case, on every run of a lane READ is on exactly while the pipe is empty and WRITE exactly while it is not |
| ProxyRuns.FlowControl | src/Connection.cxx:70-90 | at every event boundary of a live connection: bytes in the pipe iff WRITE scheduled, and then READ is not |
| ProxyRuns.StallIsForever | src/Connection.cxx:295-335 | once READ is off while relaying, no continuation of the run reads from that source again or delivers more than the pipe held |
| ProxyRuns.ReadScheduledIff | src/Connection.cxx:70-90 | READ is scheduled exactly if the pipe was empty at every event boundary since relaying began |
| ProxyRuns.RelayStep | src/Connection.cxx:411-451 | one event while relaying never aborts or leaves the state, and turns READ off exactly when bytes stay behind |
| ProxyRuns.StateAlignment | src/Connection.cxx:51-63 | on every run what is pending and open follows from the state, and nothing is after the end |
| ProxyRuns.ConnectsOnlyAuthorized | src/Connection.cxx:142-168 | an address is chosen only after an accepted login for the credentials in bytes 22 to 81 of the client's stream; it is the configured one, or the one at the index in bytes 84 and 85, behind 0xa0, of the list |
| ProxyRuns.ServerListAnyChunking | src/Connection.cxx:338-391 | however the server's stream is cut up, reading its ServerList succeeds exactly if all of it was taken, and never takes a byte more |
| ProxyRuns.ServerListRoundTrip | src/Connection.cxx:103-132 | an encoded list can be consumed if and only if it has at most 1638 servers |
| ProxyInvariant.StepInv | src/Connection.cxx:271-526 | every event keeps the invariant that ties state, pending work, both lanes and both streams together |
| ProxyInvariant.RunInv | src/Connection.cxx:25-49 | the invariant holds on every run from the constructor on |
| ProxyInvariant.SpliceSendKeeps | src/Connection.cxx:70-90 | sending moves bytes from pipe to destination without loss, and balances pipe and flags unless it fails |
| ProxyInvariant.SpliceReceiveKeeps | src/Splice.cxx:20-52 | receiving loses nothing, reports end of file only with an empty pipe, and never meets a full pipe |
| ProxyInvariant.RelayKeeps | src/Connection.cxx:295-335 | READ and WRITE dispatched together keep both directions balanced and lossless |
| ProxyInvariant.TakenIsServerList | src/Connection.cxx:354-380 | if the receiver accepts, what it dropped is exactly one packet by its length field |
| ProxyInvariant.ServerListLengthStays | src/Connection.cxx:354-380 | which bytes are cut out does not change as more arrive |
| Wire.HelloIsGreeting | src/Connection.cxx:461-493 | the greeting is the client's 83 bytes; exactly if configured and the address is known, with 0xbf, the size, 0x5a6a, "REMOTE_IP=" and the address after the first 21 |
| Wire.PacketIsList | src/Connection.cxx:111-130 | every byte of the list: 0xa8, size, 0x5d, count, and for each configured server its number, its own name, zeroes, 0xdeadbeef |
| Wire.ListLengthSays | src/Connection.cxx:354-376 | what the receiver takes for a complete list: 0xa8, and a size of at least 46 that the stream has |
| Wire.LoginSays | src/Connection.cxx:196-212 | what counts as a login: 0xef first, 0x80 at 21, and a printable name from 22 |
| Wire.NameSays | src/Validate.hxx:9-15 | a name is valid iff its field has a printable text before its first NUL |
| Wire.ChoiceSays | src/Connection.cxx:151-159 | three bytes 0xa0 and an index in range choose the address at that index, anything else none |
| ProxySteps.LoginDecided | src/Connection.cxx:196-231 | complete 83 bytes: 10 tokens, 8 with a refusal, 2 with a refusal, a pending job for exactly these credentials, or acceptance, each exactly on its condition on the bytes and the lookup |
| ProxySteps.PartialLoginSays | src/Connection.cxx:176-193 | fewer bytes are kept and nothing else happens; an error is the end |
| ProxySteps.AnsweredSays | src/Connection.cxx:233-268 | a refusal: 0x82 0x03, a FIN, 5 tokens; acceptance: 1 token, and the list with READ and timeout on, or the configured server |
| ProxySteps.ChoiceDecided | src/Connection.cxx:142-168 | a valid choice leads to that server, READ and timeout off; anything else is the end |
| ProxySteps.ConnectedSays | src/Connection.cxx:495-519 | the greeting, as much as the kernel takes, and the next state; nothing taken is the end |
| ProxySteps.ConnectFailedSays | src/Connection.cxx:520-530 | counted as failed, and the end |
| ProxySteps.ServerListSays | src/Connection.cxx:354-391 | a whole list dropped and an answer not failed begin the relay; anything else is the end |
| ProxySteps.HangupSays | src/Connection.cxx:273-279 | a hangup is the end, for 4 tokens before the login is complete, 5 if it is the server's, else none |
| ProxySteps.TimeoutSays | src/Connection.cxx:454-459 | the end, for 7 tokens |
| ProxySteps.SendSays | src/Connection.cxx:70-90 | a destination that takes n bytes gets exactly the first n that wait, and the flags follow from what is left |
| ProxySteps.ReceiveSays | src/Splice.cxx:20-52 | a ready source is read once, and what it gave is sent on at once; its end becomes a FIN |
| ProxySteps.RelaySays | src/Connection.cxx:295-335 | a dispatch while relaying drains first and then reads, counts what was read, and ends both sides on a failure |
| Logins.JobCreatedIff | src/Database.cxx:161-181 | in every interleaving a job is created exactly by the event that completes a well-formed login with a database, and waits with the client's own credentials |
| Logins.LoginInPieces | src/Connection.cxx:170-230 | however the 83 bytes are cut up, a well-formed login creates its job and waits for it |
| Logins.Answered | src/Database.cxx:121-129 | the worker's verdict on the client's own credentials is what the connection is told, once |
| Logins.Refused | src/Connection.cxx:240-251 | a wrong password: exactly a refusal, 5 tokens, and the end |
| Logins.GetsThrough | src/Connection.cxx:233-518 | a right password and one game server: the relay begins, with the greeting, at the configured address |
| Logins.GetsThroughListed | src/Connection.cxx:103-518 | a right password and a choice from the list: the relay begins at the chosen server, whose own list of any size is dropped |
| Logins.AnyListTaken | src/Connection.cxx:338-376 | every stream that begins with a complete list is understood, and only that list taken |
| Logins.GivenUp | src/Database.cxx:131-136 | a connection that ends first destroys a job nobody has taken, and marks any other, which is destroyed when done |
| Packets.BE16RoundTrip | src/uo/Packets.hxx:73-76 | a 16-bit field reads back exactly the low 16 bits |
| Packets.HelloRoundTrip | src/Connection.cxx:461-493 | cutting the inserted packet out by its own length restores the client's bytes, if and only if the address has at most 65520 bytes |
| Packets.ServerListFraming | src/Connection.cxx:108-121 | the sender's length field frames its packet on any stream if and only if there are at most 1638 servers |
| Packets.ServerInfosAt | src/uo/Packets.hxx:60-78 | entry i stands at offset 40 i of the list |
| Packets.ServerListEntry | src/Connection.cxx:123-130 | a client finds at place i the number i and the name, cut to 31 bytes and at the first NUL |
| Kernel.Discarded | src/Connection.cxx:338-352 | for every chunking: at most n bytes are taken, exactly n if and only if it succeeds |
| Splicing.PipeStock.GetNow | src/PipeStock.cxx:27-60 | a pipe handed out is empty and belongs to nobody |
| Splicing.Splice.ReceiveFrom | src/Splice.cxx:20-52 | appends the bytes read, tells the four outcomes apart; keeps every pipe with one owner and the pool empty of bytes |
| Splicing.Splice.SendTo | src/Splice.cxx:54-85 | removes exactly what was sent; an emptied pipe goes back to the pool |
| Splicing.Splice.Dispose | src/Splice.cxx:14-18 | a pipe returns for reuse only if it is empty |
| Proxy.DoSpliceSend | src/Connection.cxx:70-90 | on real sockets and pipes: bytes, flags and result are those of SpliceSend, whose losslessness is SpliceSendKeeps; other splices keep theirs |
| Proxy.SpliceInput | src/Connection.cxx:302-335 | the READ branch of either handler, for either direction: what is read, counted, forwarded and scheduled is SpliceReceive, whose losslessness is SpliceReceiveKeeps |
| Proxy.RelayReady | src/Connection.cxx:295-335 | a ready socket is first drained into, then read from, and only if the draining did not fail; both lanes become those of Relay |
| Proxy.Discard | src/Connection.cxx:338-352 | the loop succeeds iff it took exactly n bytes, as Discarded does; it ends for every chunking |
| Proxy.TakeServerListPacket | src/Connection.cxx:354-380 | takes and accepts exactly what TakeServerList does, of which TakenIsServerList and ServerListAnyChunking speak |
| Proxy.BuildServerList | src/Connection.cxx:108-130 | the array filled in place is ServerListPacket(names) |
| Proxy.EntryFilled | src/Connection.cxx:123-130 | the three field writes over zeroes make one complete entry and touch nothing else |
| Proxy.PacketSplit | src/Connection.cxx:123-130 | writing entry i extends the finished part of the packet by one entry |
| Proxy.Connection.constructor | src/Connection.cxx:25-45 | a new connection is in the start state of the runs, with a buffer and two empty splices of its own, added to the pool; its registration with the accounting is Listening.Listener.AddConnection |
| Proxy.Connection.Destroy | src/Connection.cxx:51-63 | every pending thing cancelled, both sockets closed, counters given back once; pipes go back only if empty, so the pool stays valid |
| Proxy.Connection.SendServerList | src/Connection.cxx:103-140 | the client gets the part of the list that the kernel took, and one minute for its answer; an error ends the connection |
| Proxy.Connection.ReceivePlayServer | src/Connection.cxx:142-168 | only one whole PlayServer packet with an index in range leads to a connection attempt, to that server; anything else is the end |
| Proxy.Connection.ReceiveLoginPackets | src/Connection.cxx:170-196 | the buffer's filled part is always what the client sent so far; READ and the timeout end exactly with the 83rd byte |
| Proxy.Connection.CheckLogin | src/Connection.cxx:196-231 | 10 tokens for other packets, 8 for an invalid name, 2 if the lookup throws, else a pending job for exactly these credentials |
| Proxy.Connection.OnCheckCredentials | src/Connection.cxx:233-268 | a refusal costs 5 tokens and ends with a reject packet; acceptance costs 1 and leads to the list, or to the configured server |
| Proxy.Connection.OnIncomingReady | src/Connection.cxx:270-336 | for every ready mask and every answer of the kernel: drain first, then fill, or the handshake step of the present state |
| Proxy.Connection.ReceiveServerList | src/Connection.cxx:354-391 | relaying begins exactly after one whole ServerList packet was dropped and PlayServer(0) accepted by the kernel |
| Proxy.Connection.OnOutgoingReady | src/Connection.cxx:393-452 | the same for the game server's socket; its hangup costs 5 tokens |
| Proxy.Connection.OnTimeout | src/Connection.cxx:454-459 | a client that is too slow costs 7 tokens and the connection |
| Proxy.Connection.OnSocketConnectSuccess | src/Connection.cxx:495-519 | the client's packets are replayed, and the server's list is awaited exactly if the client chose from ours |
| Proxy.Connection.OnSocketConnectError | src/Connection.cxx:520-530 | counted as failed, never as established, and the end |
| Proxy.Connection.Dispatch | src/Connection.cxx:270-530 | every event takes the object from one consistent state to the next, as Step says, and touches no pipe but the pool's and new ones, so that another event may follow |
| ConnectionPool.Deliver | src/Splice.cxx:14-85 | an event for one connection leaves every other one over the same pool exactly as it was, so no bytes cross between connections |
| ConnectionPool.Serve | src/Connection.cxx:25-530 | any number of connections, any interleaving of their events: each object ends in exactly the state that its own events lead to |
| Metrics.RunCounts | src/Connection.cxx:233-268 | on every run the connection's tally is exactly what its state says while it lives; afterwards it counts for nothing, login outcomes exclude each other, at most 10 tokens were charged |
| Metrics.StepCounts | src/Connection.cxx:270-336 | every event keeps that |
| Metrics.ChargesAreSmall | src/Connection.cxx:196-277 | no single charge exceeds ten tokens |
| InstanceMetrics.StoryAdds | src/Instance.hxx:50-60 | connection, login and byte counters, updated call by call, always equal the sum over all connections |
| InstanceMetrics.Conservation | src/Instance.cxx:23-30 | gauges equal live and connected connections and are 0 after teardown; accepted, rejected and malformed logins and made and failed server connections are counted once each; byte counters equal relayed bytes |
| InstanceMetrics.StepLogs | src/Connection.cxx:37-62 | an event only adds calls |
| CredentialJobs.JobRace | src/Database.cxx:91-137 | over all interleavings: destroyed at most once, called back at most once, never after a cancellation, exactly one of the two if the job is gone; Cancel and callback are never misused |
| CredentialJobs.JobEnds | src/Database.cxx:121-136 | from any reachable state the worker and one delivery leave no job behind |
| CredentialJobs.StepWaiting | src/Connection.cxx:51-54 | while a job is pending, any event but its callback changes nothing or ends the connection; the callback cancels nothing |
| CredentialJobs.StepQuiet | src/Connection.cxx:214-230 | without a pending job nothing is cancelled, and a new job carries the connection's own credentials |
| CredentialJobs.OnlyVerified | src/Connection.cxx:233-268 | with a database, only clients whose own credentials the worker accepted get past the login |
| CredentialJobs.ConnectsOnlyVerified | src/Connection.cxx:256-268 | the same for the address to connect to |
| CredentialJobs.ForgettingMatters | src/Connection.cxx:233-250 | from every reachable state: without clearing the cancel pointer first, the callback would cancel its own job exactly if it refuses the login or cannot send the list |
| UserDatabase.ReloadAnswers | src/Database.cxx:59-89 | on every history of the file, each answer is decided by the load at the look that first showed the present modification time |
| UserDatabase.ReloadState | src/Database.cxx:59-89 | the stored database, error and time are those of that load |
| UserDatabase.FailsOpenIff | src/Database.cxx:161-173 | exactly when everyone is let in |
| UserDatabase.OpenIffNoError | src/Database.cxx:79-88 | once a time other than 0 was seen, a database is open iff no error is stored |
| UserDatabase.SameUntilModified | src/Database.cxx:71-77 | while the modification time stays, so does the answer, error or not |
| UserDatabase.StaticAnswers | src/Database.cxx:29-34 | without reloading a configured database is always asked, and everyone let in otherwise |
| UserDatabase.DatabaseGuards | src/Database.cxx:161-181 | file history, job race and connection together: only verified clients get an address |
| UserDatabase.PasswordGuards | src/Database.cxx:139-159 | the same with the password check itself: an address implies a stored hash under the upper-case name that the client's password verifies against |
| UserDatabase.CaseDoesNotMatter | src/Database.cxx:146-148 | two names have one key iff they differ at most in the case of letters |
| UserDatabase.SameAnswer | src/Database.cxx:139-159 | names that differ at most in the case of letters get the same answer from the password check |
| UserDatabase.PasswordSays | src/Database.cxx:139-159 | a password is accepted iff the name has at most 30 bytes, the upper-case name an entry of 1 to 127, and it verifies |
| UserDatabase.Database.MaybeAutoReload | src/Database.cxx:59-89 | the object's new state and what it throws, as the specification says |
| UserDatabase.Database.CheckCredentials | src/Database.cxx:161-181 | answer, new state, and a fresh waiting job exactly if it asks |
| UserDatabase.CheckCredentialsJob.Run | src/Database.cxx:121-123 | stores the password check's result |
| UserDatabase.CheckCredentialsJob.Done | src/Database.cxx:125-129 | destroys the job, with a callback unless it was cancelled |
| UserDatabase.CheckCredentialsJob.Cancel | src/Database.cxx:131-136 | marks it, and destroys it exactly if no worker has it |
| Limiter.VerdictIsWindowed | src/net/ClientAccounting.cxx:97-108 | over the limit iff some window that ends with this charge was overspent |
| Limiter.BudgetBound | src/net/ClientAccounting.cxx:97-121 | a charge within the limit bounds all spending since any earlier time by 10 tokens and one per second |
| Limiter.AcceptRate | src/Listener.cxx:40-69 | at most 10 + T undelayed connections of one client are let in in any T seconds, whatever else happens, deletions of its entry included |
| Limiter.BoundReached | src/net/ClientAccounting.cxx:97-121 | that bound is reached: up to ten at one instant are all let in undelayed |
| Limiter.EntryAcceptRate | src/Listener.cxx:40-66 | of one entry until it is deleted: at most 10 + T new connections find no delay in any T seconds, let in or not |
| Limiter.ForgottenAccepts | src/net/ClientAccounting.cxx:160-170 | across a deletion that does not hold for connections that are refused: twenty at one instant, all without a delay |
| Limiter.HarmlessAcceptRate | src/Listener.cxx:40-69 | if every deletion was harmless, the rate holds for all undelayed new connections, let in or refused |
| Limiter.TarpitHistory | src/net/ClientAccounting.cxx:108-121 | after a charge: a delay iff the limit was last exceeded less than a minute ago, in steps of 100 ms up to a minute |
| Limiter.DelayHistory | src/net/ClientAccounting.cxx:108-121 | the delay after any history, told from the charges over the limit alone: 100 ms more each, 100 ms less for each charge within it in the minute after, between 100 ms and a minute |
| Limiter.ExcessesAddUp | src/net/ClientAccounting.cxx:108-112 | n charges over the limit in a row delay by n times 100 ms, or a minute |
| Limiter.AtOnce | src/net/ClientAccounting.cxx:97-121 | of n new connections at one instant ten find no delay, and the others 100 ms, 200 ms and so on up to a minute |
| Limiter.OneEachSecond | src/net/ClientAccounting.cxx:97-107 | after ten at once the next finds no delay iff a second has passed |
| Limiter.KnockedIff | src/net/ClientAccounting.cxx:114-116 | knocked iff some knock was followed by no charge over the limit |
| Limiter.AdmissionIff | src/Listener.cxx:38-69 | which of the four decisions falls, and how long the delay is, told from the history |
| Limiter.AdmissionTold | src/Listener.cxx:38-69 | the same for a client that may have been forgotten: its history since the last deletion decides |
| Limiter.SinceEviction | src/net/ClientAccounting.cxx:153-174 | an entry is made by the actions since its last deletion, and by nothing else |
| Limiter.HarmlessIff | src/net/ClientAccounting.cxx:160-170 | a deletion can never be noticed if and only if the entry is harmless |
| Limiter.EvictionUnobservable | src/net/ClientAccounting.cxx:153-174 | if all deletions are harmless, every decision is the one of an instance that never forgets |
| Limiter.QuietHarmlessIff | src/net/ClientAccounting.cxx:85-88 | five minutes after a quiet client's last disconnect: harmless iff no knock stood and at most 290 tokens were missing |
| Limiter.QuietEvictions | src/net/ClientAccounting.cxx:153-174 | deletions after such quiet times are all harmless |
| Limiter.ForgottenIff | src/net/ClientAccounting.cxx:153-174 | on every history without a Connect or Disconnect after the client's last disconnect, whatever is charged or knocked: the entry is kept, with all of that, until the first firing five minutes after, and is deleted by that and every later firing |
| Limiter.QuietForgottenIff | src/net/ClientAccounting.cxx:153-174 | for a client that did nothing meanwhile, that deletion leaves nothing at all |
| Limiter.ForgottenKnock | src/KnockListener.cxx:100-105 | a knock without a connection is forgotten by the next firing: a concrete run |
| Limiter.ForgivenCharge | src/net/ClientAccounting.cxx:85-88 | a charge after the last disconnect does not postpone the deletion: a concrete run |
| ClientAccounting.PerClientAccounting.Check | src/net/ClientAccounting.cxx:61-66 | whether the cap leaves room |
| ClientAccounting.PerClientAccounting.AddConnection | src/net/ClientAccounting.cxx:68-75 | links both ways, keeps the shape of the heap, and exceeds the cap only if there was no room |
| ClientAccounting.PerClientAccounting.RemoveConnection | src/net/ClientAccounting.cxx:77-89 | unlinks both ways; an emptied entry has the cleanup timer running |
| ClientAccounting.PerClientAccounting.UpdateTokenBucket | src/net/ClientAccounting.cxx:91-122 | the entry follows its client's history by one charge; nothing without the tarpit |
| ClientAccounting.PerClientAccounting.SetKnocked | src/net/ClientAccounting.hxx:69-71 | the entry follows by one knock |
| ClientAccounting.ClientAccountingMap.Remembers | src/net/ClientAccounting.hxx:35-52 | in every valid state an entry is what its client's past makes it |
| ClientAccounting.ClientAccountingMap.Counts | src/net/ClientAccounting.hxx:33-35 | every linked connection's entry is still in the map and lists it |
| ClientAccounting.ClientAccountingMap.GoneInSixMinutes | src/net/ClientAccounting.cxx:146-174 | before the shutdown, a client that has not connected since is deleted at most six minutes after its last disconnect |
| ClientAccounting.ClientAccountingMap.Tick | src/net/ClientAccounting.cxx:146-151 | time passes up to a due timer, and the timer stays on time for every empty entry |
| ClientAccounting.ClientAccountingMap.Get | src/net/ClientAccounting.cxx:129-144 | null iff the key is 0; otherwise the only entry for the key, new only if there was none |
| ClientAccounting.ClientAccountingMap.OnCleanupTimer | src/net/ClientAccounting.cxx:153-174 | deletes exactly the empty expired entries, and runs again iff empty ones remain |
| ClientAccounting.ClientAccountingMap.Sweep | src/net/ClientAccounting.cxx:160-170 | the loop over the map does that |
| ClientAccounting.ClientAccountingMap.ScheduleCleanup | src/net/ClientAccounting.cxx:146-151 | a running timer keeps its time |
| ClientAccounting.ClientAccountingMap.Shutdown | src/net/ClientAccounting.hxx:108-110 | the timer is off |
| ClientAccounting.AccountedClientConnection.Destroy | src/net/AccountedClientConnection.cxx:8-12 | unlinks; the cap holds again after a hand-over |
| ClientAccounting.AccountedClientConnection.UpdateTokenBucket | src/net/AccountedClientConnection.cxx:14-19 | forwards the charge, if there is an entry |
| Listening.Listener.OnAccept | src/Listener.cxx:34-70 | the decision is Admit on the client's past with this charge, and with a tarpit justified by it: a standing knock where one is required, a delay exactly if the limit was exceeded within the last minute; past and lists change accordingly and no others; the cap is kept |
| Service.Serve | src/Listener.cxx:34-70 | after anything at all in any order, of connections, knocks, jobs, timers: heap shape and caps hold, every client was let in undelayed at most 10 + T times in every window, and with a database every knock in a past was vouched for by an accepted password that this client sent |
| Service.JobDone | src/KnockListener.cxx:86-118 | the client's past gets a knock exactly if the worker accepted the credentials of the request, and no knock otherwise |
| Service.Receives | src/KnockListener.cxx:54-84 | a datagram alone brings a knock only if the database lets everyone in, and at most one request, with this datagram's credentials |
| Listening.Listener.VerdictJustified | src/Listener.cxx:38-67 | each of the four decisions holds exactly on its condition on the client's past since the last deletion |
| Listening.Listener.Judge | src/Listener.cxx:38-67 | charge first, then knock, cap and delay, with their metrics |
| Listening.Listener.AddConnection | src/Listener.cxx:24-32 | one connection more, at most one over the cap and only without room |
| Listening.Listener.AddDelayed | src/DelayedConnection.cxx:11-28 | a delayed connection counts for its client from the start |
| Listening.Listener.OnTimer | src/DelayedConnection.cxx:35-43 | the hand-over keeps the client's count and the cap, and leaves no link behind |
| Listening.Listener.OnSocketReady | src/DelayedConnection.cxx:45-52 | a client that left is charged 4 tokens and unlinked |
| Listening.Listener.OnClosed | src/Connection.cxx:51-63 | a connection's end unlinks it |
| Listening.Listener.OnCharged | src/net/AccountedClientConnection.cxx:14-19 | a connection's charge reaches its own client only |
| Knocking.SameCredentials | src/KnockListener.cxx:61-70 | a knock is read exactly as the login packet of a TCP connection would be |
| Knocking.KnockListener.OnUdpDatagram | src/KnockListener.cxx:54-84 | 10 tokens iff the datagram has not 62 bytes with 0x80 first, 8 iff the name in bytes 1 to 30 is not printable, else what the database says: a knock if it lets everyone in, a waiting request with the credentials in bytes 1 to 60, or the end of the process; no other client's past changes |
| Knocking.TreatmentSays | src/KnockListener.cxx:59-81 | the same for the outcome alone, in plain numbers, and nothing else is possible |
| Knocking.KnockListener.Knock | src/KnockListener.cxx:54-118 | a readable datagram, a worker and a finished job leave a knock for a right password, and 5 tokens for a wrong one |
| Service.KnocksAndConnects | src/Listener.cxx:38-69 | a new client that has knocked gets in, unless a knock is required and its password was wrong |
| Knocking.KnockListener.OnCheckCredentials | src/KnockListener.cxx:86-118 | a knock if accepted, 5 tokens if not, for this client only; the entry is looked up anew and may be new |
| Knocking.KnockListener.OnDone | src/Database.cxx:121-129 | a request is answered by its own job, with the worker's verdict on its own credentials, and is gone |
| Knocking.KnockListener.Ask | src/KnockListener.cxx:41-48 | what a request's constructor does in each of the database's three answers |

## Left out

* libcommon and the kernel (epoll, splice, sockets, timers, Stock, IntrusiveList, IntrusiveHashSet, ThreadQueue's locking): only the contracts under "Assumptions".
* The order of the intrusive lists: no code looks at it, so they are sets.
* Password hashing and the contents of the Berkeley DB: functions that nothing is known about. `BerkeleyDB::Get` throwing inside the `noexcept` CheckPassword is not modelled.
* The lifetime of the Berkeley DB handle while a worker runs: jobs hold a reference that a reload replaces (src/Database.cxx:80, 86, 93).
* What happens behind a failed assertion in a build with NDEBUG: the model stops with `Aborted`.
* Clients with key 0 (no entry): they are admitted, and no limiter property speaks of them.
* The computation of keys from socket addresses, `HostToString`, nftables, Prometheus text, systemd, logging, command line, configuration: no property of theirs is hard.
* Rounding of `double`, the granularity of timers, failed allocations.
* More than one listener of a kind at a time: each keeps the shared accounting valid and capped, but `Service` has one of either kind.
* Proxy connections and the listener in one run: `ConnectionPool` and `Service` are separate; a connection is known to `Service` by its accounting member alone, and what it may charge is bounded by Metrics.ChargesAreSmall.
* What becomes of the objects after an exception has left the `noexcept` constructor of a knock's request (src/KnockListener.cxx:41-48): the process ends, and so does the run.
* Destruction of whole listeners: connection by connection, `OnClosed` and `Destroy` are what their destructors do.
* The metrics and token charges of `Proxy.Connection` are recorded as a list of calls; `Metrics` and `Listening.Listener.OnCharged` say what each call does.
* A server list without an upper bound on names, and addresses beyond 65520 bytes: modelled, and the limits are part of the results.
* InstanceMetrics.StoryAdds: the knock counters and the counter of delayed connections are not in the tally; Listening.Listener.Judge and the methods of Knocking.KnockListener say exactly when each is incremented.
* Completion of every handshake: SEND_PLAY_SERVER has no timeout, so no liveness is claimed.
