# yggstack: a Dafny model

yggstack runs a Yggdrasil node in userspace and forwards TCP, UDP and SOCKS traffic through it. This
project models the parts of it that are protocols, resource accounting and small languages, and proves
what every run or every input keeps. `dafny verify dfyconfig.toml` checks the whole project; nothing here
is executed.

| file | models |
|---|---|
| `LowPowerProtocol.dfy`, `LowPowerResults.dfy`, `LowPowerManager.dfy` | the low-power manager: the goroutine that owns all transitions, wake requests, the wake listener and its handlers, `Stop` |
| `ActivityProtocol.dfy` | the activity counter and the once-only closes, with UDP loops, sweepers, TCP proxies and SOCKS dials interleaved |
| `UdpCourse.dfy`, `Orphans.dfy`, `LostSession.dfy`, `EarlyClaim.dfy` | the course of packet loops and sweeps in that interleaving: what is served and swept, which sessions are never closed, which are closed too early |
| `UdpTable.dfy` | the UDP session map as objects, refined by a table from source to last activity |
| `Ledger.dfy`, `Lifecycle.dfy` | staged start, rollback, two-phase stop and closers over generations |
| `RstQueue.dfy`, `Nic.dfy` | the deferred-RST queue with its reference counts, and the outbound path around it |
| `MappingSpec.dfy` | the mapping-spec parser, a canonical printer, validation and the mapping lists |
| `Resolver.dfy`, `ConnIds.dfy`, `AcceptLoop.dfy`, `PeerMonitor.dfy`, `ChunkedFile.dfy` | `.pk.ygg` names, connection ids, accept backoff, peer-count callbacks, chunked file serving |
| `Text.dfy`, `Prelude.dfy` | the Go string functions these rest on; `Option` and `Result` |

The three protocols are step relations over one state: every lock region, channel operation, counter
update and callback is a step, and a run is any sequence of enabled steps, so a lemma about `IsRun` is
about every interleaving. Objects that the source updates in place are classes, its loops are loops, and
each method is proved against a function whose properties are lemmas.

Outcomes of sockets, dials, library constructors and timeouts are inputs of a step or method, and clocks are
inputs that do not go back. Some results are negative: the code does not have a property that one could
expect of it. There the condition under which it holds is stated, with a run or input that shows the rest:

- A wake request that meets a sleep attempt whose listener failed starts components that are already
  running (`DoubleStartExactly`, `PowerTellsDoubleStart`, `DoubleStartHappens`); the parts it replaces are
  then never stopped (`StartComponents`).
- `Stop` does not wait for `Run`, so a wake listener may be open after it has returned
  (`ListenerAfterStop`, `StopLeavesListener`).
- A UDP session may stay open and counted for good, after a sweep has removed its key in the name of an
  older session or when its packet loop stored it after the sweeper's last pass (`OrphanExactly`,
  `CounterAtEnd`, `SessionLost`, `LateStoreLost`, `OrphanForever`).
- A sweep may close a session that has just been used, if it was touched between the test and the close
  (`EarlyClaimExactly`, `EarlyClaimHappens`).
- A start that fails at the SOCKS stage forgets its netstack without closing it; the rollback in `New`
  does not (`StartComponents`, `FirstStart`).
- A packet queued after the RST sender has exited keeps its reference (`AllReleasedExactly`,
  `LateEnqueueHappens`).
- A mapping spec with no first address and a bracketed second address with a single colon is rejected
  (`RoundTrip`), and text before a spec with a first address is ignored (`LeadingTokensIgnored`).
- The trailers of a file that has grown past its announced chunks leave the declared keys (`ServeChunked`).

Where documentation and code differ, the model follows the code: the comment on `Close`
(mod/yggstack/yggstack.go:122-123) names the reverse order of initialisation, while the code stops the core
before the netstack; the comment on `ProxyTCP` (src/types/tcpproxy.go:17-18) says that both directions have
finished, while the code also returns on a timeout.

## Model

| member | source | states |
|---|---|---|
| LowPowerResults.AtSelect | mod/lowpower/manager.go:71-167 | on every run, whenever `Run` is at its select: full power means components running and no wake listener; low power means components stopped, and with a SOCKS address a listener unless the last listen failed or `Stop` closed it |
| LowPowerResults.OneListener | mod/lowpower/wake_trigger.go:32-66 | at most one wake listener is open in any run |
| LowPowerResults.DoubleStartExactly | mod/lowpower/manager.go:96-102 | a wake finds components running exactly when, since `Run` was last at its select, the wake listener failed, the restart after it worked, and the drain found a wake request |
| LowPowerResults.PowerTellsDoubleStart | mod/lowpower/manager.go:82-100 | the power state at the entry of a wake, which the select tests and the drain does not, tells whether components will be found running |
| LowPowerResults.DoubleStartHappens | mod/lowpower/manager.go:125-134 | a run that reaches such a start |
| LowPowerResults.OnlyRunConsumes | mod/lowpower/manager.go:80-101 | a token leaves the channel only by the receive of the select or that of the drain |
| LowPowerResults.WakeAnswered | mod/lowpower/manager.go:80-103 | once a token has been taken, the next select point finds full power exactly if no start has returned an error since it was taken |
| LowPowerResults.HandlerHasAsked | mod/lowpower/wake_trigger.go:70-73 | the handler of every wake connection has put a token in the channel before anything else |
| LowPowerResults.NoWakeLost | mod/lowpower/manager.go:171-179 | a wake asked for by a wake connection or another caller: the token stays in the channel until `Run` takes it, and the next select point finds full power or comes after a start made for it that returned an error |
| LowPowerResults.RunGoesOn | mod/lowpower/manager.go:75-105 | `Run` always has a step to make until it has ended, and never waits with a wake request at hand |
| LowPowerResults.DrainLeavesNone | mod/lowpower/manager.go:96-102 | a sleep attempt does not come back to the select with a wake request left |
| LowPowerResults.PendingTokenWakes | mod/lowpower/manager.go:80-89 | a token pending while asleep leaves only by waking or with the end of `Run` |
| LowPowerResults.WaitGroupCounts | mod/lowpower/wake_trigger.go:47-112 | the wait group equals the handlers started and not finished; each finished one has closed its connections; an undecided connection is held by exactly one accept loop |
| LowPowerResults.ConnectionLife | mod/lowpower/wake_trigger.go:47-112 | an accepted connection is dropped for good or goes to one handler and past it, and stays closed once closed |
| LowPowerResults.UnservedExactly | mod/lowpower/wake_trigger.go:80-110 | a finished handler never reached the SOCKS proxy exactly if readiness timed out, it was cancelled, or its dial failed |
| LowPowerResults.HandlerGoesOn | mod/lowpower/wake_trigger.go:70-112 | a handler can always go on until it has finished; while it waits, by readiness, timeout or cancellation |
| LowPowerResults.CutOnlyCancelled | mod/lowpower/wake_trigger.go:98-107 | a proxied connection is cut off before its end only after cancellation |
| LowPowerResults.AcceptsOnlyOpen | mod/lowpower/wake_trigger.go:47-52 | a connection is taken only from an open listener |
| LowPowerResults.DecidesByListener | mod/lowpower/wake_trigger.go:53-62 | an accept loop with a connection in hand counts it exactly if there is a listener, and refuses it exactly if there is none |
| LowPowerResults.NoGrowthWithoutListener | mod/lowpower/wake_trigger.go:54-61 | between the close of the listener and the next re-arm no handler is added |
| LowPowerResults.StopIsFinal | mod/lowpower/manager.go:213-216 | once `Run` has ended and the listener is closed, what `Stop` waits for only shrinks |
| LowPowerResults.ListenerAfterStop | mod/lowpower/manager.go:213-216 | after `Stop` has closed the listener there is one exactly if `Run` has armed one since and not closed it for a wake |
| LowPowerResults.StopLeavesListener | mod/lowpower/wake_trigger.go:39-45 | a run in which `Stop` returns and a listener stays open |
| LowPowerResults.StopWaits | mod/lowpower/wake_trigger.go:130-133 | `Stop` returns only when no handler is under way |
| LowPowerResults.EndsOnlyCancelled | mod/lowpower/manager.go:77-78 | `Run` ends only on cancellation |
| LowPowerResults.SleepsOnlyIdle | mod/lowpower/manager.go:86-96 | the node goes to sleep only in a tick that has read a counter of zero and then found it idle |
| LowPowerResults.NoEarlySleep | mod/lowpower/manager.go:86-96 | it goes to sleep only more than the timeout minus one second after every activity: the start of the manager, a start of the components, a tick with connections open |
| LowPowerResults.TouchHasCause | mod/lowpower/manager.go:91-94 | the activity time is set only after a tick with connections open or a start of the components |
| LowPowerResults.LastTouchIsTouch | mod/lowpower/manager.go:59-61 | the activity time is that of the last time it was set, or of the start of the manager |
| LowPowerResults.LateTickSleeps | mod/lowpower/manager.go:86-116 | a tick at full power with a counter of zero goes on to the idle test, which puts the node to sleep once a second more than the timeout has passed since the activity time was last set |
| LowPowerResults.IdleBounds | mod/lowpower/manager.go:59-65 | the idle test in whole seconds against the exact time since the last touch |
| LowPowerResults.TimeoutOfRun | mod/lowpower/manager.go:36-43 | the timeout is the configured one, or 60 seconds in place of none |
| LowPowerProtocol.StepKeepsInv | mod/lowpower/manager.go:71-216 | every step of every goroutine keeps the invariant of owner and trigger |
| LowPowerProtocol.EveryRun | mod/lowpower/manager.go:40-216 | every state of every run satisfies it |
| LowPowerManager.ManagerObj.TransitionToLowPower | mod/lowpower/manager.go:112-140 | power, components, listener and activity time for each outcome of listen and restart, whatever other goroutines do meanwhile |
| LowPowerManager.ManagerObj.DoTransitionToFullPower | mod/lowpower/manager.go:144-167 | the same for each outcome of start and re-listen |
| LowPowerManager.ManagerObj.StartWakeTrigger | mod/lowpower/wake_trigger.go:32-50 | a new listener becomes the current one unless `Stop` closes it at once; a failure leaves none |
| LowPowerManager.ManagerObj.TransitionToFullPower | mod/lowpower/manager.go:174-179 | never blocks; leaves the token in the channel |
| LowPowerManager.ManagerObj.Tick | mod/lowpower/manager.go:86-104 | a tick leads to a sleep attempt exactly if the counter read is zero and the idle test holds, and what it comes to for each set of outcomes; a request queued before the tick is found by the drain |
| LowPowerManager.ManagerObj.Wake | mod/lowpower/manager.go:80-84 | the token is consumed and the node is awake unless the start failed |
| ActivityProtocol.CounterConserved | mod/activity/tracked_conn.go:21-30 | in every interleaving the counter equals the connections open or closing, no id is reported twice, and ids are reported exactly when their close got that far |
| ActivityProtocol.StepKeepsInv | mod/mapping/udp.go:66-180 | every step keeps the tally, the reports and what each loop and sweeper holds |
| ActivityProtocol.MovesAreLegal | mod/mapping/tcp.go:78-95 | a connection only goes announced, open, claimed, reported, closed |
| ActivityProtocol.StepKeepsMapped | mod/mapping/udp.go:168-177 | a step leaves every open session in its map exactly if it is not the removal of a key that maps to a newer open session |
| ActivityProtocol.MappedUntilLost | mod/mapping/udp.go:88-134 | in any run an open session is missing from the map only after such a removal |
| Orphans.OrphanExactly | mod/mapping/udp.go:66-180 | when its packet loop and sweeper have ended, a session is still open exactly if no write to it failed and a sweep removed its key in the name of an older session or it was stored after the last pass |
| Orphans.CounterAtEnd | mod/mapping/udp.go:141-167 | with all goroutines ended the counter is the number of such sessions, so zero exactly if there are none |
| Orphans.Elsewhere | mod/mapping/udp.go:141-153 | away from its own loop and sweeper a session is left alone, but for the course of a close already begun |
| UdpCourse.DatagramServed | mod/mapping/udp.go:88-133 | before a packet loop reads again or ends, the datagram in hand has been written to a session of its own source or a dial for it has failed |
| UdpCourse.LoopGoesOn | mod/mapping/udp.go:88-134 | a packet loop that has not ended can go on, or waits for a close that can |
| UdpCourse.SweepGoesOn | mod/mapping/udp.go:160-178 | a sweeper in a pass can go on, or waits for a close that can |
| UdpCourse.SweptUnlessTouched | mod/mapping/udp.go:168-177 | a session that a tick finds idle is no longer open after the pass, unless its packet loop touched it in between |
| UdpCourse.EndsOnlyCancelled | mod/mapping/udp.go:90-167 | a packet loop ends, and a sweeper begins its last pass, only after cancellation |
| UdpCourse.LastIsActivity | mod/mapping/udp.go:123-128 | the time of last activity is that of the session's creation or of a datagram |
| LostSession.SessionLost | mod/mapping/udp.go:116-177 | a run of the first kind: all goroutines ended, one session open, counter at one |
| LostSession.LateStoreLost | mod/mapping/udp.go:105-167 | a run of the second kind, in which no key is ever removed |
| EarlyClaim.EarlyClaimExactly | mod/mapping/udp.go:168-177 | a tick begins to close a session idle for at most the timeout exactly if it was touched between the test and the close, no longer than the timeout before |
| EarlyClaim.EarlyClaimHappens | mod/mapping/udp.go:128-173 | a run in which a session is closed at the moment of its last activity |
| ExpiryTable.EntryExactly | mod/mapping/udp.go:101-177 | a source has a session exactly if its last delivered datagram was followed by no failed write and by no sweep more than the timeout later, and its time is that of the datagram |
| ExpiryTable.BusyNeverSwept | mod/mapping/udp.go:128-171 | a source heard of within the timeout before every sweep is never swept |
| ExpiryTable.NeverSweptEarly | mod/mapping/udp.go:171-171 | with a sweep as one step, no session idle for at most the timeout is swept |
| ExpiryTable.SweptInTime | mod/mapping/udp.go:157-178 | with ticks at most a period apart, an untouched session is closed within timeout + 1 ms + period |
| ExpiryTable.UntouchedKeepsTime | mod/mapping/udp.go:168-177 | without datagrams a source keeps its time or is swept as idle |
| UdpForwarding.UdpLoop.HandleDatagram | mod/mapping/udp.go:88-133 | the map changes as the table does; a datagram goes to the session of its own source, new or old, unless the dial fails |
| UdpForwarding.UdpLoop.Deliver | mod/mapping/udp.go:128-133 | touch and write; a failed write closes and unmaps the session |
| UdpForwarding.UdpLoop.CloseSession | mod/mapping/udp.go:141-153 | only the first close has an effect |
| UdpForwarding.UdpLoop.Snapshot | mod/mapping/udp_session_func.go:24-38 | every entry of the map once |
| UdpForwarding.UdpLoop.SweepIdle | mod/mapping/udp.go:168-177 | as one step, a sweep closes and unmaps exactly the idle sessions |
| UdpForwarding.UdpLoop.CloseAll | mod/mapping/udp.go:162-167 | the pass on cancellation closes every session stored before it, and their count is back |
| UdpForwarding.UdpLoop.Run | mod/mapping/udp.go:66-180 | over any run of datagrams and sweeps the map is the expiry table, holding exactly the open sessions |
| LostSession.OrphanForever | mod/mapping/udp.go:155-167 | such a session is never closed and the counter never returns to zero |
| Lifecycle.Obj.StartComponents | mod/yggstack/func.go:13-57 | up for the configuration or all down; with a SOCKS address a new ready channel, closed exactly if the start works; from any state, a start drops unclosed exactly the parts in use that the stages it reaches replace or clear, and one that fails also the netstack then in use: a new one exactly at the SOCKS stage, else the old one; from the stopped state a part is dropped exactly if it fails at the SOCKS stage |
| Lifecycle.StartWorksExactly | mod/yggstack/func_init.go:19-135 | a start works exactly if each call it makes works |
| Lifecycle.Obj.FirstStart | mod/yggstack/yggstack.go:70-99 | the rollback in `New` drops nothing |
| Lifecycle.Obj.RunStages | mod/yggstack/func.go:43-54 | the stages in order, each only if those before it worked |
| Lifecycle.Obj.InitCore | mod/yggstack/func_init.go:19-47 | core in use exactly if made; a key error leaves the field alone |
| Lifecycle.Obj.InitAdmin | mod/yggstack/func_init.go:49-64 | admin in use exactly if configured and made |
| Lifecycle.Obj.InitMulticast | mod/yggstack/func_init.go:66-93 | skipped without a logger; a regex error leaves the field alone |
| Lifecycle.Obj.InitNetworking | mod/yggstack/func_init.go:95-135 | monitor, netstack, SOCKS listener; no ready channel is closed twice |
| Lifecycle.Obj.StartSocks | mod/mapping/socks.go:92-146 | the ready channel is closed exactly when the listener is up |
| Lifecycle.Obj.RollbackComponents | mod/yggstack/func.go:164-185 | every part in use is stopped once, in the code's order |
| Lifecycle.Obj.SignalStop | mod/yggstack/func.go:61-84 | every closer registered so far has been closed, in order |
| Lifecycle.Obj.TearDown | mod/yggstack/func.go:91-118 | the remaining parts are stopped once, core before netstack, and all fields are nil |
| Lifecycle.Obj.AddCloser | mod/yggstack/struct.go:67-71 | every closer is closed or in the list, in order of registration |
| Lifecycle.Obj.Run | mod/yggstack/func.go:13-185 | over any run of starts, stops and registrations: down or up at rest; each start with a SOCKS proxy has its own ready channel, closed exactly if it works; if starts are made from the stopped state, one netstack is dropped for each SOCKS-stage failure and nothing else, and every other part opened is stopped exactly once or in use |
| Lifecycle.PartsStoppedOnce | mod/yggstack/func.go:61-118 | while only netstacks were dropped, each core, admin, multicast, monitor and SOCKS listener opened is stopped exactly once or in use |
| Ledger.ClosedExactlyOnce | mod/yggstack/func.go:163-185 | what the record of openings and closings means for one instance |
| RstQueue.EveryRun | src/netstack/yggdrasil.go:84-106 | references are conserved, at most 101 are out through queue and sender, packets leave in the order they entered |
| RstQueue.OfferDecided | src/netstack/yggdrasil.go:201-206 | a writer queues its packet exactly if there is room and gives it up exactly if there is none |
| RstQueue.SenderGoesOn | src/netstack/yggdrasil.go:84-106 | the sender waits only at its select, with no packet queued and no close signal |
| RstQueue.AllReleasedExactly | src/netstack/yggdrasil.go:88-98 | with no writer at its select, every reference is back exactly if no packet was queued after the step at which the sender ended; those not back are those of the packets queued later |
| RstQueue.LateEnqueueStays | src/netstack/yggdrasil.go:201-206 | after the sender's exit the queue only grows, by what is queued |
| RstQueue.LateEnqueueHappens | src/netstack/yggdrasil.go:88-98 | a run that leaves a packet there |
| Nic.YggdrasilNic.WritePackets | src/netstack/yggdrasil.go:193-218 | the processed prefix is written in order, queued or dropped, and the count returned matches |
| Nic.RstsExactly | src/netstack/yggdrasil.go:197-209 | the packets put off are those of TCP without data and with the RST flag, in order |
| Nic.WireExactly | src/netstack/yggdrasil.go:210-217 | the packets on the wire are the others whose write worked, in order |
| Nic.StopsAtFirstAbort | src/netstack/yggdrasil.go:211-214 | a batch stops at the first packet written at once whose write aborts |
| Nic.DeferAllShape | src/netstack/yggdrasil.go:197-209 | the first RSTs of a batch fill the free slots in order; the rest are dropped with their reference given back |
| Nic.YggdrasilNic.Close | src/netstack/yggdrasil.go:237-245 | close returns with the queue split into sent and discarded packets, in order, and every reference back; later calls do nothing |
| MappingSpec.RoundTrip | src/types/mapping.go:10-163 | printing then parsing gives the spec back exactly unless it has no first address and a second address with one colon |
| MappingSpec.LeadingTokensIgnored | src/types/mapping.go:131-155 | whatever stands before a spec with a first address is ignored |
| MappingSpec.PrintInjective | src/types/mapping.go:10-163 | no two readable specs print alike |
| MappingSpec.OnePort | src/types/mapping.go:19-25 | a number alone is that port on both sides, if in range |
| MappingSpec.MappingOfOnePort | src/types/mapping.go:172-205 | a local list rejects a port alone for want of a destination; a remote list maps it to the same local port |
| MappingSpec.HostPortExactly | src/types/mapping.go:43-81 | what the host-and-port form of three and four tokens takes |
| MappingSpec.PortsComeFromText | src/types/mapping.go:19-155 | both ports of an accepted value are numbers that stand in it, the second at its end |
| MappingSpec.IPv4Exactly | src/types/mapping.go:178-181 | which addresses a local list refuses as IPv4 |
| MappingSpec.TakeAddressPrinted | src/types/mapping.go:96-116 | the reverse walk recovers a printed address whatever stands before it |
| MappingSpec.Parse | src/types/mapping.go:158-160 | accepted ports are in range |
| MappingSpec.ParseMappingString | src/types/mapping.go:10-163 | the parser's branches and loops compute `Parse` |
| MappingSpec.ParseFromEnd | src/types/mapping.go:83-156 | the long branch computes `ParseLong` |
| MappingSpec.WalkBack | src/types/mapping.go:96-111 | the loop finds the last opening token |
| MappingSpec.LocalMappingOfPrinted | src/types/mapping.go:166-208 | which printed specs a local list takes, and as what |
| MappingSpec.RemoteMappingOfPrinted | src/types/mapping.go:166-208 | which printed specs a remote list takes, and as what |
| MappingSpec.Mappings.Set | src/types/mapping.go:221-290 | a value is appended whole or leaves the list alone; local destinations are never IPv4, remote listeners have no address |
| Resolver.ResolveKeyName | src/types/resolver.go:47-65 | every name built from a key, in either case and under any subdomain, reaches the address function with that key |
| Resolver.OnlyKeyNamesResolve | src/types/resolver.go:48-65 | no other name under the suffix resolves |
| Resolver.KeyUnique | src/types/resolver.go:49-58 | a name determines its key |
| Resolver.OtherNames | src/types/resolver.go:66-78 | a literal address is itself; any other name without the suffix gives the first address looked up |
| Resolver.HexRoundTrip | src/types/resolver.go:55-58 | decoding is the inverse of writing in hex |
| ConnIds.CollisionExactly | mod/activity/tracked_conn.go:34-46 | two ids of a run agree exactly when prefix and address do and the calls are a multiple of 2^64 apart |
| ConnIds.IdsDistinct | mod/activity/tracked_conn.go:34-46 | ids of up to 2^64 calls are pairwise distinct |
| ConnIds.IdDetermines | mod/activity/tracked_conn.go:39-45 | an id gives back its stem and its counter |
| ConnIds.Generator.Generate | mod/activity/tracked_conn.go:37-46 | the id of the next counter value |
| ConnIds.Generator.GenerateAll | mod/activity/tracked_conn.go:37-46 | a run of calls gives the ids of consecutive counter values |
| AcceptLoop.Serve | mod/mapping/tcp.go:49-95 | over any run of accepts and errors each delay is the closed form of its streak; each accepted connection is proxied or refused; the counter rises by those proxied |
| AcceptLoop.DelayShape | mod/mapping/tcp.go:14-17 | the delay never falls within a streak, stays between the constants, and reaches the upper one with the ninth error |
| AcceptLoop.NextRetry | mod/mapping/tcp.go:57-64 | the doubling step follows the closed form |
| AcceptLoop.StreakIsMaximal | mod/mapping/tcp.go:49-76 | the streak is the longest run of transient errors up to that event |
| PeerMonitor.Monitor.Poll | mod/peers/monitor.go:71-88 | the callbacks are the poll history without consecutive repeats, the initial zero pair left out |
| PeerMonitor.Monitor.PollAll | mod/peers/monitor.go:48-88 | the same for any sequence of polls |
| PeerMonitor.DedupPrefix | mod/peers/monitor.go:83-87 | at any moment the last pair reported is the current one |
| PeerMonitor.DedupCounts | mod/peers/monitor.go:83-87 | as many pairs are kept as the history has changes, and the first |
| PeerMonitor.ConnectedAreUp | mod/peers/monitor.go:75-82 | connected peers are those that are up |
| PeerMonitor.CountsOf | mod/peers/monitor.go:75-82 | connected peers never exceed all peers |
| ChunkedFile.ServeChunked | cmd/embedded/http/handler_ygg.go:140-186 | one write and one hash per chunk read, each trailer declared, exactly if what was read has not outgrown the announced chunks |
| ChunkedFile.WriteChunks | cmd/embedded/http/handler_ygg.go:156-180 | the read loop with one reused buffer writes and hashes each chunk of the file, up to its end or a read error |
| ChunkedFile.SetTrailers | cmd/embedded/http/handler_ygg.go:182-185 | each hash under its own key |
| ChunkedFile.ChunksReassemble | cmd/embedded/http/handler_ygg.go:148-180 | the chunks concatenate to the file, all but the last are full, and their number is the announced one |
| ChunkedFile.UnchangedFileFits | cmd/embedded/http/handler_ygg.go:148-152 | an unchanged file has exactly the declared number of trailers |
| Text.SplitConcat | src/types/mapping.go:14-14 | splitting two texts joined by the separator splits each |
| Text.AtoiDecimal | src/types/mapping.go:20-20 | a printed port is read back |
| Text.AtoiSigned | src/types/mapping.go:20-20 | a port may have a sign |
| Text.AtoiLeadingZero | src/types/mapping.go:20-20 | and leading zeros |
| Text.AtoiTooBig | src/types/mapping.go:20-20 | a number beyond 64 bits is not read |
| Text.DecimalCanonical | mod/activity/tracked_conn.go:44-44 | numbers are written without leading zeros |

## Left out

- Lifecycle.Obj.Run: counts what is dropped over runs whose starts are all made from the stopped state; a start on running components is covered one at a time, by `StartComponents`. `DoubleStartExactly` says when the manager makes one.
- Lifecycle.Obj.TearDown: does not model the wait for component goroutines or the time limits on stopping; a stop that times out counts as made. Deadlock freedom of the wait is not stated.
- Lifecycle.Obj.InitCore: the option lists built in loops for the library constructors are not modelled; a failing constructor leaves its field empty.
- Nic.YggdrasilNic.WritePackets: runs without interference, as does `Close`; interleaving with the sender and with other writers is in `RstQueue.EveryRun`.
- UdpForwarding.UdpLoop.SweepIdle: takes a sweep as one step, as do `UdpForwarding.UdpLoop.Run` and `UdpForwarding.UdpLoop.CloseAll`; interleaving is in `ActivityProtocol`, and what it changes in `Orphans` and `EarlyClaim`.
- ExpiryTable.NeverSweptEarly: false under interleaving; `EarlyClaim.EarlyClaimExactly` says when.
- ActivityProtocol.CounterConserved: a TCP or SOCKS connection is one entry with its once-only close; who calls the close first is not tracked.
- LowPowerProtocol.EveryRun: the readiness channel is not modelled by generation, so a handler may go on at any time it waits; whole-second arithmetic is unbounded, while the source's overflows after 292 years of idling.
- `ReverseProxyUDP`, data copying in `ProxyTCP`, MTU and buffers: traffic contents are not modelled.
- gVisor, ipv6rwc, the Yggdrasil core, admin, multicast, go-socks5, zstd and blake3: library code, taken as operations that may fail or as function parameters; `net.ParseIP` and the key-to-address function are parameters too.
- DNS lookup in `Resolve`: a parameter.
- Real sockets, unix socket files, symlink checks and errno classification: operating-system behaviour.
- The monitor's ticker period, peer add and remove wrappers, `GetPeers`: thin wrappers.
- Command-line and demo programs, mobile bindings, configuration files, logging, web pages: plumbing.
