# mDNS responder and frame-buffer drawing: a verified model

This project models three parts of the firmware and proves properties of them.

**The mDNS responder** (`components/mdns/mdns.c`), an implementation of RFC 6762 and RFC 6763.

- `Packets`, `Scheduler`: the list of packets to transmit, the timer that marks due packets and
  the action queue through which the service task takes them.
- `Answers`, `Responder`: the answer lists, and the responder as one transition system of PCBs
  (interface and protocol), service registry, packet list and action queue.
  `ResponderKeeps`, `InterfaceKeeps`, `TransmitKeeps` and `ServiceRemoval` prove that each operation
  keeps the invariant `Responder.Sound`; `HostRemoval` does so for delegated hosts. `PacketEntries` and
  `OperationEffects` say what the packets hold and what the operations change. `ResponderRuns`,
  `ProbeHistory`, `AnnounceHistory` and `QuestionRefs` draw the conclusions for every run.
  `ResponderCode` holds the loops and the updates of the global state as methods of a class, proved
  against the functions.
- `Names`, `NameWriter`, `NameRoundTrip`: the pointer-following name reader and the compressing
  name writer; `NameSize`: both at the end of the packet. `Txt`, `Records`, `RecordParser`: TXT data,
  resource records with their back-patched lengths, questions, and the parser's walk over a packet.
  `PacketCode` holds the same on an array with an index.
- `KnownAnswers`, `ReplyEntries`: the answer to a query; `KnownPackets`: what the known answers of a
  query do to its questions. `Collision`, `Mangle`: who gives way in a conflict, and the new name.
  `Search`: the results of a search.

**The interface layer** (`components/mdns/mdns_networking_lwip.c`): `Netif`, the ready PCBs and the
shared socket.

**Frame-buffer drawing** (`components/st7789/st7789.c`, `components/st7789/fontx.c`): `Raster` (lines),
`Cursor` (circles, saved rectangles, the cursor), `Glyph` (font patterns).

Pointers to services, hosts and packets are numbers. Where the source walks a linked list, the model
walks a sequence; where it fills a buffer, the model fills an array.

## Hypotheses

- Memory allocation succeeds, except for the announcement made from a probe packet
  (`components/mdns/mdns.c:5150-5157`), whose failure the source handles by probing on.
- The millisecond clock does not wrap.
- A newly allocated packet does not have the address of a packet that is still in the list. It may
  have the address of one that has left the list; what that does to pending actions is stated by
  `Scheduler.InsertExact`.
- In a timer run the sends to the action queue fail, if any do, after those that succeed. Without
  it the packet list can stop for good (`Scheduler.StrandedReachable`).
- Received packets come in on PCBs that are up; `ResponderRuns.ProbeNeedsUp` says what this decides.
- At most 255 services are registered (the configured limit is 10 by default), the length of a
  probe list being one byte.
- Interfaces are declared duplicates of each other in pairs.
- In names, `_mdns_append_fqdn` reads whatever the static packet buffer still holds behind the index.
  The theorems hold for any such bytes, given that the candidate on which the search settles ends
  before the name that is being written (`NameRoundTrip.Settled`, `NameRoundTrip.Points`).
- `CONFIG_MDNS_RESPOND_REVERSE_QUERIES` is off, and the panel is narrower and lower than 32768 pixels,
  the range of the loop variables.

## Where the code falls short of its purpose

Each of these is a lemma at an input or at a family of inputs, and beside it stands the condition, an
if-and-only-if, under which the code does what it is for.

| what happens | input | condition |
|---|---|---|
| A failed send before one that succeeds strands a marked packet at the head of the list. | `Scheduler.StrandedReachable` | `Scheduler.TimerKeeps` |
| Removing a service leaves questions of scheduled packets that borrow its strings: the one for its host name whenever addresses are probed, and its own if another service of its type comes first, whose question goes instead. | `QuestionRefs.HostQuestionStays`, `QuestionRefs.WrongQuestionGoes` | `QuestionRefs.RemovalForgets`, `QuestionRefs.ProbeForgets`, over runs `QuestionRefs.RunRefs` |
| Answers that fall due while a PCB announces move its state on and are sent again, so the announcement may go out once only. | `AnnounceHistory.AnnouncedOnce` | `AnnounceHistory.AnnouncedTwice`, `AnnounceHistory.TwiceWithoutAnswers` |
| A host called `local` is written as a pointer to itself. | `NameRoundTrip.LocalHostIsUnreadable` | `NameRoundTrip.RoundTrip` |
| The search for a compression target ignores `_sub`, so an instance called like a subtype becomes a pointer to the subtype name. | `NameRoundTrip.SubtypeExample` | `NameRoundTrip.LabelsRoundTrip` |
| Labels of more than 63 bytes are accepted and cannot be read. | `NameRoundTrip.LongHost` | `NameRoundTrip.LongLabels` |
| A name cut short by the end of the packet is reported as written, and so is a record with such a name. | `NameSize.NameCutShort` | `NameSize.WholeName`, `NameSize.PtrAtEnd` |
| A record that fails leaves its owner name behind. | `NameSize.FailureLeavesOwner` | `NameSize.PtrAtEnd` and its counterparts |
| A TXT item without a value, unless it is the last, makes the parser lose the items behind it. | `Txt.LateParse` | `Txt.TxtRoundTrip` |
| A known answer about a service registered without an instance takes the question out, whatever its TTL, and silences every service of the type. | `KnownPackets.OneAnswerSilences` | `KnownPackets.AlwaysAgrees`, `KnownPackets.TypeAlwaysAgrees`, for one packet `KnownPackets.TypeAgrees` |
| In the loop over what is left of the questions, known answers for the default instance name do not count. | `KnownAnswers.DefaultInstanceIsNotSuppressed` | `KnownAnswers.SuppressedAsCovered` |
| A known answer with exactly half the TTL does not count there. | `KnownAnswers.HalfIsTooLittle` | `KnownAnswers.CountsAsCovered` |
| The list of all hosts leaves out the first delegated host and ends with an entry for no host. | `KnownAnswers.OneDelegatedHost` | `KnownAnswers.HostListRight` |
| The conflict comparison puts the length before the bytes; both hosts still agree on the loser (`Collision.SrvOneLoser`). | `Collision.ShorterNameLoses` | `Collision.VerdictAgrees`, `Collision.SrvAgrees` |
| PTR records for different instances of one type share one search result. | `Search.TwoInstancesOneResult` | `Search.InstancesMerge` |
| Removing a delegated host leaves scheduled entries that refer to it. | `HostRemoval.FreedHostStays` | `HostRemoval.HostFreed` |
| In a search for services an address reaches one result only, although instances may share a host. | `Search.SecondInstanceLearnsNothing` | `Search.OnlyFirstLearns` |
| PTR records for the root name leave results that nothing tells apart. | `Search.RootNameTwice` | `Search.RunUnique`, `Search.UnlimitedUnique` |
| The result counter of a search without a limit wraps. | `Search.CounterWraps` | `Search.CounterIsExact` |
| A cursor within its radius of the left or upper edge is not taken away again. | `Cursor.EdgeCursorStays` | `Cursor.UndoneExactly`, `Cursor.UndoneWhen` |

`Records.Framed`, the relation between a record's fields and the bytes behind them, also holds of records
whose names are cut short; `NameSize.PtrAtEnd` says when they are complete.

## Model

| member | source | states |
|---|---|---|
| `Scheduler.InsertPlace` | components/mdns/mdns.c:1588-1606 | A scheduled packet goes behind everything not later than it and in front of everything later, so packets due at the same time keep their order. |
| `Scheduler.InsertKeeps` | components/mdns/mdns.c:1588-1606 | Scheduling keeps the list sorted, the marked packets in front and their pending actions in order; it adds one packet and marks none. |
| `Scheduler.InsertExact` | components/mdns/mdns.c:1588-1606 | The pending actions still describe exactly the marked packets if and only if no pending action holds the address of the new packet. |
| `Scheduler.WithoutThins` | components/mdns/mdns.c:1627-1647 | Clearing a PCB takes out all its packets and no other, in order. |
| `Scheduler.ThinnedKeeps` | components/mdns/mdns.c:1627-1647 | Taking packets out of the list at any place keeps the list invariant. |
| `Scheduler.ThinnedExact` | components/mdns/mdns.c:1627-1647 | Taking packets out leaves no marked packet without its action and no action for an unmarked listed packet. |
| `Scheduler.TakeKeeps` | components/mdns/mdns.c:5300-5311 | Taking one transmit action, whether it names the head or is skipped, keeps the list invariant. |
| `Scheduler.TakeExact` | components/mdns/mdns.c:5300-5311 | An action is skipped if and only if its packet has left the list meanwhile. |
| `Scheduler.TimerKeeps` | components/mdns/mdns.c:5370-5402 | A timer run keeps the invariant if and only if no send to the action queue succeeds after one has failed in the same run. |
| `Scheduler.RunOrderly` | components/mdns/mdns.c:5370-5402 | On every run of scheduling, clearing, timer and transmit steps whose sends fail only at the end of a timer run, the list is sorted, the marked packets are its front and their actions are pending in the same order. |
| `Scheduler.HeadIsTransmitted` | components/mdns/mdns.c:5300-5311 | A marked head is transmitted by an action that is already pending; the actions in front of it are all skipped. |
| `Scheduler.StrandedForever` | components/mdns/mdns.c:5370-5402 | A due, marked head without an action stays at the head on every later run that does not remove it, and nothing is transmitted until then. |
| `Scheduler.StrandedReachable` | components/mdns/mdns.c:5370-5402 | Such a state is reachable from the start by six steps with one failed send between two packets: the invariant needs the condition of TimerKeeps. |
| `Scheduler.Transmitter.SchedulePacket` | components/mdns/mdns.c:1588-1606 | The walk through the linked list inserts where the specification inserts. |
| `Scheduler.Transmitter.ClearPcb` | components/mdns/mdns.c:1627-1647 | The two loops remove exactly the packets of the PCB. |
| `Scheduler.Transmitter.RunTimer` | components/mdns/mdns.c:5370-5402 | Skipping the marked packets and marking, sending and unmarking the due ones gives the specified list and action queue. |
| `Scheduler.Transmitter.TakeAction` | components/mdns/mdns.c:5300-5311 | The head is detached and returned exactly when the action names it and it is marked. |
| `Answers.AllocAnswer` | components/mdns/mdns.c:1733-1758 | The entry is in the list afterwards, earlier entries stay, and no (type, service, host) triple stands twice. |
| `Answers.AllocHas` | components/mdns/mdns.c:1733-1758 | Exactly the triple is added if it was missing, with the flags that were asked for; what was there keeps its own. |
| `Answers.CreateProbeCovers` | components/mdns/mdns.c:2112-2161 | A probe packet has an SRV entry for each requested service, addresses when asked for, and refers to no other service. |
| `Answers.AnnounceEntriesCover` | components/mdns/mdns.c:2196-2231 | The announcement made from a probe packet holds the four service records of every service the probe was about, and of no other. |
| `PacketEntries.CreateProbeHas` | components/mdns/mdns.c:2112-2161 | Section 8.1 of RFC 6762: the exact entries of a probe packet, none of them flushing or a goodbye; it asks for any record of each service under its type and instance and, with the addresses, of each host, all with the same unicast bit. |
| `PacketEntries.CreateAnnounceHas` | components/mdns/mdns.c:2166-2191 | The exact entries of an announcement: the four records of each service and, if asked for, A and AAAA of their hosts; none is a goodbye, and exactly SRV, TXT, A and AAAA flush. |
| `PacketEntries.AddToAnnounceHas` | components/mdns/mdns.c:2459-2475 | The exact entries that a scheduled announcement gains, with the same flags; it loses at most the first A and the first AAAA of its additional records. |
| `PacketEntries.FromProbeHas` | components/mdns/mdns.c:2196-2231 | The exact entries of the announcement made from a probe, with the same flags. |
| `PacketEntries.ProbedIsAnnounced` | components/mdns/mdns.c:2112-2231 | From one to the other: the announcement has the four records of exactly the services that were probed, and A and AAAA of their hosts, or of the responder if only the addresses were probed. |
| `PacketEntries.ProbeStarts` | components/mdns/mdns.c:2260-2351 | Where a probe starts: one packet, which asks and speaks for exactly what is being probed, asks for unicast answers, and waits 120 ms, or a second after more than five lost conflicts. |
| `PacketEntries.ProbeGoesOn` | components/mdns/mdns.c:5136-5150 | A probe that has been sent goes back as it was, 250 ms later; from the second time on it asks for multicast answers. |
| `ResponderCode.AllocAnswerScan` | components/mdns/mdns.c:1733-1758 | The scan of the list finds the entry or appends it. |
| `ResponderCode.CreateProbePacket` | components/mdns/mdns.c:2112-2161 | The loops over the services build the specified probe packet. |
| `ResponderCode.CreateAnnounceFromProbe` | components/mdns/mdns.c:2196-2231 | The loop over the probe entries builds the specified announcement. |
| `ResponderKeeps.InitProbeList` | components/mdns/mdns.c:2260-2351 | After a probe starts, the probe list is the duplicate-free union of the old list and the requested services, old entries behind new ones, and the byte that counts it does not truncate. |
| `ResponderKeeps.InitProbeKeeps` | components/mdns/mdns.c:2316-2351 | Starting a probe on a PCB that is up keeps the invariant of the whole responder and leaves the PCB exactly one packet, or none while the responder has no host name. |
| `ResponderKeeps.ReprobeKeeps` | components/mdns/mdns.c:2494-2511 | Probing again with the old list cleared first keeps the invariant. |
| `InterfaceKeeps.AnnounceKeeps` | components/mdns/mdns.c:2451-2489 | Announcing keeps the invariant of the whole responder in every state of the PCB. |
| `InterfaceKeeps.AnnounceReaches` | components/mdns/mdns.c:2451-2489 | On a named PCB that is up, announcing leaves a packet with an entry or the four records for every one of the services: a probe while it probes, a new announcement while it runs; while it announces, its first scheduled packet, which keeps its answers and its time and may itself be an answer to a query. A new announcement is due at once. |
| `InterfaceKeeps.EnableKeeps` | components/mdns/mdns.c:4373-4382 | Enabling a PCB keeps the invariant whether or not its interface can be opened. |
| `InterfaceKeeps.DisableKeeps` | components/mdns/mdns.c:4387-4401 | Disabling a PCB, with the second chance for a waiting duplicate, keeps the invariant. |
| `InterfaceKeeps.MarkDupKeeps` | components/mdns/mdns.c:3030-3048 | Marking a PCB as duplicate and announcing on its partner keeps the invariant. |
| `TransmitKeeps.ActionKeeps` | components/mdns/mdns.c:5124-5179 | Transmitting a packet and moving the PCB to its next state keeps the invariant from every state, also when the announcement cannot be allocated. |
| `TransmitKeeps.AnswerKeeps` | components/mdns/mdns.c:4310-4312 | An answer is scheduled only behind the guard that keeps it out of probing, so a probing PCB still has exactly its probe packet. |
| `TransmitKeeps.SuppressKeeps` | components/mdns/mdns.c:1670-1699 | Removing a scheduled answer keeps the invariant: an announcement keeps something to announce. |
| `TransmitKeeps.TimerRunKeeps` | components/mdns/mdns.c:5370-5402 | A timer run keeps the invariant of the whole responder. |
| `TransmitKeeps.AddServiceKeeps` | components/mdns/mdns.c:6018-6058 | Adding a service puts it in front of the registry, changes no PCB and no packet, and keeps the invariant, even if it takes the address of a removed one: no answer entry refers to that one any more. |
| `ResponderRuns.StepKeeps` | components/mdns/mdns.c:5257-5339 | Every event that the service task or the timer can process keeps the invariant. |
| `ResponderRuns.RestartAllKeeps` | components/mdns/mdns.c:2610-2632 | Restarting everything throws all packets away; every PCB that is up is in the first probe state for all services and the addresses, with one packet that speaks for all of them, and there is no other packet. |
| `ResponderRuns.RunPromises` | components/mdns/mdns.c:5257-5339 | In every reachable state: probe_running holds exactly in the three probe states; outside them the probe list is empty; a probing PCB has one packet, without answers, about all its probes; an announcing PCB has a packet; a PCB that is not up has none; a duplicate is not up while its partner is, and partners are never both duplicates; the answer entries of scheduled packets refer to registered services only. (Their questions are the subject of QuestionRefs.RunRefs.) |
| `ResponderRuns.FromStart` | components/mdns/mdns.c:5257-5339 | The same for every run from the start of the responder. |
| `OperationEffects.EnableExact` | components/mdns/mdns.c:4373-4382 | A PCB that can be opened is up and probes for the registry and the addresses with one packet, or runs while there is no host name; one that cannot stays down; no other PCB is touched. |
| `OperationEffects.DisableExact` | components/mdns/mdns.c:4387-4401 | The PCB is down, off, as at the start and without a packet; only a duplicate that waited for it is touched beside it. |
| `OperationEffects.MarkDupExact` | components/mdns/mdns.c:3030-3048 | Nothing happens unless the partner is up; if it is, the PCB waits without a packet and the partner probes for its addresses or announces them. |
| `OperationEffects.SuppressExact` | components/mdns/mdns.c:1670-1699 | Of each scheduled reply to a truncated query on the PCB the first matching answer goes, and nothing else. |
| `OperationEffects.AnswerExact` | components/mdns/mdns.c:4310-4312 | An answer is scheduled after its delay, exactly on a PCB that announces or runs. |
| `OperationEffects.ConflictsCount` | components/mdns/mdns.c:4086 | Lost conflicts are counted in sixteen bits and change nothing else. |
| `ResponderRuns.ProbeNeedsUp` | components/mdns/mdns.c:2316-2351 | A probe keeps the invariant if and only if its PCB is up; the code that starts one for a received packet does not check. |
| `ResponderRuns.DisableRetries` | components/mdns/mdns.c:4387-4401 | Disabling a PCB always retries a duplicate that waited for it: it is no duplicate afterwards, and it is up exactly if its interface could be opened. |
| `ProbeHistory.RunHistory` | components/mdns/mdns.c:5124-5179 | On every run the dispatched probe packets of each PCB match its state. |
| `ProbeHistory.ThreeProbes` | components/mdns/mdns.c:5124-5161 | Section 8.1 of RFC 6762: when a PCB goes from probing to announcing, the same probe packet has been dispatched in each of the three probe states since probing last started, each time more than 250 ms after the time before. |
| `ServiceRemoval.DropEntriesExact` | components/mdns/mdns.c:2757-2777 | Every answer of the service goes; the entries of each other service, and of none, stay in order. |
| `ServiceRemoval.DropLoopMine` | components/mdns/mdns.c:2782-2861 | The removal loop treats the packets and the fields of each PCB independently of the others. |
| `ServiceRemoval.ForgottenWhen` | components/mdns/mdns.c:2798-2846 | A probe list forgets the service if and only if its PCB is up, probing, and has a packet in the list. |
| `ServiceRemoval.StopsWhen` | components/mdns/mdns.c:2846-2851 | An announcing PCB stops announcing if and only if one of its packets had answers and all of them were of the service. |
| `ServiceRemoval.RemoveServiceKeeps` | components/mdns/mdns.c:6696-6747 | Removing a registered service keeps the invariant, and no probe list holds the service. |
| `ServiceRemoval.RemoveServiceExact` | components/mdns/mdns.c:2782-2861 | No answer entry of a scheduled packet refers to the service any more, everything else but at most one question of each packet stays in order, and only packets that became empty leave the list. |
| `HostRemoval.RemoveHostKeeps` | components/mdns/mdns.c:3230-3252 | Removing a delegated host keeps the invariant of the whole responder, and exactly its services leave the registry, the others stay in order. |
| `HostRemoval.HostFreed` | components/mdns/mdns.c:3230-3275 | After the host is freed the entries of the scheduled packets refer to hosts that exist, if and only if each entry for it belonged to one of its services. |
| `HostRemoval.FreedHostStays` | components/mdns/mdns.c:3230-3275 | Input: the host of an announced service is removed while the announcement is scheduled; the entries for its addresses still refer to it. |
| `QuestionRefs.RemovalForgets` | components/mdns/mdns.c:2782-2861 | After the removal no scheduled question borrows a string of the service if and only if before it every question that did was the one that is dropped: the first for its type, in the packet of a PCB that probes it. |
| `QuestionRefs.ProbeForgets` | components/mdns/mdns.c:2112-2161 | For a probe packet this holds if and only if it asks for no address and no service in front of the removed one has its type. |
| `QuestionRefs.HostQuestionStays` | components/mdns/mdns.c:2071-2107 | Input: while one service and the addresses are probed, the removal of the service leaves the question for its host name. |
| `QuestionRefs.WrongQuestionGoes` | components/mdns/mdns.c:2825-2844 | Input: of two services of one type the removal of the second takes the question about the first and leaves its own. |
| `QuestionRefs.StepRefs` | components/mdns/mdns.c:5257-5339 | One event keeps every scheduled question borrowing from registered services only, if and only if it is not a removal that leaves a question behind. |
| `QuestionRefs.RunRefs` | components/mdns/mdns.c:5257-5339 | On every run the questions borrow from registered services at every moment, if and only if each removal drops every question about its service. |
| `AnnounceHistory.RunLog` | components/mdns/mdns.c:5124-5179 | On every run the transmissions of an announcing PCB match its state, whatever else happens between them. |
| `AnnounceHistory.ThreeTransmissions` | components/mdns/mdns.c:5162-5172 | On every run from the start: a transmission that takes a PCB from announcing to running is the third since announcing began, one in each state. |
| `AnnounceHistory.StageMoves` | components/mdns/mdns.c:5162-5169 | Where the announcement of a PCB stands among its packets: an answer scheduled before it moves it back, a transmission moves it up, and when it is sent itself it goes behind all that is due within a second. |
| `AnnounceHistory.AnnouncedTwice` | components/mdns/mdns.c:5162-5172 | Section 8.3 of RFC 6762: two of the three transmissions are of the announcement if and only if no packet of the PCB is in front of it at the start or scheduled before it up to its first transmission, and then no answer comes in front of its next one, or only one up to the third. |
| `AnnounceHistory.TwiceWithoutAnswers` | components/mdns/mdns.c:5162-5172 | Without new answers: if and only if nothing was in front of it and at most one packet of the PCB is due within a second of its first transmission. |
| `AnnounceHistory.QuietEvents` | components/mdns/mdns.c:5257-5339 | The clock, the timer, answers, transmissions on other PCBs and new services are events to which the two theorems apply. |
| `AnnounceHistory.AfterProbing` | components/mdns/mdns.c:5142-5169 | After probing the announcement is the only packet of its PCB. |
| `AnnounceHistory.AnnouncedOnce` | components/mdns/mdns.c:5162-5172 | Input: with two answers due in front of the announcement, to ordinary or to truncated queries, the announcement goes out once and leaves the list, and the PCB runs. |
| `ResponderCode.MdnsServer.InitPcbProbe` | components/mdns/mdns.c:2316-2351 | Clears, merges and schedules as specified; the merge writes inside its allocation. |
| `ResponderCode.MdnsServer.AnnouncePcb` | components/mdns/mdns.c:2451-2489 | The branches on the state of the PCB give the specified announcement. |
| `ResponderCode.MdnsServer.CreateAnnouncePacket` | components/mdns/mdns.c:2166-2191 | The loops over the services and hosts build the specified announcement. |
| `ResponderCode.MdnsServer.EnablePcb` | components/mdns/mdns.c:4373-4382 | Gives the specified state after enabling. |
| `ResponderCode.MdnsServer.DisablePcb` | components/mdns/mdns.c:4387-4401 | Gives the specified state after disabling, the retry of the duplicate included. |
| `ResponderCode.MdnsServer.TxHandlePacket` | components/mdns/mdns.c:5124-5179 | The state switch gives the specified PCB and reschedules the packet. |
| `ResponderCode.MdnsServer.ExecuteTxHandle` | components/mdns/mdns.c:5300-5311 | Taking and handling one action gives the specified state. |
| `ResponderCode.MdnsServer.RemoveServicePackets` | components/mdns/mdns.c:2782-2861 | The loop over the list, with its in-place edits of PCBs and packets, gives the specified state. |
| `ResponderCode.MdnsServer.RemoveScheduledAnswer` | components/mdns/mdns.c:1670-1699 | At most one answer of each distributed packet of the PCB goes. |
| `ResponderCode.MdnsServer.DelegateHostnameRemove` | components/mdns/mdns.c:3230-3275 | The walk over the services gives the specified state and list of hosts. |
| `ResponderCode.CloseGap` | components/mdns/mdns.c:2813-2827 | Closing the gap in the probe array in place removes the first occurrence. |
| `ResponderCode.MergeProbes` | components/mdns/mdns.c:2270-2286 | The copy of both lists stays inside the allocated array and gives their concatenation. |
| `Netif.SwitchOne` | components/mdns/mdns_networking_lwip.c:255-274 | Switching one protocol bit, with ready following the bits, changes exactly one ready PCB. |
| `Netif.StartSucceeds` | components/mdns/mdns_networking_lwip.c:255-274 | A start succeeds if and only if the PCB was not ready, its group can be joined, and the socket is in use or can be opened and bound; then exactly this PCB joins the ready ones. |
| `Netif.Networking.IsNetifReady` | components/mdns/mdns_networking_lwip.c:215-219 | Tells whether the PCB is among the ready ones. |
| `Netif.Networking.IsInUse` | components/mdns/mdns_networking_lwip.c:224-235 | The double loop tells whether any PCB is ready. |
| `Netif.Networking.MainInit` | components/mdns/mdns_networking_lwip.c:50-69 | The socket is open afterwards exactly on success; a failed bind closes it again. |
| `Netif.Networking.PcbInit` | components/mdns/mdns_networking_lwip.c:255-274 | Refines a set of ready PCBs: on success exactly this PCB joins, on each error nothing changes, and the socket stays open exactly while the set is not empty. |
| `Netif.Networking.PcbDeinit` | components/mdns/mdns_networking_lwip.c:240-250 | Exactly this PCB leaves the set, and the socket closes with the last one. |
| `Names.ReadFqdn` | components/mdns/mdns.c:452-503 | The recursive pointer-following loop ends for any bytes, by pointer target and then remaining bytes, and gives the specified name and position. |
| `Names.NameBuffer.Store` | components/mdns/mdns.c:473-488 | One label goes to the next field, to the host, or to the subtype mark. |
| `RecordParser.NameFits` | components/mdns/mdns.c:452-503 | Whatever the packet holds, success moves on, at most four parts are stored and each fits its buffer. |
| `NameWriter.AppendFqdn` | components/mdns/mdns.c:750-811 | The packet never grows past its size, no earlier byte changes, and zero is returned only when nothing was written. |
| `NameWriter.NameReadsBack` | components/mdns/mdns.c:750-811 | What the reader finds at a written name: its labels and then, behind a pointer, what it finds at the candidate; nothing if the candidate is not before the name. |
| `NameRoundTrip.RoundTrip` | components/mdns/mdns.c:750-811 | Section 4.1.4 of RFC 1035: reading at the old index gives the same parts up to letter case and ends at the new index, if and only if the search did not settle on the unfinished name itself; no earlier byte changes. |
| `NameRoundTrip.NoEchoRoundTrip` | components/mdns/mdns.c:750-811 | Names in which no label repeats an earlier one or its length occurs as a byte of an earlier one always read back. |
| `NameRoundTrip.LabelsRoundTrip` | components/mdns/mdns.c:784-797 | The labels on the wire, as any other reader sees them, are the strings if and only if the accepted candidate has as many labels as strings were left. |
| `NameRoundTrip.LocalHostIsUnreadable` | components/mdns/mdns.c:757-797 | A host called local is written, in the first packet after start, as a pointer to itself that nobody can read. |
| `NameRoundTrip.SubtypeIsTakenForInstance` | components/mdns/mdns.c:484-485 | Behind a written subtype name the search accepts that name for an instance called like the subtype, although it has one label more. |
| `NameRoundTrip.SubtypeWins` | components/mdns/mdns.c:757-797 | In the first packet after start, behind a subtype name without an echo, the search for the instance name settles on the subtype name, and the condition of LabelsRoundTrip fails. |
| `NameRoundTrip.SubtypeExample` | components/mdns/mdns.c:757-797 | Input: the instance a of _x._udp with a subtype a: the labels read at what is written for the instance are not its name. |
| `NameRoundTrip.LongLabels` | components/mdns/mdns.c:461-470 | A name written in full, of labels that are not empty, can be read if and only if no label is longer than 63 bytes; the API takes longer ones. |
| `NameRoundTrip.LongHost` | components/mdns/mdns.c:461-470 | Input: a host name of 64 bytes in the first packet after start. |
| `NameRoundTrip.FifthIsInvalid` | components/mdns/mdns.c:452-503 | A name that goes on after its fourth part is invalid and keeps these four. |
| `NameRoundTrip.DottedHost` | components/mdns/mdns.c:473-481 | A second label that is none of the special ones belongs to the host name. |
| `PacketCode.OutPacket.AppendFqdn` | components/mdns/mdns.c:750-811 | The scan for the length byte, the comparison and the recursion write what is specified; the returned length is the growth of the index. |
| `PacketCode.OutPacket.Matches` | components/mdns/mdns.c:760-797 | A place is accepted exactly if its first label is the string and the name read there spells the strings. |
| `PacketCode.OutPacket.AppendType` | components/mdns/mdns.c:590-620 | Type, class, TTL and a zero length are written together or not at all. |
| `PacketCode.OutPacket.AppendEntry` | components/mdns/mdns.c:665-683 | An item is written whole, or zero is returned and nothing written. |
| `Records.BeginFrames` | components/mdns/mdns.c:838-848 | Owner name and fixed fields: with room they are written, and the returned length is the growth of the index. |
| `Records.PtrFraming` | components/mdns/mdns.c:823-858 | The packet size is never exceeded; a PTR record that returns a length has grown the index by it, and its patched data length equals the bytes behind it; with room it is written. |
| `Records.SrvFraming` | components/mdns/mdns.c:1032-1092 | The same for SRV, with priority, weight and port in front of the target. |
| `Records.TxtFraming` | components/mdns/mdns.c:968-1020 | The same for TXT, with the items of the service as data; the zero byte written without a check stays inside the packet. |
| `Records.AddressFraming` | components/mdns/mdns.c:1105-1195 | The same for A and AAAA, with the bytes of the address as data. |
| `NameSize.WholeName` | components/mdns/mdns.c:750-811 | A name is written whole if and only if its wire form (the labels before the pointer and two bytes, or all labels and one) fits behind the index; otherwise exactly its first labels are there, without an end, none if and only if the first piece does not fit. |
| `NameSize.PtrAtEnd` | components/mdns/mdns.c:823-858 | A PTR record returns a length if and only if the first pieces of both names and the fixed fields fit; the index is unchanged if and only if the first piece of the owner name does not fit; and the record is complete if and only if both wire forms and the fields fit. |
| `NameSize.SrvAtEnd` | components/mdns/mdns.c:1032-1092 | The first two for SRV. |
| `NameSize.TxtAtEnd` | components/mdns/mdns.c:968-1020 | The first two for TXT. |
| `NameSize.AddressAtEnd` | components/mdns/mdns.c:1105-1195 | The first two for A and AAAA. |
| `NameSize.NameCutShort` | components/mdns/mdns.c:800-806 | Input: ten bytes before the end of the packet a name of three labels is written as its first label and reported as written. |
| `NameSize.FailureLeavesOwner` | components/mdns/mdns.c:838-848 | Input: there a PTR record returns zero and leaves six bytes of its owner name. |
| `PacketCode.OutPacket.AppendPtr` | components/mdns/mdns.c:823-858 | Writes the specified record into the buffer and returns the specified length. |
| `PacketCode.OutPacket.AppendSrv` | components/mdns/mdns.c:1032-1092 | Writes the specified record into the buffer and returns the specified length. |
| `PacketCode.OutPacket.AppendTxt` | components/mdns/mdns.c:968-1020 | Writes the specified record into the buffer and returns the specified length. |
| `PacketCode.OutPacket.AppendAddress` | components/mdns/mdns.c:1105-1195 | Writes the specified record into the buffer and returns the specified length. |
| `RecordParser.RecordsFollow` | components/mdns/mdns.c:3846-3884 | For any packet the record loop ends: records lie one behind the other inside the packet and take at least twelve bytes each. |
| `RecordParser.QuestionsFollow` | components/mdns/mdns.c:3763-3789 | For any packet the question loop stays inside it and every question takes at least five bytes. |
| `RecordParser.FramedRecordParses` | components/mdns/mdns.c:3846-3872 | A receiver of the packet parses a framed record where it was written: same owner, type, class, TTL and data length, and the next record begins behind it. |
| `RecordParser.PtrReadsBack` | components/mdns/mdns.c:823-858 | A PTR record with room comes back whole: owner, TTL and target. |
| `RecordParser.SrvReadsBack` | components/mdns/mdns.c:1032-1092 | An SRV record with room comes back whole: owner, TTL, priority, weight, port and host. |
| `RecordParser.QuestionReadsBack` | components/mdns/mdns.c:1201-1236 | A question that was written with room reads back at its place: its name, its type, class IN and its unicast bit. |
| `RecordParser.QuestionsReadBack` | components/mdns/mdns.c:3763-3789 | Questions written one behind the other come back in their order, and the loop ends behind the last. |
| `RecordParser.FieldsOf` | components/mdns/mdns.c:3415-3438 | The parts of a name lie in the fields they belong to: host, service, protocol and domain, for names of two, three and four parts; it is valid exactly for the domains local and arpa. |
| `RecordParser.RecordsInOrder` | components/mdns/mdns.c:3846-3884 | Records that can be read one behind the other up to the end of the packet are what the record loop finds, in their order. |
| `PacketCode.OutPacket.AppendQuestion` | components/mdns/mdns.c:1201-1236 | Writes the specified question and returns the specified length. |
| `PacketCode.ParseQuestionLoop` | components/mdns/mdns.c:3763-3789 | The question loop gives the specified questions, or none where it gives up. |
| `PacketCode.ParseRecordLoop` | components/mdns/mdns.c:3846-3872 | The record loop gives the specified records for any bytes. |
| `Txt.TxtRoundTrip` | components/mdns/mdns.c:3553-3644 | Section 6 of RFC 6763: parsing written data returns the items in order, an empty value as none, if and only if no item but the last lacks a value; the counting pass counts the items in any case. |
| `Txt.ParseWeight` | components/mdns/mdns.c:3587-3629 | For any data the parsed items take no more bytes than there are, and one for a missing equals sign. |
| `Txt.LateParse` | components/mdns/mdns.c:3611-3612 | Behind an item without a value the parser reads the next item one byte late and never finds the rest. |
| `Txt.ItemsCountGet` | components/mdns/mdns.c:3510-3532 | The counting loop counts as specified. |
| `Txt.ItemNameGetLen` | components/mdns/mdns.c:3537-3548 | The length of the key, or an error for an empty one. |
| `Txt.ResultTxtCreate` | components/mdns/mdns.c:3553-3644 | The parsing loop gives the specified items, none on any error. |
| `KnownAnswers.SuppressionFromScratch` | components/mdns/mdns.c:1862-1936 | Of the questions that the parser has left over: the services whose PTR entry is created are exactly those that a PTR or ANY question with service and protocol matches, subtypes and instances included, and that no known answer with more than half the TTL covers; no (type, service, host) triple stands twice. |
| `ReplyEntries.FromServiceHas` | components/mdns/mdns.c:1784-1822 | Exactly the records that a question of the type asks for are added for the service, each in its section: SRV, TXT and addresses of a delegated host are additional, those of the own host answers, its addresses additional unless the reply goes to a probe. |
| `ReplyEntries.ReplyExact` | components/mdns/mdns.c:1862-1984 | For any questions left over the reply holds exactly the entries that one of them asks for, in each section: SRV and TXT of the first service that suits, the chosen services of PTR, ANY and service enumeration, the host item that is named, the list of all hosts; none is a goodbye, they flush in replies to the mDNS port but for the shared PTR records; a one-shot querier gets its questions back in order; and there is a reply if and only if some question is answered. |
| `KnownAnswers.FromServicePtr` | components/mdns/mdns.c:1789-1822 | Answering for a service adds its PTR entry exactly for PTR and ANY questions. |
| `KnownAnswers.AnsweredPtr` | components/mdns/mdns.c:1880-1956 | One question of any type adds PTR entries for exactly the services it asks for. |
| `KnownAnswers.SuppressedAsCovered` | components/mdns/mdns.c:1898-1912 | In the loop over services and known answers, apart from known answers at exactly half the TTL: a service is suppressed exactly by the known answers that name the instance it is published as, if and only if it was registered with an instance name that is not empty (or nothing has a name). |
| `KnownAnswers.CountsAsCovered` | components/mdns/mdns.c:1898-1912 | With such a name, suppression in the loop agrees with section 7.1 of RFC 6762 (at least half the TTL) if and only if no known answer covers the service or one with more than half the TTL does. |
| `KnownAnswers.HalfIsTooLittle` | components/mdns/mdns.c:1902 | Input: a known answer at exactly half the TTL covers the service and does not count in the loop. |
| `KnownAnswers.DefaultInstanceIsNotSuppressed` | components/mdns/mdns.c:1898-1912 | In the loop a service without an instance name, or with an empty one, is suppressed by no known answer that names an instance. |
| `KnownPackets.PacketSuppression` | components/mdns/mdns.c:3847-4312 | For a whole query: the services whose PTR entry is in the reply are exactly those that a question left over by the known answers asks for and no noted record covers. |
| `KnownPackets.RespondExact` | components/mdns/mdns.c:3847-4312 | For a whole query: all entries of the reply are exactly those that a question left over asks for. |
| `KnownPackets.HearQuestions` | components/mdns/mdns.c:3956-3976 | Known answers only take questions out, whatever their TTL; a question that no record is about stays, and in a probe all stay. |
| `KnownPackets.AlwaysAgrees` | components/mdns/mdns.c:3956-3976 | Section 7.1 of RFC 6762: the reply to a query holds exactly the services that are asked for and not covered, whatever known answers come with it (apart from those at exactly half the TTL), if and only if every service that is asked for has an instance name of its own and, unless the query is a probe, a question that no known answer can take out. |
| `KnownPackets.TypeAlwaysAgrees` | components/mdns/mdns.c:3443-3474 | For the query for the instances of a type: if and only if every service of the type was registered with an instance name. |
| `KnownPackets.TypeAgrees` | components/mdns/mdns.c:3443-3474 | For one such query with given known answers: if and only if, when the question is taken out, every service of the type is covered, and when it is not, the services without an instance name are covered exactly by records for the bare type that count. |
| `KnownPackets.OneAnswerSilences` | components/mdns/mdns.c:3443-3456 | Input: two services of a type, one without an instance; one known answer for the default instance with one second left empties the reply. |
| `KnownPackets.RemoveParsedQuestion` | components/mdns/mdns.c:3478-3505 | The walk through the questions takes out the specified one. |
| `KnownPackets.ParseKnownAnswers` | components/mdns/mdns.c:3847-4010 | The loop over the records gives the specified questions and known answers. |
| `KnownAnswers.HostListHas` | components/mdns/mdns.c:2053-2070 | The exact entries of the list of all hosts: the own host, the delegated hosts from the second on, and an entry for no host when there is any. |
| `KnownAnswers.HostListRight` | components/mdns/mdns.c:2053-2070 | Every delegated host is listed and no entry is for no host, if and only if there is no delegated host. |
| `KnownAnswers.OneDelegatedHost` | components/mdns/mdns.c:2053-2070 | Input: one delegated host is not listed, and an entry for no host is. |
| `KnownAnswers.CreateAnswer` | components/mdns/mdns.c:1862-1984 | The question loop builds the specified reply, and none when nothing was answered. |
| `KnownAnswers.AnswerServices` | components/mdns/mdns.c:1894-1924 | The loops over services and known answers add the specified entries. |
| `Collision.SrvOneLoser` | components/mdns/mdns.c:2912-2964 | Two named hosts that see each other's SRV record get opposite verdicts, and none if and only if priority, weight, port, host and domain agree. |
| `Collision.TxtOneLoser` | components/mdns/mdns.c:2969-3009 | The same for TXT records, none if and only if the items agree. |
| `Collision.VerdictsOppose` | components/mdns/mdns.c:2957-2963 | Comparing by length and then bytes is antisymmetric, and zero only for equal data. |
| `Collision.VerdictTransitive` | components/mdns/mdns.c:2957-2963 | The comparison is transitive, so among any number of hosts one loses to nobody. |
| `Collision.VerdictAgrees` | components/mdns/mdns.c:2925-2963 | The verdict is the one of section 8.2 of RFC 6762 (bytes first) if and only if the lengths are equal, one is the beginning of the other, or the longer has the larger byte at the first difference. |
| `Collision.SrvAgrees` | components/mdns/mdns.c:2912-2964 | For two SRV records in one domain: if and only if the host names are equally long, or the numbers are the same, or the longer name has the larger numbers. |
| `Collision.ShorterNameLoses` | components/mdns/mdns.c:2925-2929 | Input: port 9 on host a gives way to port 1 on host bc, where bytes first decides the other way. |
| `Collision.EncodingInjective` | components/mdns/mdns.c:2998-3001 | Written items can be told apart. |
| `Collision.CheckSrvCollision` | components/mdns/mdns.c:2912-2964 | Building and comparing both buffers gives the specified verdict. |
| `Collision.CheckTxtCollision` | components/mdns/mdns.c:2969-3009 | Length check, building and comparing give the specified verdict. |
| `Search.StepKeeps` | components/mdns/mdns.c:4726-4942 | Every record for a search keeps it sound: counter, limit, no address twice, no PTR result twice for one interface, protocol and case-folded name that is not empty; older results stay in order with what is known of them, and no TTL grows. |
| `Search.RunKeeps` | components/mdns/mdns.c:4726-4942 | The same after any sequence of records. |
| `Search.IpExact` | components/mdns/mdns.c:4755-4808 | An address record: the first result of its interface and protocol, or in a search for services of its host, has the address and the smaller TTL, and nothing else changes; if there is none, a search that wants the address gains a result of exactly its contents, if there is room. |
| `Search.PtrExact` | components/mdns/mdns.c:4813-4850 | A PTR record: the first result of the instance has its TTL shortened, or there is a new one. |
| `Search.SrvExact` | components/mdns/mdns.c:4855-4892 | An SRV record outside a search for instances: the first result of the host has its TTL shortened, or there is a new one with host and port. |
| `Search.TxtExact` | components/mdns/mdns.c:4897-4942 | A TXT record there: the first result of the interface and protocol gets the text if it has none, or there is a new one. |
| `Search.SrvOfInstance` | components/mdns/mdns.c:3991-4024 | An SRV record in a search for instances: the result of that name, found or made, gets host and port unless it has a host; only a full search without such a result drops it. |
| `Search.TxtOfInstance` | components/mdns/mdns.c:4120-4156 | The same for TXT. |
| `Search.AddressesCollected` | components/mdns/mdns.c:4726-4808 | After any records the addresses of a result are exactly those it had and those of the address records that found it first. |
| `Search.AddressesFound` | components/mdns/mdns.c:4755-4793 | A search for addresses without a limit has one result for each interface and protocol, with exactly the addresses of its type that came by it. |
| `Search.OnlyFirstLearns` | components/mdns/mdns.c:4795-4807 | In a search for services every result on a host knows an address after its record if and only if all but the first knew it before. |
| `Search.SecondInstanceLearnsNothing` | components/mdns/mdns.c:4795-4807 | Input: of two instances on one host the older does not get the address. |
| `Search.RunUnique` | components/mdns/mdns.c:4813-4850 | After any records no two results of a PTR search agree in interface, protocol and case-folded name, the empty name included, if and only if no PTR record for the empty name came while a result had it and the search had room. |
| `Search.UnlimitedUnique` | components/mdns/mdns.c:4813-4850 | Without a limit: if and only if no PTR record for the empty name comes behind another record for it. |
| `Search.RootNameTwice` | components/mdns/mdns.c:4813-4822 | Input: two PTR records whose target is the root name leave two equal results. |
| `Search.InstancesMerge` | components/mdns/mdns.c:3929-3955 | Two PTR records leave one result if and only if the names made of the fields of their parsed targets agree. |
| `Search.BuiltOf` | components/mdns/mdns.c:3938-3952 | For an instance the name is its type alone, for a type it is the type. |
| `Search.TwoInstancesOneResult` | components/mdns/mdns.c:3938-3955 | Input: two instances of one type leave one result; two types leave two. |
| `Search.CounterIsExact` | components/mdns/mdns.c:4676-4692 | The counter is the number of results if and only if there are fewer than 256, which any limit guarantees; a limit is never exceeded. |
| `Search.CounterWraps` | components/mdns/mdns.c:4842-4847 | Without a limit the counter is zero again after 256 results. |
| `Search.SearchOnce.AddIpResult` | components/mdns/mdns.c:4755-4808 | The walk through the results changes or adds what is specified. |
| `Search.SearchOnce.AddPtrResult` | components/mdns/mdns.c:4813-4850 | The walk through the results changes or adds what is specified. |
| `Search.SearchOnce.AddSrvResult` | components/mdns/mdns.c:4855-4892 | The walk through the results changes or adds what is specified. |
| `Search.SearchOnce.AddTxtResult` | components/mdns/mdns.c:4897-4942 | The walk through the results changes or adds what is specified. |
| `Search.SearchOnce.AddAddressAt` | components/mdns/mdns.c:4726-4750 | The walk through the results changes or adds what is specified. |
| `Mangle.MangledSuffix` | components/mdns/mdns.c:232-270 | The new name ends in the next number behind the same base. |
| `Mangle.MangledFits` | components/mdns/mdns.c:249-267 | The new name with its terminating zero fits the bytes allocated for it. |
| `Mangle.NamesDiffer` | components/mdns/mdns.c:232-270 | Renaming again and again gives pairwise different names while the number is in the range of an int, each fitting its allocation. |
| `Mangle.MangleName` | components/mdns/mdns.c:232-270 | Finding the dash, reading the number and printing the next one gives the specified name. |
| `Raster.RoundedIs` | components/st7789/st7789.c:423-433 | The error term bounds single out one offset: the ideal line rounded to the nearest pixel. |
| `Raster.LineIsExact` | components/st7789/st7789.c:407-447 | Every pixel lies at its step along the major axis and within half a pixel of the ideal line. |
| `Raster.LineIsConnected` | components/st7789/st7789.c:407-447 | The line has max(dx, dy) + 1 pixels, runs from one end point to the other, and each pixel touches the one before it. |
| `Raster.LineInside` | components/st7789/st7789.c:407-447 | No coordinate of a plotted pixel wraps: all lie in the box of the end points. |
| `Raster.Display.DrawPixel` | components/st7789/st7789.c:278-284 | Sets one pixel on the panel, none off it. |
| `Raster.Display.DrawFlatLine` | components/st7789/st7789.c:422-433 | The error-term loop plots exactly the rounded line. |
| `Raster.Display.DrawSteepLine` | components/st7789/st7789.c:435-446 | The same along the other axis, single pixels included. |
| `Raster.Display.DrawLine` | components/st7789/st7789.c:407-447 | Both together. |
| `Cursor.StaysInside` | components/st7789/st7789.c:581-592 | While y is negative: err == (x+1)^2 + (y+1)^2 - r^2, x stays within the radius, and one of x and y moves. |
| `Cursor.CircleInside` | components/st7789/st7789.c:576-593 | Every plotted pixel lies in the square of the radius. |
| `Cursor.QuadrantIsRound` | components/st7789/st7789.c:581-592 | The offsets of a quadrant run from (0, -r) to beside (r, 0), each beside the one before, and each less than half a pixel from the circle: -r < x*x + y*y - r*r <= r. |
| `Cursor.CircleIsRound` | components/st7789/st7789.c:576-593 | What is drawn is such a quadrant, mirrored, and its three quarter turns. |
| `Cursor.DrawCircle` | components/st7789/st7789.c:576-593 | The loop ends and plots the specified pixels. |
| `Cursor.CursorUndone` | components/st7789/st7789.c:1152-1160 | Setting the cursor and taking it away leaves the whole frame buffer as it was, when its square lies in the 16-bit range, on or off the panel. |
| `Cursor.UndoneWhen` | components/st7789/st7789.c:1152-1160 | With square ends in the 16-bit range, a frame is restored if and only if each pixel of the circle on the panel is in the saved rectangle or had the color of the cursor. |
| `Cursor.UndoneExactly` | components/st7789/st7789.c:1152-1160 | Every frame is restored if and only if the cursor keeps its radius from the left and the upper edge, or no pixel of it is on the panel. |
| `Cursor.EdgeCursorStays` | components/st7789/st7789.c:1152-1160 | Input: within its radius of the left edge nothing is saved, and the rightmost pixel stays. |
| `Cursor.RestoreUndoes` | components/st7789/st7789.c:1128-1145 | Restoring the saved rectangle undoes any change inside it. |
| `Cursor.SlotOfPixel` | components/st7789/st7789.c:1103-1120 | The place of a pixel in the save buffer and the pixel of a place are inverse. |
| `Cursor.GetRect` | components/st7789/st7789.c:1103-1120 | The loops save the clipped rectangle row by row, inside the buffer. |
| `Cursor.SetRect` | components/st7789/st7789.c:1128-1145 | The loops put the same rectangle back. |
| `Cursor.SetCursor` | components/st7789/st7789.c:1152-1155 | Saves the square and draws the circle. |
| `Cursor.ResetCursor` | components/st7789/st7789.c:1157-1160 | Puts the square back. |
| `Cursor.ShowAndHideCursor` | components/st7789/st7789.c:1152-1160 | Both calls in a row leave the frame as it was. |
| `Glyph.AddBit` | components/st7789/fontx.c:412 | Adding a bit to a byte whose bits up to it are clear sets that bit without a carry. |
| `Glyph.Font2Bitmap` | components/st7789/fontx.c:395-424 | For every pixel the picture read from the bitmap is the picture read from the pattern; with the inverse flag each band of eight rows is upside down; other bytes of the line buffer stay. |
| `Glyph.RotateByte` | components/st7789/fontx.c:507-515 | Bit k of the result is bit 7 - k of the argument. |
| `Glyph.SamePicture` | components/st7789/fontx.c:454-503 | The two pictures, as both printing functions read them, agree. |

## Left out

- lwIP, sockets, esp_netif, FreeRTOS queues and timers: only readiness, a clock and a FIFO action queue
  are kept; multicast group membership is an external effect.
- The socket variant of the interface layer, the console, browsing and its notifications, `mdns_free`.
- Reverse queries, subtype PTR and service-enumeration PTR records on the wire, questions on the wire,
  the packet header.
- The content of received SRV, TXT and address records beyond what collisions and searches use; the
  goodbye packets sent at once on removal.
- Linked lists as such: order and contents are modelled, the rewiring of `next` pointers is not.
- Answer sections chosen per answer entry (`_mdns_append_answer`): the five record appenders are modelled.
- The comparison of addresses in conflicts over A and AAAA records.
- SPI transmission, font files, rectangles with angles, polygons and arrows.
- OpenAI.c, tapclean, mlff, main.cpp and the tables in include/: wrappers, finite tables and engines
  that are not part of this model.
- NameRoundTrip.RoundTrip: a candidate that begins before the name and runs into it, over bytes left
  from an earlier packet, is excluded by the hypothesis Settled.
- NameWriter.Find: a candidate that reaches past the end of the buffer is rejected without comparing
  the bytes behind the buffer; the reader rejects it in any case.
- Mangle.NamesDiffer: what happens when the number leaves the range of an int is not defined in C and
  not modelled.
- Collision.CheckTxtCollision: items of the service of 1460 bytes or more, which no packet holds, are
  left out.
- KnownAnswers.CreateAnswer: question types other than A, PTR, TXT, AAAA, SRV, ANY and service
  enumeration are not modelled; the destination and the delay of the reply are left out.
- Search.StepKeeps: the copies of service type and protocol strings in a result are left out.
- Records.SrvFraming: a service without any instance name, and a record asked for without a service, are
  refused by the source before anything is written; the model begins behind these checks.
- Cursor.UndoneExactly: circles that reach more than 32768 columns or rows beyond the left or upper edge,
  whose square wraps back onto the panel, are decided by UndoneWhen only; squares whose right or lower end
  passes 65535 are not described.
- AnnounceHistory.AnnouncedTwice: a PCB with one announcement in the list; the time between the transmissions
  is not stated; a rescheduled packet waits a second, but different packets need not.
- KnownPackets.AlwaysAgrees: queries whose records are PTR records, from a responder that has a host name and
  is past probing; enumerations of service types and the conflicts that other records of a query may raise
  are left out. A known answer counts as covering a service if its owner is any name of the responder.
- HostRemoval.RemoveHostKeeps: hosts are told apart by number, where the source compares their names.
