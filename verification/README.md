# VeilNet control plane: verified model

A Dafny model of the parts of the VeilNet VPN control plane that keep state,
count money or bytes, or print and parse text, with proofs of what they keep
over every run. `dafny verify dfyconfig.toml` checks the whole project.

Each source file that works by changing things step by step is a class or a
method with loops, proved equal to a specification function on plain values.
The properties are then proved about those functions, over whole runs.

| module | what it models |
|---|---|
| `Ini`, `IniRoundTrip`, `IniLines`, `Ipc`, `IpcRoundTrip`, `Dumps` | the two WireGuard printer/parser pairs, over real strings |
| `Ledger`, `SettlementProtocol`, `Schedules`, `Spending`, `OverlapRun`, `BatchIds` | prepaid credit, receipts, settlement as a two-phase protocol, exactly-once, spending and batch ids |
| `Ipam`, `Sessions`, `Admission`, `AdmissionRuns`, `Capacity`, `Limits` | the node's address pool, session table, controller and client limit |
| `Tokens`, `Access` | the token issuer, its session adapter, and both joined |
| `TokenBucket`, `SlidingWindow` | the two rate limiters |
| `Routes`, `Guards`, `Selection`, `Rotator` | multi-hop routes: building, guarded rotation, greedy selection, circuits |
| `Watchdog` | the tunnel engine as a timed state machine |
| `Shaper` | padding and constant-rate cover traffic |
| `Text`, `Sorting`, `Powers`, `Wrappers` | Go string operations, string sorting, powers of two, options and results |

Conventions. Times are integers (nanoseconds) and clocks are parameters;
`float64` is `real`; `int64` and `uint32` are subset types, so every stored
result is proved in range. Random ids, signatures, SHA-256, base64, IP text and
the answers of the wallet, the device and the database are parameters. Map
iteration is an arbitrary choice at each step, so every statement holds for
every order. A string is a sequence of Unicode characters; lower and upper
casing cover every character whose image is an ASCII letter and leave other
characters alone. The identity of a session is a serial number.

What the proofs found:

- Printing then parsing an INI configuration gives it back exactly for the
  printable ones (`IniRoundTrip.RoundTripIff`).
- An endpoint may hold a newline and pass validation; the device text then does
  not read back peer by peer. The exact condition is
  `IpcRoundTrip.RoundTripIff`.
- A session funded after receipts that exceed the deposit overspends; the exact
  condition on a funding step is `Spending.FundIff`.
- Overlapping two settlements of one node, both committed, settles every receipt
  of the first one twice (`OverlapSettlesTwice`; a run: `OverlapSettlesAgain`).
  Over every run exactly-once holds if and only if that never happens
  (`ExactlyOnce`). The deposit bounds spend all the same (`SpentNeverExceeds`)
  and can hide the second charge; exactly when spend stays what the batches say
  is `WithinDepositIff`.
- Receipt ids with commas can make two different batches hash the same text
  (`PreimageCollision`, exact condition `PreimageIff`); without commas they
  cannot (`PreimageTellsSets`).
- Admitting a key that another open session uses breaks the peer table, and
  nothing else does (`NextWiredIff`, `RunWiredIff`).
- A client that reconnects with the same key after its session expired, but
  before the sweep, loses its peer at the sweep (`ReconnectLosesPeer`, exact
  condition `SweepKeepsPeerIff`). Replacing an expired session leaves its lease
  behind (`LeasesAccounted`).
- The comment on `SelectRoute` promises the longest feasible path. The code is
  greedy: its path is maximal, and it is the longest exactly under
  `LongestOfTwoIff` with room for two hops and `LongestOfThreeIff` with room for
  three; `GreedyStopsShort` gives a failing family.
- The comment on `SelectRoute` also promises that the path passes `BuildRoute`.
  With default options it does (`SelectedPath`); under the same tradeoff exactly
  when some valid candidate is within the budget (`BuildableIff`; a failing
  input: `OverBudgetPath`).
- The comment on `Guards` says a guard that is due no longer pins. The code does
  not look at the age: a due guard goes on pinning (`DueGuardStillPins`), and the
  code agrees with the comment exactly under `PinsAsDocumentedIff`.
- `Start` goes UP on any handshake, however old. `UpIsRecent` still holds after a
  start, because the start itself is recent; that the handshake is fresh fails
  (`StartOnOldHandshake`), exactly under `StartFreshIff`.
- A poll reads the device, probes it without the lock and does not look again,
  and so does a start. A stop in between can leave UP without a device
  (`StopInsidePoll`, `StopInsideStart`), and a failing poll inside a start UP with
  a failure counted (`FailureInsideStart`), exactly under `UpIsLiveIff`.
- A downstream rotation reads the circuit and installs under two locks. An entry
  rotation in between is undone and breaks the log (`EntrySwapInside`), exactly
  under `SharedRunIff`.
- The comment on `MaxOverhead` speaks of wasted bandwidth. The code counts
  padding when it decides whether to send cover, but never withholds padding, so
  cover stays within the cap (`CoverWithinCap`) and padding need not
  (`PaddingNotCapped`). Both together stay within it exactly when every payload
  carried pays for its own padding (`WithinCapIff`).
- `RotateEndpoint` writes the new endpoint through the shared peer list before
  the device accepts it, so a refused rotation leaves the configuration and the
  reported endpoint apart (`RefusedRotationDrifts`), exactly under
  `RotateInSyncIff`, and over whole runs exactly under `InSyncIff`.
- The checks for a negative settlement total and for the broadcast offset can
  never fire; the first is not in the model, the second is part of a larger test.

## Model

| member | source | states |
|---|---|---|
| `Ini.GenerateINI` | internal/wireguard/wgconf.go:169-199 | the printed text is one line per set field, interface first, then each peer in order |
| `Ini.SplitList` | internal/wireguard/wgconf.go:206-214 | the non-empty trimmed items of a comma-separated list, in order |
| `Ini.AssignField` | internal/wireguard/wgconf.go:238-274 | one key and value changes its field of the interface or of the last peer, an unknown key nothing, a bad number is its own error |
| `Ini.ParseINI` | internal/wireguard/wgconf.go:203-280 | folds every line into the configuration; each bad number and a missing private key is its own error |
| `IniRoundTrip.ListRoundTrip` | internal/wireguard/wgconf.go:173-178 | a printed list splits back into exactly its items |
| `IniRoundTrip.PrintThenParse` | internal/wireguard/wgconf.go:169-280 | a clean configuration with any number of peers reads back field by field, numbers below zero as zero |
| `IniRoundTrip.ParsedIsClean` | internal/wireguard/wgconf.go:203-280 | whatever text is parsed, the result has trimmed newline-free fields, comma-free items and a private key |
| `IniRoundTrip.RoundTripIff` | internal/wireguard/wgconf.go:169-280 | print then parse is the identity exactly on clean configurations with a private key and no negative number |
| `IniRoundTrip.ParsePrintParse` | internal/wireguard/wgconf.go:203-280 | what was parsed, if not negative, prints to a text that parses the same |
| `IniLines.ListsAddUp` | internal/wireguard/wgconf.go:238-274 | below any text that parses, two Address, two DNS or two AllowedIPs lines add up in order, the peer ones in a peer of their own |
| `IniLines.TextsReplace` | internal/wireguard/wgconf.go:238-280 | below any text that parses, a private key line replaces it, a blank one making it missing; public key and endpoint go to the peer of their section; a key in the wrong section does nothing |
| `IniLines.NumbersReplace` | internal/wireguard/wgconf.go:246-273 | below any text that parses, a port, MTU or keepalive line replaces the number, or is the error of that key with the text as read |
| `IniLines.NoiseIgnored` | internal/wireguard/wgconf.go:215-236 | below any text that reads, blank lines, comments and lines without an equals sign change nothing |
| `IniLines.OpenBracketIgnored` | internal/wireguard/wgconf.go:220-236 | a bracket that is not closed at the end of its line opens no section and sets nothing |
| `IniLines.OtherHeader` | internal/wireguard/wgconf.go:220-231 | any header other than peer, in any case and spacing, leads back to the interface |
| `Ipc.Validate` | internal/wireguard/wgconf.go:122-166 | accepts exactly the well-formed configurations; otherwise names the first test that fails, with the text or peer at fault |
| `Ipc.ValidatePeer` | internal/wireguard/wgconf.go:142-164 | accepts exactly a peer whose key, endpoint, allowed addresses and keepalive are well formed; otherwise names the first test that fails |
| `Ipc.ToIPC` | internal/wireguard/wgconf.go:286-318 | prints exactly the valid configurations, allowed addresses sorted, so only with a port in range, well-formed addresses and resolvers, and some peer; otherwise gives the first problem |
| `Ipc.ParseIPCDump` | internal/wireguard/wgconf.go:333-387 | folds every line into per-peer records, flushing at each public key and at the end; `CounterLine` to `OtherLine` and `DumpRoundTripIff` say which line sets what |
| `Dumps.CounterLine` | internal/wireguard/wgconf.go:355-362 | after any dump, an rx_bytes or tx_bytes line sets that counter of the last record and no other, to zero when the number cannot be read; before the first public key it does nothing |
| `Dumps.HandshakeLine` | internal/wireguard/wgconf.go:363-368 | after any dump, a handshake line sets the handshake of the last record exactly when it reads a positive number |
| `Dumps.KeepaliveLine` | internal/wireguard/wgconf.go:377-382 | after any dump, a keepalive line sets the keepalive of the last record exactly when it reads a number, of any sign |
| `Dumps.TextLine` | internal/wireguard/wgconf.go:352-376 | after any dump, an endpoint line replaces the endpoint, an address line adds one and a public key line starts an empty record |
| `Dumps.OtherLine` | internal/wireguard/wgconf.go:342-384 | after any dump, any other line changes nothing |
| `Dumps.OneRecordPerKey` | internal/wireguard/wgconf.go:333-387 | every dump yields exactly one record per public key line, and lines before the first are ignored |
| `Dumps.ParsedIsReportable` | internal/wireguard/wgconf.go:333-387 | whatever dump is parsed, the records hold trimmed newline-free texts and numbers of the source's widths |
| `Dumps.DumpRoundTripIff` | internal/wireguard/wgconf.go:333-387 | a full dump with counters, handshake, endpoint, addresses and keepalive is read back field by field exactly when every record holds such texts and numbers |
| `Dumps.ParseDumpParse` | internal/wireguard/wgconf.go:333-387 | whatever a dump parses to is what its own full dump parses to |
| `IpcRoundTrip.PrintThenParse` | internal/wireguard/wgconf.go:286-387 | a line-safe configuration reads back as one record per peer in order; nothing before the first peer leaks in |
| `IpcRoundTrip.ParsedIsFree` | internal/wireguard/wgconf.go:333-387 | no record parsed from any dump holds a newline |
| `IpcRoundTrip.RoundTripIff` | internal/wireguard/wgconf.go:286-387 | the dump is one record per peer, with key, endpoint, sorted addresses and keepalive, exactly when no peer's trimmed endpoint or allowed address holds a newline |
| `IpcRoundTrip.AllowedSorted` | internal/wireguard/wgconf.go:308-312 | the recorded addresses, when they carry no outer space, are the sorted permutation of the peer's addresses |
| `IpcRoundTrip.DeviceLines` | internal/wireguard/wgconf.go:295-298 | a line-safe configuration prints exactly one private key line, the first, and one port line, the second, exactly when the port is positive |
| `IpcRoundTrip.EndpointIff` | internal/wireguard/wgconf.go:146-155 | a plain host and a number make a valid endpoint exactly when the host is not empty and the number is from 1 to 65535 |
| `IpcRoundTrip.ValidReachesDevice` | internal/wireguard/wgconf.go:122-318 | a valid line-safe configuration reads back with a key of 64 digits per peer and every keepalive and endpoint as configured |
| `Text.HexDigits` | internal/wireguard/wgconf.go:104-119 | hexadecimal text holds two digits a byte, the high half first |
| `IpcRoundTrip.UnsafeEndpoint` | internal/wireguard/wgconf.go:146-155 | every well-formed endpoint with a newline gives a configuration that validates and does not read back |
| `IpcRoundTrip.ValidButUnsafe` | internal/wireguard/wgconf.go:146-155 | a configuration that validates and yet does not read back |
| `Ledger.Service.constructor` | internal/payments/payments.go:241-261 | starts with no credit, receipts or settlements |
| `Ledger.Service.RecordFunding` | internal/payments/payments.go:334-366 | records fresh credit exactly for a named session and node, a positive deposit and a price that is not negative |
| `Ledger.Service.PendingTotal` | internal/payments/payments.go:392-400 | the exact sum of the session's open receipts, or overflow exactly when it exceeds int64, in any map order |
| `Ledger.Service.RecordReceipt` | internal/payments/payments.go:376-409 | stores the receipt or refuses it for the first reason that applies; a refusal changes nothing; `StoredIff` and `VerdictIff` say when |
| `Ledger.StoredIff` | internal/payments/payments.go:376-409 | a receipt is stored exactly when its signature verified, its id is new and not empty, its amount is not negative, and its session is without credit or has enough left beside its open receipts; nothing else changes |
| `Ledger.VerdictIff` | internal/payments/payments.go:376-409 | each verdict exactly when it applies |
| `SettlementProtocol.StoredWasVerified` | internal/payments/payments.go:376-519 | over every run each stored receipt was received earlier in the run with a verified signature, unchanged but for its mark |
| `SettlementProtocol.CreditWasFunded` | internal/payments/payments.go:334-519 | over every run each credit has the node and deposit of a funding earlier in the run |
| `Ledger.Service.Unsettled` | internal/payments/payments.go:412-422 | lists a node's open receipts, each once |
| `Ledger.Aggregate` | internal/payments/payments.go:453-464 | the checked sum fails exactly when an amount is negative or the true sum exceeds int64 |
| `Ledger.Service.BeginSettlement` | internal/payments/payments.go:439-475 | nothing to settle exactly when none is open, overflow exactly when the true sum exceeds int64, else the batch, its total and its id |
| `Ledger.Service.MarkSettled` | internal/payments/payments.go:495-499 | marks exactly the receipts of the batch |
| `Ledger.Service.AttributeSpend` | internal/payments/payments.go:505-516 | adds each receipt to its session's credit, saturating, then capped at the deposit |
| `Ledger.Service.CommitSettlement` | internal/payments/payments.go:494-517 | marks, records and attributes the batch, and keeps spend within deposits |
| `Ledger.Service.RecordSettlement` | internal/payments/payments.go:438-519 | one call settles a listing of all open receipts or changes nothing, with each error exactly when it applies |
| `SettlementProtocol.StepKeeps` | internal/payments/payments.go:376-519 | every funding, receipt, begin, commit and abort keeps the ledger consistent, and each receipt of an in-flight batch either as it was or marked by a recorded batch, overlapping settlements or not |
| `Schedules.ExactlyOnce` | internal/payments/payments.go:438-519 | over every run, each receipt is in at most one recorded batch exactly when no two settlements of one node overlap and are both committed; then the totals sum to the amounts of all batched receipts |
| `SettlementProtocol.ExactTotals` | internal/payments/payments.go:438-519 | over every run, overlapping or not, each recorded settlement lists distinct marked receipts of its node and its total is the exact sum of their amounts |
| `Schedules.Conserved` | internal/payments/payments.go:438-519 | disjoint batches with exact totals sum to the amounts of all the receipts in them |
| `Spending.AttributeExact` | internal/payments/payments.go:501-516 | within the deposit, neither the saturation nor the cap changes a value |
| `Spending.AttributeClamps` | internal/payments/payments.go:501-516 | attributing a batch adds the session's share and stops at the deposit, marked receipts or not; the saturation never shows |
| `Spending.SpendWithinDeposit` | internal/payments/payments.go:376-519 | over every run without a committed overlap whose fundings of the session fit, spend equals the session's batched receipts, and spend plus open receipts stays within the deposit |
| `Spending.CommitWithinIff` | internal/payments/payments.go:494-517 | a commit keeps a session within its deposit exactly when what another batch already marked of its share amounts to nothing, or what is left of the share fills the deposit and hides it |
| `Spending.WithinDepositIff` | internal/payments/payments.go:364-519 | over every run a session is within its deposit all the way exactly when every funding of it fits and every commit meets that test |
| `Spending.SpentNeverExceeds` | internal/payments/payments.go:501-516 | over every run, overlapping or not, spend is never negative and never exceeds the deposit |
| `Spending.FundIff` | internal/payments/payments.go:364-366 | a funding step leaves that bound true exactly when the session has no batched amount and its open receipts fit the deposit |
| `Spending.FirstFundingFits` | internal/payments/payments.go:364-366 | funding before the first receipt always fits |
| `Spending.LateFundingOverspends` | internal/payments/payments.go:391-407 | funding after a larger receipt breaks the bound |
| `Schedules.OverlapSettlesTwice` | internal/payments/payments.go:438-519 | in every run, when two settlements of a node overlap and are both committed, each receipt of the first is also in another committed batch |
| `OverlapRun.OverlapSettlesAgain` | internal/payments/payments.go:438-519 | a run that settles any one receipt twice at once, and whose spend is then wrong unless the amount is zero or the whole deposit |
| `Schedules.SerialNeverOverlaps` | internal/payments/payments.go:438-519 | a run that begins no settlement of a node while one is in flight settles every receipt at most once |
| `SettlementProtocol.WholeIsTwoPhases` | internal/payments/payments.go:438-519 | a settlement in one call is its two phases with nothing between |
| `SettlementProtocol.AbortChangesNothing` | internal/payments/payments.go:486-489 | a failed submission leaves everything as it was |
| `BatchIds.RetrySameBatch` | internal/payments/payments.go:424-432 | the same receipt set gives the same total and batch id in any order |
| `BatchIds.PreimageIff` | internal/payments/payments.go:427-432 | two batches hash the same text exactly when their sorted ids fall into the same comma-separated pieces |
| `BatchIds.PreimageTellsSets` | internal/payments/payments.go:427-432 | with comma-free ids, batches hash the same text exactly when they hold the same receipts |
| `BatchIds.BatchIdsTellSets` | internal/payments/payments.go:424-432 | with comma-free ids and a hash that tells their texts apart, two batches get the same id exactly when they hold the same receipts |
| `BatchIds.PreimageCollision` | internal/payments/payments.go:427-432 | every batch of two or more ids hashes the same text as some single id |
| `Ipam.NewIPAM` | internal/nodes/ipam.go:26-51 | an allocator exactly for prefix lengths 1 to 29, over the range that holds the address and starts at a multiple of its size |
| `Ipam.ScanFinds` | internal/nodes/ipam.go:60-77 | the ring scan finds the first free offset in ring order, or none when every reached offset is used |
| `Ipam.IPAM.AllocateAddr` | internal/nodes/ipam.go:57-79 | the loop computes the ring scan and keeps the cursor in range without 32-bit overflow |
| `Ipam.AllocateIff` | internal/nodes/ipam.go:57-79 | succeeds exactly when a client offset is free; leases a free one, never network, server or broadcast |
| `Ipam.AllocatesNext` | internal/nodes/ipam.go:57-79 | an allocation takes the first free client offset from the cursor on, going round, and leaves the cursor behind it |
| `Ipam.FullMovesCursor` | internal/nodes/ipam.go:57-79 | a full pool only moves the cursor one place |
| `Ipam.IPAM.ReleaseAddr` | internal/nodes/ipam.go:82-91 | frees the wrapped offset of the address and nothing else |
| `Ipam.IPAM.ReserveAddr` | internal/nodes/ipam.go:94-106 | leases the offset if it is a client offset, else changes nothing |
| `Ipam.ReleaseUndoes` | internal/nodes/ipam.go:57-91 | releasing what was just allocated restores the lease set |
| `Sessions.Manager.Authorize` | internal/session/session.go:303-354 | opens a session with the capped expiry, or refuses for the first reason that applies and changes nothing; `AuthorizeIff` and `RefusalIff` say when |
| `Sessions.AuthorizeIff` | internal/session/session.go:303-354 | a session is opened, with the names, scope, endpoint and expiry of its token, exactly for an accepted, unexpired token that is not consumed and has no running session |
| `Sessions.RefusalIff` | internal/session/session.go:308-334 | which refusal an accepted token gets, exactly |
| `Sessions.ChangesExpiredOnly` | internal/session/session.go:332-346 | a step puts another session under an open token only once the old one has expired |
| `Sessions.OneLivePerToken` | internal/session/session.go:332-334 | over every run a token with a running session is refused and changes nothing, and a session is replaced only after it expired |
| `Sessions.Manager.IsRevoked` | internal/session/session.go:384-394 | the full scan answers membership |
| `Sessions.Manager.RevokeToken` | internal/session/session.go:358-380 | closes the session, consumes the id and drops the address entry unless a later session took it |
| `Sessions.Manager.ActiveCount` | internal/session/session.go:425-441 | counts exactly the sessions not past their quota |
| `Sessions.Manager.SweepOnce` | internal/session/session.go:452-480 | evicts exactly the due sessions and returns each once |
| `Sessions.RevokeForgets` | internal/session/session.go:358-380 | closing a session removes its own address entry and no other |
| `Sessions.SweepForgets` | internal/session/session.go:452-480 | a sweep keeps exactly the running sessions, consumes the others, and removes their address entries and no others |
| `Sessions.RunEntries` | internal/session/session.go:303-480 | over every run each address entry leads to a session with that address |
| `Sessions.StepKeeps` | internal/session/session.go:303-480 | every operation keeps live and revoked ids disjoint and accounts for every session |
| `Sessions.RunConserves` | internal/session/session.go:303-480 | over every run, authorized equals open plus consumed plus replaced after expiry |
| `Sessions.RevokedForever` | internal/session/session.go:319-331 | a revoked or swept id is refused by every later authorization |
| `Sessions.OpenSessionsAreBounded` | internal/session/session.go:308-346 | every open session was opened by the run with the names, scope and endpoint of its authorization, and outlives neither its token nor the cap |
| `Admission.Controller.constructor` | internal/nodes/controller.go:66-109 | starts empty over a pool with the unexpired stored rows reserved |
| `AdmissionRuns.StartupPool` | internal/nodes/controller.go:97-106 | restoring leases exactly the client offsets of the unexpired stored rows and moves neither range nor cursor |
| `Admission.Controller.Authorize` | internal/nodes/controller.go:166-226 | every gate and failure path in order, each undoing what came before |
| `AdmissionRuns.AdmittedIff` | internal/nodes/controller.go:166-226 | a client is admitted exactly when the node is enabled and accepting, the client is not abusive, fewer sessions are live than the limit, the key parses, an address is free, the token is in force with no running session, its scope is not refused, and the device takes the peer; what an admission then adds |
| `AdmissionRuns.GateIff` | internal/nodes/controller.go:174-195 | each early refusal exactly when it applies |
| `AdmissionRuns.RefusedChanges` | internal/nodes/controller.go:174-226 | without an admission no peer changes and no lease is kept; the token is used up exactly when the relay test or the device failed, and else nothing changes |
| `AdmissionRuns.LiveTokenChangesNothing` | internal/nodes/controller.go:196-204 | presenting a token whose session is running opens nothing and gives the address back |
| `Admission.Controller.Complete` | internal/nodes/controller.go:196-226 | once an address is allocated: a refused token gives it back, and a relay refusal or a failed peer also revokes the session |
| `Admission.Controller.RevokeToken` | internal/nodes/controller.go:229-245 | removes session, lease and peer together, or nothing for an unknown token |
| `AdmissionRuns.RemoveTakes` | internal/nodes/controller.go:229-245 | a removal takes away the session, its lease and, unless the device is stuck, its peer, and nothing else |
| `Admission.Controller.OnSessionExpired` | internal/nodes/controller.go:297-304 | removes the peer and frees the lease of a swept session |
| `Admission.Controller.SweepOnce` | internal/nodes/controller.go:293-304 | sweeps sessions, leases and peers together and counts them |
| `AdmissionRuns.ExpireTakes` | internal/nodes/controller.go:293-304 | a sweep keeps exactly the running sessions, and takes away exactly the peers of the others that the device lets go |
| `AdmissionRuns.NextSound` | internal/nodes/controller.go:166-304 | every operation, failing or not, leaves each open session holding a leased address that leads back to it |
| `AdmissionRuns.RunSound` | internal/nodes/controller.go:66-304 | the same over every run from startup, with addresses pairwise distinct |
| `AdmissionRuns.NextWiredIff` | internal/nodes/controller.go:166-304 | from a node with every open session's peer installed at its address, an operation keeps it so exactly when it does not complete an admission of a key another open session uses |
| `AdmissionRuns.RunWiredIff` | internal/nodes/controller.go:166-304 | over every run from startup, peers stay installed all the way exactly when no step completes such an admission |
| `AdmissionRuns.SweepKeepsPeerIff` | internal/nodes/controller.go:293-304 | a sweep keeps a live session's peer exactly when no evicted session it removes shares the key |
| `AdmissionRuns.ReconnectLosesPeer` | internal/nodes/controller.go:196-215 | reconnecting with the same key before the sweep loses the peer at the sweep |
| `AdmissionRuns.NextOrphans` | internal/nodes/controller.go:166-304 | no event changes the leases without a session, except replacing an expired session |
| `AdmissionRuns.LeasesAccounted` | internal/nodes/controller.go:66-304 | the lease set is exactly the open sessions' addresses, the client offsets of the rows unexpired at startup, and the replaced sessions' leases |
| `AdmissionRuns.NextReplacesExpired` | internal/nodes/controller.go:196-215 | an operation puts another session under an open token only once the old one has expired |
| `AdmissionRuns.AbandonedHadExpired` | internal/nodes/controller.go:166-304 | over every run each lease left behind was that of a session that had expired when it was replaced |
| `AdmissionRuns.NextPeers` | internal/nodes/controller.go:166-304 | a peer without an open session was so before, or is left by a stuck device or by replacing an expired session |
| `AdmissionRuns.PeersAreOfOpenSessions` | internal/nodes/controller.go:166-304 | over every run each installed peer is that of an open session, unless such a step left it |
| `AdmissionRuns.NextBalance` | internal/nodes/controller.go:166-304 | no operation changes leases plus consumed tokens minus sessions ever authorized |
| `AdmissionRuns.RunBalance` | internal/nodes/controller.go:66-304 | leases plus consumed tokens equal sessions ever authorized plus the client offsets of the rows unexpired at startup |
| `Capacity.ActKeeps` | internal/nodes/controller.go:185-204 | every step keeps live sessions plus authorizations in flight under the bound |
| `Capacity.LiveWithinCapacity` | internal/nodes/controller.go:185-204 | with at most k authorizations in flight, live sessions never exceed the limit minus one plus k; serial calls never exceed the limit |
| `Capacity.BoundIsReached` | internal/nodes/controller.go:185-204 | for every limit and every k some run reaches that bound |
| `Limits.OpensIsCheckAndCommit` | internal/nodes/controller.go:185-204 | an admission that gets past the controller's gate is a check and a commit of the capacity model |
| `Limits.AdmitWithin` | internal/nodes/controller.go:185-204 | an admission keeps live clients within the limit |
| `Limits.ClientsWithinLimit` | internal/nodes/controller.go:166-304 | over every run of whole operations from startup, live clients never exceed the largest limit in force |
| `Tokens.Issuer.MintToken` | internal/tokens/tokens.go:102-142 | records the token and returns its bearer string, or refuses blank names and unknown scopes |
| `Tokens.Issuer.ValidateToken` | internal/tokens/tokens.go:153-187 | the verdict on a presented string: malformed, unknown, revoked, wrong secret, expired or accepted |
| `Tokens.Issuer.RevokeToken` | internal/tokens/tokens.go:191-199 | consumes exactly a known id |
| `Tokens.Issuer.SweepOnce` | internal/tokens/tokens.go:223-235 | collects exactly the unrevoked records expired beyond the grace, and counts them |
| `Tokens.SweepKeepsVerdicts` | internal/tokens/tokens.go:215-235 | a sweep changes no verdict, except from expired to invalid for a string that expired longer ago than the grace |
| `Tokens.BearerVerdict` | internal/tokens/tokens.go:153-187 | a bearer string is accepted exactly when its own record is unrevoked, matches and has not expired, and never without an issuer |
| `Tokens.AcceptedUntilExpiryOrRevocation` | internal/tokens/session.go:29-52 | through the adapter a minted string is accepted exactly until its expiry, four hours after minting by default, or its revocation, over every run, with the names, expiry and scope it was minted with; revoked it stays revoked, expired it is reported expired, or invalid only more than a day later |
| `Tokens.AcceptedWasMinted` | internal/tokens/tokens.go:102-187 | every accepted string was minted in the run, is not revoked and has not expired |
| `Access.OpenSessionsWereMinted` | internal/session/session.go:303-354 | every open session was opened by the exact string of a token minted earlier, unrevoked and unexpired, ends no later than it and has the scope it was minted for |
| `Access.MintedAdmittedIff` | internal/nodes/controller.go:166-226 | a minted token presented to a controller is admitted exactly when it is unexpired, revoked neither at the issuer nor at the node, has no running session, was not minted for exit while the node only relays, and the node has room and takes the peer |
| `Access.RevokedNeverOpens` | internal/tokens/session.go:29-52 | a token revoked at the issuer never opens a session again |
| `TokenBucket.Normalize` | internal/nodes/ratelimit.go:42-57 | positive limits are kept and each other one becomes its default, so limits are always positive |
| `TokenBucket.RateLimiter.constructor` | internal/nodes/ratelimit.go:76-86 | starts with no buckets and positive limits |
| `TokenBucket.Allow` | internal/nodes/ratelimit.go:103-124 | refills by elapsed time up to the burst and takes one token if there is one |
| `TokenBucket.RateLimiter.AllowAuthorize` | internal/nodes/ratelimit.go:89-93 | changes only the authorize bucket of the canonical address, as the token bucket says |
| `TokenBucket.RateLimiter.AllowMgmt` | internal/nodes/ratelimit.go:96-100 | changes only the management bucket of the canonical address, as the token bucket says |
| `TokenBucket.KeysIndependent` | internal/nodes/ratelimit.go:103-124 | a key's bucket is a function of that key's calls alone |
| `TokenBucket.SharedBucketIff` | internal/nodes/ratelimit.go:126-139 | two addresses share a bucket exactly when both are empty, both parse to the same text, or neither parses and their hosts are the same |
| `TokenBucket.BurstIsExact` | internal/nodes/ratelimit.go:103-124 | a new key starts full: of any number of calls at one time exactly the burst is allowed |
| `TokenBucket.AloneLast` | internal/nodes/ratelimit.go:109-118 | a bucket is dated by the latest of its key's calls, even when the clock goes back |
| `TokenBucket.TokensInRange` | internal/nodes/ratelimit.go:111-118 | tokens stay between zero and the burst |
| `TokenBucket.AtMostBurstPlusRate` | internal/nodes/ratelimit.go:103-124 | between any two times at most burst plus one per window are allowed |
| `TokenBucket.SpacedNeverRefused` | internal/nodes/ratelimit.go:103-124 | a call at least one window after all earlier ones is allowed |
| `SlidingWindow.NewRateLimiter` | internal/security/acl.go:72-77 | a limiter exactly for positive parameters |
| `SlidingWindow.Compact` | internal/security/acl.go:85-90 | the kept times move down over the array being read, no write overtaking a read, and leave exactly the times after the cut, in order |
| `SlidingWindow.Append` | internal/security/acl.go:95-95 | one more element, in place when the array has room and else in a new one |
| `SlidingWindow.HitSlice` | internal/security/acl.go:84-96 | one event on a slice: the list after it and whether it was allowed |
| `SlidingWindow.RateLimiter.Allow` | internal/security/acl.go:80-97 | prunes the key's list in its own backing array, then appends the event or refuses it; no other key's list changes |
| `SlidingWindow.ListIsPrunedHistory` | internal/security/acl.go:84-96 | after every call the list is the full history of allowed events cut at the window |
| `SlidingWindow.AtMostMaxPerWindow` | internal/security/acl.go:80-97 | every window of the configured length, open on the left, holds at most max allowed events of a key, under a clock that does not go back |
| `SlidingWindow.AtMostTwicePerClosedWindow` | internal/security/acl.go:80-97 | no window closed on both sides ever holds more than twice the limit |
| `SlidingWindow.ClosedWindowHoldsTwice` | internal/security/acl.go:84-90 | for every limit, max events at the left edge and max at the right edge are all allowed, so a window closed on both sides holds twice the limit |
| `Routes.CheckDistinct` | internal/multihop/route.go:167-189 | accepts exactly nodes pairwise distinct in id, host and operator key |
| `Routes.CheckDiverse` | internal/multihop/route.go:134-144 | accepts exactly nodes with distinct known countries |
| `Routes.Reason` | internal/multihop/route.go:101-145 | there is a reason against a node list exactly when it makes no route |
| `Routes.ReasonIff` | internal/multihop/route.go:101-145 | each refusal exactly when it applies |
| `Routes.PairIff` | internal/multihop/route.go:167-189 | two nodes make a route exactly when both are complete and differ in id, host and key |
| `Routes.OneBoxOneHop` | internal/multihop/route.go:191-198 | one host under two ports or in two spellings of its letters never serves two hops |
| `Routes.SingleIff` | internal/multihop/route.go:82-132 | a single complete node makes a route exactly within the latency asked for, or 150 ms in fast and 800 ms in safe mode; a node without a latency always does |
| `Routes.OneCountryOneHop` | internal/multihop/route.go:134-144 | where countries must differ, one country in two spellings of its letters never serves two hops |
| `Routes.BuildRoute` | internal/multihop/route.go:101-161 | builds exactly the lists that make a route, else names the first reason |
| `Routes.CheckUnkeyed` | internal/multihop/route.go:238-252 | separation without the key leg, for stored routes |
| `Routes.Verify` | internal/multihop/route.go:203-253 | accepts exactly routes with an id, one to three dialable hops, and separation |
| `Routes.VerifiedPairIff` | internal/multihop/route.go:203-253 | two hops verify exactly when both can be dialled and they differ in id, host and key; without a key on both, in id and in any known host |
| `Routes.BuiltVerifies` | internal/multihop/route.go:101-253 | every built route verifies and its hops can be built again |
| `Guards.FilterEligible` | internal/multihop/guards.go:172-177 | the valid nodes of the pool, in order |
| `Guards.ExcludeNodes` | internal/multihop/guards.go:229-240 | the nodes whose id is not skipped, in order |
| `Guards.EligibleConcat` | internal/multihop/guards.go:172-177 | filtering works piece by piece and keeps the order |
| `Guards.ExcludeConcat` | internal/multihop/guards.go:229-240 | excluding works piece by piece and keeps the order |
| `Guards.FilterOne` | internal/multihop/guards.go:172-240 | a single node passes exactly when it has id, key and endpoint, and exactly when its id is not skipped |
| `Guards.PickFresh` | internal/multihop/guards.go:215-225 | one pick per hop, each from the nodes not yet taken |
| `Guards.RotateGuarded` | internal/multihop/guards.go:165-227 | pinned routes swap downstream hops, others are rebuilt, every failure is an error; `PinnedRotationIff` and `FreshRotationIff` say when and to what |
| `Guards.PinnedRotationIff` | internal/multihop/guards.go:165-213 | a pinned route of one to three hops is rotated exactly when the picker answers once per replaced hop, each time from the valid nodes not in the route and not picked yet, and the kept entry with the picks makes a route; the picks are then the new hops, in order |
| `Guards.FreshRotationIff` | internal/multihop/guards.go:144-225 | without a pin a route is rotated exactly when the picker answers once per hop, each time from the valid nodes not picked yet, and the picks make a route; they are then the hops, in order, and the pinned flag survives only with the entry |
| `Guards.PickPathIff` | internal/multihop/guards.go:215-225 | the picks of a fresh path: so many, each from the pool without the ids before it |
| `Guards.DownstreamIsNew` | internal/multihop/guards.go:165-213 | over every run, each pinned rotation that succeeds replaces every hop behind the entry by a node that was not in the route, when the picker answers from its pool |
| `Guards.FreshGuardPins` | internal/multihop/guards.go:37-78 | a fresh guard pins exactly the routes that start at its entry, and never without an id; a cleared guard pins nothing |
| `Guards.RotationVerifies` | internal/multihop/guards.go:87-227 | every successful rotation of a route of one to three hops verifies and keeps the hop count, whatever guard, pool and picker |
| `Guards.PinnedKeepsEntry` | internal/multihop/guards.go:101-138 | a pinned route of two or three hops keeps entry id, key and endpoint, and loses its country and price |
| `Guards.PinnedSingleHopChanges` | internal/multihop/guards.go:94-100 | a pinned single hop becomes the picked node |
| `Guards.EntryNeverChanges` | internal/multihop/guards.go:165-227 | over every run from a pinned verified route the entry and hop count never change and every route verifies |
| `Guards.PinsAsDocumentedIff` | internal/multihop/guards.go:71-78 | for a guard on the route's own entry, code and comment agree exactly while the guard is younger than its interval, thirty days by default |
| `Guards.DueGuardStillPins` | internal/multihop/guards.go:37-78 | a guard becomes due thirty days after it was pinned, for good, and pins its entry all the same; a cleared guard pins nothing |
| `Guards.DueGuardKeepsEntry` | internal/multihop/guards.go:165-227 | a rotation keeps the entry of a route of several hops however old the guard is; a cleared guard acts like none |
| `Selection.RankSorts` | internal/multihop/latency.go:177-202 | ranking permutes the pool into rank order and keeps ties in place |
| `Selection.FastOrder` | internal/multihop/latency.go:177-198 | in fast mode the nodes come in the order of the latency they show: measured, else advertised, else half a second |
| `Selection.ScoreWeights` | internal/multihop/latency.go:63-80 | what the score adds up, factor by factor, and that an unmeasured node counts as half a second |
| `Selection.BlendedOrder` | internal/multihop/latency.go:83-101 | in the other modes no node comes before one that is closer and no worse in load, price, uptime and history, unless its score is cut to zero |
| `Selection.PoolMembers` | internal/multihop/latency.go:156-174 | the pool is the valid candidates within budget, or all valid ones if none is, and is empty only when none is valid |
| `Selection.WithinBudgetOnly` | internal/multihop/latency.go:124-136 | drops exactly the nodes measured over the budget |
| `Selection.OnePass` | internal/multihop/latency.go:208-226 | the loop with its set of used countries computes the greedy pass |
| `Selection.BothPasses` | internal/multihop/latency.go:205-227 | the second pass runs only on a short path, and leaving it out otherwise changes nothing |
| `Selection.SelectRoute` | internal/multihop/latency.go:149-232 | fails exactly when no candidate is valid, else returns the two-pass greedy path over the ranked pool |
| `Selection.ExtendMaximal` | internal/multihop/latency.go:207-227 | after a short pass every ranked node collides or was held back for its country |
| `Selection.SelectedPath` | internal/multihop/latency.go:149-232 | the path starts at the best-ranked node, has one to cap nodes, makes a route, and if short cannot be extended from the pool |
| `Selection.BuildableIff` | internal/multihop/latency.go:156-174 | under its own tradeoff the selected path makes a route exactly when some valid candidate is within the budget |
| `Selection.OverBudgetPath` | internal/multihop/latency.go:156-174 | one valid node over the budget is selected in safe mode and makes no route under it |
| `Selection.SafePrefersNewCountries` | internal/multihop/latency.go:203-227 | in safe mode a repeated country comes only after every separable new-country node is taken |
| `Selection.LongestOfTwoIff` | internal/multihop/latency.go:145-148 | with two hops the path is the longest exactly when some node is separated from the best one, or no two nodes are |
| `Selection.GreedyPrefix` | internal/multihop/latency.go:205-227 | selecting with one more hop keeps every hop already chosen and adds at most one |
| `Selection.FirstFollowerIsFirst` | internal/multihop/latency.go:208-226 | the place it gives can follow the best-ranked node and no earlier place can |
| `Selection.SecondHop` | internal/multihop/latency.go:205-227 | the second hop is the first node in rank order separated from the best one; in safe mode the first such node in a new country, if there is one |
| `Selection.LongestOfThreeIff` | internal/multihop/latency.go:145-148 | with three hops and a second hop at place j, the path is the longest exactly when some node is separated from those at places 0 and j or no three nodes are separated; with no second hop, exactly when no two nodes are |
| `Selection.GreedyStopsShort` | internal/multihop/latency.go:145-148 | a best node that clashes with two separated nodes stops the path at one hop |
| `Rotator.VerifiedIsBuildable` | internal/multihop/circuit.go:181-259 | a circuit with an id and one to three hops verifies exactly when its nodes make a route and its entry is named |
| `Rotator.NewRotator` | internal/multihop/rotator.go:32-40 | a rotator exactly for a circuit that verifies |
| `Rotator.CircuitRotator.RotateEntry` | internal/multihop/rotator.go:63-105 | installs and logs the rebuilt circuit or leaves everything as it was |
| `Rotator.CircuitRotator.RotateExit` | internal/multihop/rotator.go:112-150 | the same for the exit |
| `Rotator.CircuitRotator.RotateDownstream` | internal/multihop/rotator.go:155-186 | the same for middle and exit, on three hops only, when nothing falls between its two locks |
| `Rotator.CircuitRotator.CaptureDownstream` | internal/multihop/rotator.go:156-163 | the circuit the rotation will be built from, on three hops only |
| `Rotator.CircuitRotator.CommitDownstream` | internal/multihop/rotator.go:164-186 | builds from the captured circuit and installs over whatever is current, logging a change from the captured entry |
| `Rotator.StepKeeps` | internal/multihop/rotator.go:63-186 | a rotation keeps the hop count, verification and, on several hops, everything on the side it does not swap |
| `Rotator.StepInstalls` | internal/multihop/rotator.go:63-186 | on success the new nodes sit where they were asked for |
| `Rotator.EntrySwapIff` | internal/multihop/rotator.go:63-105 | on one, two and three hops the entry is replaced, and the change logged, exactly when the new node with the rest of the path makes a route under a non-empty id; else nothing changes |
| `Rotator.ExitSwapIff` | internal/multihop/rotator.go:112-150 | the same for the exit |
| `Rotator.DownstreamSwapIff` | internal/multihop/rotator.go:155-186 | the same for middle and exit, and nothing changes on fewer than three hops |
| `Rotator.RunKeeps` | internal/multihop/rotator.go:63-186 | over every serial run the circuit verifies, keeps its hop count, and the log chains from the first entry to the current one |
| `Rotator.GuardedRunKeepsEntry` | internal/multihop/rotator.go:107-186 | a run without entry swaps keeps the entry of a multi-hop circuit |
| `Rotator.CaptureThenCommit` | internal/multihop/rotator.go:155-186 | a capture and its commit with nothing between are a whole downstream rotation |
| `Rotator.MoveChainedIff` | internal/multihop/rotator.go:155-186 | a step keeps the log chained exactly when it is not a commit built from another entry than the current one; such a commit puts the captured entry back |
| `Rotator.SharedRunIff` | internal/multihop/rotator.go:63-186 | over every run with overlapping downstream rotations the circuit verifies and keeps its hop count, and the log stays chained all the way exactly when no commit is stale in that sense |
| `Rotator.EntrySwapInside` | internal/multihop/rotator.go:63-186 | every entry rotation that falls inside a downstream rotation is undone and breaks the log |
| `Rotator.SomeEntrySwapInside` | internal/multihop/rotator.go:63-186 | such a run exists |
| `Watchdog.TunnelEngine.NoteFailureLocked` | internal/tunnel/monitor.go:126-146 | counts a failure and moves to FAILED or CONNECTING as the retries say |
| `Watchdog.TunnelEngine.StepPoll` | internal/tunnel/monitor.go:68-114 | one whole poll: monotone counters and the transition for a fresh, stale or missing handshake |
| `Watchdog.TunnelEngine.CommitPoll` | internal/tunnel/monitor.go:80-114 | what a poll does with its sample, whatever became of the device |
| `Watchdog.TunnelEngine.StartTunnel` | internal/tunnel/engine.go:194-249 | the whole start: it succeeds exactly when valid, not running and a backend exists; else FAILED or unchanged |
| `Watchdog.TunnelEngine.BeginStart` | internal/tunnel/engine.go:200-211 | under the first lock: takes the configuration, goes CONNECTING and clears the failures, unless a device is there |
| `Watchdog.TunnelEngine.AttachDevice` | internal/tunnel/engine.go:213-221 | attaches the device, or goes FAILED when none could be made |
| `Watchdog.TunnelEngine.FinishStart` | internal/tunnel/engine.go:231-245 | what a start does with its own sample, whatever became of the device |
| `Watchdog.TunnelEngine.StopTunnel` | internal/tunnel/engine.go:259-278 | drops the backend and goes DOWN |
| `Watchdog.TunnelEngine.ApplyConfiguration` | internal/tunnel/engine.go:300-322 | replaces the configuration and clears the retries exactly on success |
| `Watchdog.TunnelEngine.RotateEndpoint` | internal/tunnel/engine.go:326-357 | switches the endpoint, clears the retries and leaves FAILED on success; a refusal leaves the peer list written |
| `Watchdog.TunnelEngine.WakeUp` | internal/tunnel/engine.go:362-376 | clears the retries of a running tunnel |
| `Watchdog.StepKeeps` | internal/tunnel/monitor.go:68-146 | every operation keeps UP over a live device with no counted failure, and no counter decreases |
| `Watchdog.UpIsAlwaysLive` | internal/tunnel/engine.go:190-278 | over every run UP means a live device and no counted failure |
| `Watchdog.CaptureThenCommit` | internal/tunnel/monitor.go:68-114 | a capture of the device and the commit of its sample with nothing between are a whole poll |
| `Watchdog.StartInParts` | internal/tunnel/engine.go:194-249 | the parts of a start with nothing between are a whole start |
| `Watchdog.BeatIff` | internal/tunnel/monitor.go:68-114 | a step keeps UP over a live device with no counted failure exactly when it does not commit a fresh handshake of a device that is gone, nor finish a start with a handshake while the device is gone or a failure is counted |
| `Watchdog.UpIsLiveIff` | internal/tunnel/monitor.go:68-114 | over every run with polls and starts cut in parts, UP means a live device with no counted failure all the way exactly when no step is late in that sense |
| `Watchdog.LateWasInterrupted` | internal/tunnel/engine.go:194-278 | every late step was interrupted: by a stop since its device was captured or attached, or by a failing poll since its start began |
| `Watchdog.StoppedStaysGone` | internal/tunnel/engine.go:259-278 | after a stop with no device attached since, the device is gone |
| `Watchdog.StopInsidePoll` | internal/tunnel/monitor.go:68-114 | a run with a stop inside a poll that ends UP without a device |
| `Watchdog.StopInsideStart` | internal/tunnel/engine.go:231-278 | a run with a stop inside a start that ends UP without a device |
| `Watchdog.FailureInsideStart` | internal/tunnel/engine.go:231-245 | a run with a failing poll inside a start that ends UP with a failure counted |
| `Watchdog.CountersNeverDecrease` | internal/tunnel/monitor.go:86-92 | over every run the traffic counters never decrease |
| `Watchdog.CountersAreLargest` | internal/tunnel/monitor.go:86-92 | over every run each counter is the largest sample of it so far |
| `Watchdog.PollPhase` | internal/tunnel/monitor.go:93-146 | the phase a poll of a live device ends in, exactly: UP on every fresh handshake, FAILED when the retries are used up; and when the time of the last change moves |
| `Watchdog.PollHandshake` | internal/tunnel/monitor.go:94-104 | which handshake is kept: the newer in steady state, else the one sampled |
| `Watchdog.CallPhase` | internal/tunnel/engine.go:194-376 | the phase, the device and the time of the last change after every lifecycle call |
| `Watchdog.DownIff` | internal/tunnel/engine.go:194-278 | over every run the tunnel is DOWN exactly when every start that got past its first test was stopped later |
| `Watchdog.StepConfigures` | internal/tunnel/engine.go:194-357 | which event changes the peers and the reported endpoint, and to what |
| `Watchdog.UpIsRecent` | internal/tunnel/monitor.go:93-113 | after every poll, and every start under a stale limit that is not negative, UP means a handshake or a change of state no older than the stale limit |
| `Watchdog.StartFreshIff` | internal/tunnel/engine.go:232-244 | a start goes UP on any handshake; the handshake is fresh exactly when it was no older than the stale limit, and otherwise the next poll that finds no newer one leaves UP and counts a failure |
| `Watchdog.StartOnOldHandshake` | internal/tunnel/engine.go:232-244 | a start that goes UP on a handshake just past the stale limit |
| `Watchdog.RetriesCountFailures` | internal/tunnel/monitor.go:68-146 | the retry count is exactly the failing polls since the last reset |
| `Watchdog.FailedNeedsFailures` | internal/tunnel/monitor.go:126-140 | no poll enters FAILED with fewer failures than the retries allow |
| `Watchdog.FailuresEndInFailed` | internal/tunnel/monitor.go:126-140 | one more failing poll in a row than the retries allow always ends in FAILED |
| `Watchdog.FailedIsNotSticky` | internal/tunnel/monitor.go:105-112 | from FAILED a poll without handshake returns to CONNECTING exactly inside the grace window, and the next failure fails again |
| `Watchdog.RotateInSyncIff` | internal/tunnel/engine.go:330-350 | a rotation leaves endpoint and configuration in agreement exactly when the device accepts or nothing changes |
| `Watchdog.InSyncIff` | internal/tunnel/engine.go:194-357 | over every run the reported endpoint is that of the first configured peer all the way exactly when no rotation to another endpoint was refused |
| `Watchdog.RefusedRotationDrifts` | internal/tunnel/engine.go:330-350 | a started tunnel and another endpoint that the device refuses |
| `Watchdog.BackoffFor` | internal/tunnel/monitor.go:149-158 | the delay doubles from one second and is capped at one minute |
| `Shaper.Validate` | internal/cover/cover.go:71-99 | accepts exactly the configurations that can be honoured, and no unknown mode |
| `Shaper.NewShaper` | internal/cover/cover.go:162-175 | a shaper exactly for a valid configuration: none for an unknown mode, positive strictly ascending buckets for padding, a positive cell and interval and no negative cap for constant rate |
| `Shaper.TrafficShaper.Pad` | internal/cover/cover.go:274-281 | the loop finds the first bucket that holds the payload |
| `Shaper.TrafficShaper.SendPacket` | internal/cover/cover.go:196-218 | queues in constant mode, else emits and counts; `PadModePads` and `OffModeAddsNothing` say what leaves |
| `Shaper.TrafficShaper.TickCell` | internal/cover/cover.go:223-261 | sends the oldest payload, or cover unless the cap is hit |
| `Shaper.PadToLeast` | internal/cover/cover.go:272-281 | padding never shrinks a payload and gives the least bucket that holds it, or the payload itself when none does |
| `Shaper.PadToMonotone` | internal/cover/cover.go:272-281 | padding is monotone and idempotent |
| `Shaper.PadModePads` | internal/cover/cover.go:196-218 | over every run in padding mode each unit on the wire carries a payload in the least configured bucket that holds it, or as it is when none does; without configured buckets they are 128, 256, 512, 1024 and 1420 |
| `Shaper.OffModeAddsNothing` | internal/cover/cover.go:196-218 | over every run switched off each unit on the wire is its payload, and no padding or cover is counted |
| `Shaper.ConstantRate` | internal/cover/cover.go:196-261 | over every constant-mode run each tick puts one unit on the wire or is counted as dropped, and sending puts none there; in the other modes each payload leaves at once and ticks do nothing |
| `Shaper.BusyTickCarries` | internal/cover/cover.go:230-247 | over every constant-mode run a tick carries the oldest payload not yet on the wire; cover goes out only when none is waiting |
| `Shaper.FifoAndConserved` | internal/cover/cover.go:196-261 | over every run payloads leave in order with none lost, and wire bytes equal real plus padding plus cover |
| `Shaper.IdleTickIff` | internal/cover/cover.go:248-260 | an idle tick sends cover exactly when padding and cover with the new cell fit the cap |
| `Shaper.CoverWithinCap` | internal/cover/cover.go:248-260 | over every constant-mode run with a cap, cover bytes stay within the cap times the real bytes |
| `Shaper.TickWithinIff` | internal/cover/cover.go:230-260 | from a constant-mode state with padding plus cover within the cap, a tick stays within it exactly when the queue is empty or the oldest payload pays for its own padding |
| `Shaper.WithinCapIff` | internal/cover/cover.go:196-260 | over every constant-mode run with a cap, padding plus cover stays within it all the way exactly when every payload carried pays for its own padding |
| `Shaper.PaddingNotCapped` | internal/cover/cover.go:63-67 | a first payload too small to pay for its own padding breaks the cap |
| `Shaper.UniformCells` | internal/cover/cover.go:230-260 | in constant mode every unit on the wire is one cell, unless a payload alone is larger |

## Left out

- `Service.Authorize` before its funding step: registry, balance, approval and wallet calls; only what they let through changes the ledger.
- Signature checking, hashing, base64, random ids and IP text: parameters of the model.
- Error texts: errors are enumerated.
- Ipam.NewIPAM: takes the parsed address and prefix length; the text form of addresses is not part of this model.
- Watchdog.TunnelEngine.StartTunnel: the whole call; what may fall between its parts is covered by its three parts and `UpIsLiveIff`.
- Watchdog.TunnelEngine.StepPoll: the whole poll; what may fall inside it is covered by `CommitPoll` and `UpIsLiveIff`.
- Watchdog.TunnelEngine.ApplyConfiguration: the whole call; it and `RotateEndpoint` also release the lock while the device works.
- Watchdog.UpIsAlwaysLive: whole operations only; `UpIsLiveIff` covers polls and starts that others interrupt.
- Admission.Controller.Authorize: the abuse guard, the key parser and the device are given answers.
- Constant-time comparison: equality.
- Overlapping controller operations, except for the client limit: each operation is whole.
- Rotator.CircuitRotator.RotateDownstream: the whole call; what may fall between its two locks is modelled by its two parts and `SharedRunIff`.
- Events, callbacks, persistence and heartbeats.
- `Session` fields that only count traffic, and the revoked flag, which is never set on a session still in the table.
- SlidingWindow.Append: how much room a new backing array has is fixed, where the Go runtime chooses it.
- Integer width of traffic and shaping counters: unbounded.
- Letter case outside ASCII images, for hosts and countries.
- `AggregateStats`, `PickPair`, `Observe`, `QuotaHours`, `Stats.Overhead`: would only add easy members.
- OS backends, firewall, DNS, routing, the chain client, HTTP API, UI and mobile code.
