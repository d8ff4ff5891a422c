# free_proxy, verified

free_proxy redirects the TCP connections of a host through a SOCKS5 proxy: a daemon on port 12345
receives what an iptables chain redirects, a worker process per connection talks SOCKS5 to the proxy
and relays bytes, and a small command set edits the configuration, the daemon and the chain. This
project models the parts of it that keep state, branch on failure, or run concurrently, and proves
what they are for.

`dafny verify dfyconfig.toml` checks everything.

## How it is modelled

**Worker pool and statistics table** (`StatsTable`, `WorkerPool`, `WorkerPoolOwnership`,
`WorkerPoolCounting`, `WorkerPoolSafety`, `WorkerPoolAdds`, `WorkerPoolWitnesses`).
`StatsTable.StatsMap` is the mapped table with its five operations, run without interference.
`WorkerPool` takes the same operations apart: every store, every compare-and-swap, every guard and every
scan advance is one step; workers, the accept loop and the SIGCHLD handler interleave under sequential
consistency; the handler interrupts the accept loop wherever SIGCHLD is not blocked, and workers go on
while it runs; a worker may be killed at any step. The theorems hold of every run from the empty table.

**Bypass language, file and status text** (`Text`, `Address`, `BypassLanguage`, `ConfigFile`,
`ConfigStore`, `StatusText`). `ConfigStore.Config` is `struct fp_config` with the loops of the parser,
the printer and the loader, proved equal to functions on texts. What a token, an endpoint or a file
means is stated without the parser: by decimal octets from the high one down, by blanks, sign and digits
of a number, and by the high bits that two addresses share.

**NAT chain** (`Firewall`, `FirewallRuns`, `NatTable`). A table is the chain and the OUTPUT rules; its
meaning is the first rule that matches. `NatTable.Nat` runs the commands of `src/firewall.c`; which of
them fail is decided by an arbitrary sequence `luck`, and a failing command has no effect. The history
of tables is recorded, so statements cover every intermediate table.

**Transactions** (`Operations`, `Commands`, `Transactions`, `TransactionFaults`, `TransactionWitnesses`,
`TransientRedirects`, `CommandResults`, `Progress`). The state is the file on disk, the pid record, and
the NAT table; `Commands.Host` runs `src/operations.c` on it and is proved equal to the functions of
`Operations`. Saves, daemon starts and stops, the lock and every iptables mutation fail at will; the
daemon may also crash or quit between commands. `stuck` records that a clean-up of the firewall failed
and `unsaved` that a roll-back left another configuration on disk: these are the two faults that the
program ignores, and the invariant is claimed when neither has happened. `Progress` is the other half:
without failures the commands succeed, and after one the roll-backs restore the old state.

**Sockets, SOCKS5, relay, HTTP** (`Sockets`, `Socks5`, `Relay`, `HttpHeaders`). A socket is a script of
what `recv` and `send` meet: pieces of any size, EINTR, timeouts, errors, the end. `Stream` is the byte
stream that a script amounts to, `Capacity` what it lets through. A shared trace records every byte in
and out and every half-close in order.

**Resolver hand-off** (`Resolver`). The two threads of `resolve_ipv4` as a step system.

## Things the proofs brought to light

- A slot leaks for good when its worker is killed in one of two windows, not one: after the
  compare-and-swap and before the pid is stored, and in a release after the pid is erased and before
  `active` is cleared. `LeaksCountWindowKills` makes the leaked slots exactly as many as such kills;
  `ClaimWindowLeaks` and `ReleaseWindowLeaks` are a run through each window. After one such kill a claim
  can fail among 128 live workers (`FailedClaimHappens`), and without one none does (`FailedClaimNeedsKill`).
- `append_bypass` tests the capacity before it looks for a duplicate, so a token that repeats one of 32
  stored entries is refused (`RepeatRefusedExactlyWhenFull`, with a list and a token in `RepeatRefused`).
- The status text of an empty list, "none", is not in the bypass language (`NoneIsNotAList`).
- The transaction invariant needs the pid record. Redirection left behind without one is not updated by
  a successful `fp_set_bypass`; `UntrackedRedirection` says exactly when that does harm, and
  `UntrackedRedirectionHappens` that a daemon which quits without removing its jump leads there.
- `fp_enable_proxy` and `fp_set_bypass` can report failure and lose the invariant although every clean-up
  of the firewall works. `PerformLosesExactly` names the two branches, `LosingStatesExist` gives the runs.
- `skip_http_headers` depends on how the bytes are cut exactly when the header ends at the last byte of
  the buffer (`CutsMatterOnlyAtTheLastByte`, with two such cuts in `CutsDisagree`).
- `diagnostic_socks_connect` reports a bad reserved byte or address type as an I/O error: only the two
  status replies have named reasons (`OtherwiseNothingNamed`; `BadReservedByteIsSocksIo` and
  `BadAddressTypeIsSocksIo` for these two).

## Model

| member | source | states |
|---|---|---|
| StatsTable.StatsMap.Claim | src/stats.c:173-193 | the first inactive slot is taken and initialised; -1 exactly when every slot is active |
| StatsTable.StatsMap.Add | src/stats.c:195-213 | bytes go to the slot and to the totals if the slot is active and ours, else nothing changes |
| StatsTable.StatsMap.Release | src/stats.c:215-232 | our slot becomes empty, any other is left alone |
| StatsTable.StatsMap.ClearPid | src/stats.c:234-253 | exactly the active slots of the pid become empty |
| StatsTable.StatsMap.Snapshot | src/stats.c:255-298 | the rows are those of the listed slots, with the totals as they are |
| StatsTable.RowsInSlotOrder | src/stats.c:272-296 | one row, field by field, for every slot that is active with the pid of a process still known, and no other, in slot order |
| StatsTable.RowsWithinSlots | src/stats.c:272-296 | the rows show no more bytes than the slots hold |
| WorkerPoolOwnership.StepKeepsOwned | src/stats.c:173-253 | every step of every process keeps the ownership invariant of slots, workers and handler |
| WorkerPoolCounting.StepKeepsCounted | src/proxy.c:300-356 | every step keeps the client counter equal to the workers in the table, at most 128 |
| WorkerPoolCounting.StepKeepsConserved | src/stats.c:195-253 | every step keeps totals, debts and slots in balance |
| WorkerPoolCounting.AdvanceKeepsSuffixes | src/stats.c:179-182 | passing an active slot loses no free slot of the rest of the scan |
| WorkerPoolCounting.TakeKeepsSuffixes | src/stats.c:179-182 | taking a slot costs one free slot and one scanner of the same suffixes |
| WorkerPoolCounting.ForkKeepsSuffixes | src/proxy.c:329-354 | with at most 128 workers a fork leaves a slot for the new scanner |
| WorkerPoolSafety.RunKeepsInv | src/proxy.c:300-356 | every run, with any interleaving, signals and kills, keeps all four invariants |
| WorkerPoolSafety.StepLeaks | src/stats.c:182-231 | killing a worker while its slot is active without its pid leaks exactly that slot; no other step leaks one, and none recovers one |
| WorkerPoolSafety.LeaksCountWindowKills | src/stats.c:182-231 | in every run the leaked slots are as many as the workers so killed |
| WorkerPoolWitnesses.ClaimWindowLeaks | src/stats.c:182-185 | a run from the empty table that leaks a slot by a kill between the swap and the pid store |
| WorkerPoolWitnesses.ReleaseWindowLeaks | src/stats.c:225-231 | a run that leaks a slot by a kill in a release, after the pid is erased |
| WorkerPoolSafety.SuffixBound | src/stats.c:179-192 | from any index on, free slots plus such kills are at least the workers still to scan there |
| WorkerPoolSafety.ClaimNeverMisses | src/stats.c:179-192 | scans that have run off the table are at no time more than such kills |
| WorkerPoolSafety.FailedClaimNeedsKill | src/stats.c:179-192 | a run in which some claim has returned -1 contains a kill in one of the two windows |
| WorkerPoolWitnesses.FailedClaimHappens | src/stats.c:179-192 | one such kill is enough: a run in which, after it, a live worker's claim has returned -1 with 128 clients counted |
| WorkerPoolSafety.SlotOwnership | src/stats.c:173-253 | a pid in a slot is that of one worker that holds it and is not reaped, unless the handler is just dealing with it; no slot has two holders, an inactive slot is all zero |
| WorkerPoolSafety.OwnerPassesGuards | src/stats.c:201-223 | the guards of add and release never turn a live owner away |
| WorkerPoolSafety.ClearErasesOnlyTheDead | src/proxy.c:28-40 | the handler erases only a slot of the child it has just reaped, and leaves none of its slots |
| WorkerPoolSafety.HandlerLeavesNoZombie | src/proxy.c:28-40 | the handler returns only when no dead worker is left unreaped |
| WorkerPoolSafety.CounterExact | src/proxy.c:28-40 | the client counter equals the forked-but-unreaped workers outside the masked window, and its guard swallows no decrement |
| WorkerPoolSafety.BytesConserved | src/stats.c:204-231 | totals plus bytes in flight or cut off by a death equal bytes in slots plus bytes of wiped slots |
| WorkerPoolSafety.OnlyKillsLose | src/stats.c:204-231 | in a run without a kill no byte is cut off by a death |
| WorkerPoolSafety.TotalsNeverDecrease | src/stats.c:204-212 | the totals never decrease along a run |
| WorkerPoolAdds.AddsExactly | src/stats.c:195-213 | in every run, from a call of fp_stats_add to its return, whatever the others do meanwhile, the worker's slot gains exactly the bytes reported and nothing else in it changes |
| WorkerPoolAdds.AddAlone | src/stats.c:195-213 | a call that nobody interrupts comes to its end and leaves what StatsMap.Add promises |
| WorkerPoolAdds.TotalsAreReported | src/stats.c:195-213 | in every run the totals are exactly the bytes reported, less those of calls on the way and of calls that a kill cut off |
| WorkerPoolSafety.SnapshotAtRest | src/stats.c:272-296 | at rest a snapshot lists exactly the slots of running owners, with no more bytes than the totals |
| WorkerPoolSafety.ClaimAddsUp | src/stats.c:182-189 | the single stores of the step system add up to the slot that StatsMap.Claim leaves |
| WorkerPoolSafety.WipeAddsUp | src/stats.c:225-231 | the single stores of a wipe add up to the empty slot |
| Address.QuadRoundTrip | src/config.c:77-92 | printing an address and parsing it gives it back |
| Address.QuadUnique | src/config.c:77-92 | a text that parses is the printed form of its address |
| Address.QuadMeaning | src/config.c:77-92 | a text parses to an address exactly when it writes its octets, the high one first |
| Address.QuadOfOctets | src/config.c:77-92 | four numbers with dots between them parse to the address with these octets in network byte order |
| Text.DecimalPlaces | src/config.c:92-99 | each digit of a printed number counts its power of ten |
| Text.DigitsPlaces | src/config.c:36-37 | each digit of a number read counts its power of ten |
| Text.StrtolMeaning | src/config.c:36-37 | the whole text is taken exactly when it is blanks, an optional sign and digits, and gives their value |
| Text.SplitMeaning | src/config.c:112-124 | the tokens are the parts without a comma that join to the text |
| Address.CoversIsSameBlock | src/config.c:80-82 | the masked network covers exactly the addresses that agree with it above the last 32 - prefix bits, that is after division by that power of two |
| BypassLanguage.TokenMeaning | src/config.c:56-82 | a token parses exactly when it writes an address by its octets, alone or with a slash and a number, and its entry covers the addresses of that block |
| BypassLanguage.TrimMeaning | src/config.c:56-62 | exactly the blanks and tabs on both sides are taken away |
| BypassLanguage.CheckExactly | src/config.c:63-99 | a token is taken exactly when it has 1 to 19 characters and names a block; the entry has the network with the host bits cleared, and is shown with its length unless that is 32 |
| BypassLanguage.AppendAllIs | src/config.c:83-101 | a list is accepted exactly when each token passes with fewer than 32 blocks before it; the result is the first occurrences |
| BypassLanguage.ListCanonical | src/config.c:104-125 | which texts are accepted; what is stored is canonical, distinct, in first-occurrence order |
| BypassLanguage.ListMeaning | src/config.c:45-125 | the stored entries cover exactly what the tokens of the text match |
| ConfigStore.Config.AppendBypass | src/config.c:45-102 | the entry list changes as the specification says, and not at all on failure |
| ConfigStore.Config.ParseTokens | src/config.c:112-124 | the token loop appends the tokens in order and empties the list when one fails |
| ConfigStore.Config.ParseBypassList | src/config.c:104-125 | the loop over commas computes the parsed list, empty on failure |
| ConfigStore.Config.ParseProxyInto | src/config.c:19-43 | address and port are set exactly when the text parses, else untouched |
| ConfigStore.Config.Save | src/config.c:188-195 | the file written is the printed configuration |
| ConfigStore.Config.Load | src/config.c:213-238 | the line loop accepts and yields what the specification of the file says |
| ConfigFile.ProxyRoundTrip | src/config.c:19-43 | a printed address and port parse back |
| ConfigFile.EndpointMeaning | src/config.c:19-43 | exactly the texts that write an address, a colon and a port are accepted |
| ConfigFile.ChunkMeaning | src/config.c:224 | a read stops behind the first newline, at 127 characters, or at the end |
| ConfigFile.ContentMeaning | src/config.c:225 | a line counts up to its first carriage return, newline or NUL |
| ConfigFile.LoadMeaning | src/config.c:213-238 | a file is accepted exactly when it has a proxy line, every proxy line writes an endpoint and every bypass line is taken; the last proxy and the first occurrences of the entries count, other lines are ignored |
| ConfigFile.SavedLines | src/config.c:188-195 | the file is the proxy line and one line for each entry, in order |
| ConfigFile.LoadedIsValid | src/config.c:213-238 | whatever is loaded has a legal port and a canonical list |
| ConfigFile.PrintedLinesFit | src/config.c:188-225 | no printed line overruns the 128-byte line buffer |
| ConfigFile.SaveLoadRoundTrip | src/config.c:166-238 | a saved configuration is loaded unchanged, in order and with identical text |
| StatusText.JoinFits | src/operations.c:173-178 | up to 32 joined entries never reach the end of the 640-byte buffer |
| StatusText.CollectBypass | src/operations.c:170-179 | the status text is the complete joined list, or "none" |
| StatusText.StatusFixedPoint | src/operations.c:170-179 | parsing a non-empty status text yields the identical list |
| StatusText.RepeatRefusedExactlyWhenFull | src/config.c:63-88 | adding a token that names a stored block changes nothing, except that a full list no longer parses |
| StatusText.RepeatRefused | src/config.c:63-88 | a list of 32 entries and a repeating token at which that happens |
| StatusText.NoneIsNotAList | src/operations.c:170-171 | the text of the empty list does not parse |
| Firewall.CompiledMeaning | src/firewall.c:131-149 | the compiled chain redirects exactly the destinations that the configuration does not exclude |
| Firewall.CompiledRules | src/firewall.c:131-145 | the chain rule by rule: proxy, loopback, the entries in order, the redirect to port 12345 |
| Firewall.PartialChainRedirectsNothing | src/firewall.c:135-149 | a chain that is not complete redirects nothing |
| NatTable.Nat.DisableFirewall | src/firewall.c:156-172 | the removal loop and clean-up, terminating by the number of jumps, equal the specified run |
| NatTable.Nat.EnableFirewall | src/firewall.c:105-154 | the command sequence with its failure paths equals the specified run |
| NatTable.Nat.AppendChain | src/firewall.c:135-149 | proxy, loopback, bypass entries and redirect are appended in the compiled order, up to the first failure |
| NatTable.Nat.IsFirewallEnabled | src/firewall.c:75-103 | true exactly when the jump is in OUTPUT and the chain contains the rules for the proxy, loopback, every single bypass entry, and the redirect |
| Firewall.EnabledExactly | src/firewall.c:75-103 | the same for the predicate that the commands branch on |
| FirewallRuns.DisableEffect | src/firewall.c:156-172 | whatever fails, the other OUTPUT rules keep their order; success leaves neither jump nor chain |
| FirewallRuns.CleanUpEffect | src/firewall.c:156-172 | a clean-up goes on record as failed exactly when a jump or the chain is left |
| FirewallRuns.EnableEffect | src/firewall.c:105-154 | everything a run guarantees about every table on the way and about the last, success or failure |
| FirewallRuns.EnabledMeaning | src/firewall.c:105-154 | after success a destination is redirected exactly when not excluded |
| FirewallRuns.RedirectsWhileEnabling | src/firewall.c:128-153 | a redirection during the run is the complete new chain's, or the old chain's when the flush failed |
| FirewallRuns.FlushForgets | src/firewall.c:131-153 | once flushed, the old chain never comes back |
| FirewallRuns.NoTransientWrongRedirect | src/firewall.c:128-153 | no table on the way redirects what both configurations exclude |
| FirewallRuns.EnabledIsEnabled | src/firewall.c:75-103 | the check holds after a successful enable |
| FirewallRuns.EnableDisableRestores | src/firewall.c:105-172 | enable then disable gives back a table that had nothing of ours |
| FirewallRuns.LoopbackBlock | src/firewall.c:114-116 | 127.0.0.0/8 is the addresses with first octet 127 |
| FirewallRuns.EndToEnd | src/firewall.c:105-154 | from the typed text to the fate of a connection: redirected exactly when not the proxy, not loopback and matched by no token |
| FirewallRuns.TypedBlockIsSpared | src/firewall.c:105-154 | once the typed a.b.c.e/n is enabled, no connection is redirected to an address that has the first n bits of these octets |
| Commands.Host.ActivateProxy | src/operations.c:11-26 | the sequence of effects equals the specified activation; from a consistent state success means running, and the invariant stays unless a clean-up fails |
| Commands.Host.EnableParsed | src/operations.c:39-59 | save, activate and both roll-backs equal the specified command; success means that this proxy is on disk with the old bypass list, or none, and runs |
| Commands.Host.Enable | src/operations.c:28-60 | from a consistent state it ends settled, and success means that the parsed proxy is on disk with the old bypass list, or none, and runs |
| Commands.Host.EnableSavedProxy | src/operations.c:62-74 | the invariant stays unless a clean-up fails, and success means that the saved configuration runs |
| Commands.Host.ChangeBypass | src/operations.c:76-102 | from a consistent state it ends settled, and success means that the parsed list is on disk |
| Commands.Host.Disable | src/operations.c:104-116 | the invariant stays unless a clean-up fails, and success means no record and no redirection |
| Commands.Host.StartTheDaemon | src/process.c:373-436 | the start contract: an existing daemon for the proxy, or stop, spawn and wait for ready |
| Commands.Host.RunProxy | src/proxy.c:281-299 | up to ready the proxy listens, writes its record and enables the firewall, or undoes the last two |
| Commands.Host.RunDaemon | src/main.c:121-149 | the daemon runs the configuration on disk; not ready, it disables the firewall once more and exits |
| Commands.Host.StopTheDaemon | src/process.c:438-466 | the stop contract: success leaves no record; an orderly end also disables the firewall |
| Transactions.ReadyDaemonServesDisk | src/process.c:422-435 | a daemon that reports ready serves the proxy on disk behind the chain compiled from disk |
| Transactions.ActivateEffect | src/operations.c:11-26 | success means daemon and chain of the configuration; failure keeps the guard of the old one |
| Transactions.EnableProxyEffect | src/operations.c:28-60 | keeps the invariant; success means the parsed proxy is on disk with the bypass list that was there, or an empty one, and runs |
| Transactions.EnableSavedEffect | src/operations.c:62-74 | keeps the invariant and the disk; success means the saved configuration runs |
| Transactions.SetBypassEffect | src/operations.c:76-102 | keeps the invariant and the record; success means the new list is on disk |
| Transactions.ReplaceBypassEffect | src/operations.c:93-100 | success puts the new chain into effect, failure restores the old configuration |
| Transactions.DisableProxyEffect | src/operations.c:104-116 | keeps the invariant; success means no record and no redirection |
| Transactions.RunsKeepConsistent | src/operations.c:11-116 | over all runs of commands and daemon deaths, redirection in effect means the chain compiled from disk |
| Transactions.RedirectionFollowsDisk | src/operations.c:11-116 | after any run, if anything is redirected the configuration on disk alone decides what |
| Transactions.EnableSucceeds | src/operations.c:28-60 | returning 0: a daemon for that proxy runs, the disk has it with the old list, and exactly the connections are redirected that are not to the proxy, not to loopback and not covered by the old list |
| Transactions.CompileTells | src/firewall.c:131-149 | different lists compile to different chains |
| CommandResults.SetBypassSucceeds | src/operations.c:76-102 | returning 0: with a daemon exactly the connections are redirected that are not to the proxy, not to loopback and matched by no token of the text; without one, none; proxy and record stay |
| CommandResults.DisableSucceeds | src/operations.c:104-116 | returning 0: no record, no jump, no chain, nothing redirected; the configuration and the other rules stay |
| CommandResults.RefusedChangesNothing | src/operations.c:28-116 | without the lock, with a text that does not parse, or without a configuration where one is needed, a command fails and changes nothing |
| CommandResults.EnablingTwiceChangesNothing | src/operations.c:14 | what runs already is not restarted and no table is touched |
| CommandResults.ActivateStartsClean | src/operations.c:17-20 | a daemon is started only past a stopped old one and a disabled firewall |
| CommandResults.FailedStartIsUndone | src/proxy.c:281-299 | a daemon that fails to start leaves neither record nor jump nor chain if one of its clean-ups works |
| CommandResults.FailedEnableStaysStopped | src/operations.c:46-57 | when nothing was running, a failed command starts nothing |
| CommandResults.StoppedSetBypassLeavesTable | src/operations.c:92-99 | when nothing was running, the table is not touched |
| TransientRedirects.NoTransientWrongRedirectInCommand | src/operations.c:11-116 | no table during a command or a daemon's end, with every stop, restart, clean-up and roll-back, redirects what the configuration before and the one it puts on disk, if any, both exclude |
| TransientRedirects.NoTransientWrongRedirectInRun | src/operations.c:11-116 | no table of any run, at rest or on the way and whatever fails, redirects what every configuration ever on disk excludes |
| TransientRedirects.NoTransientWrongRedirectInEnableProxy | src/operations.c:28-60 | for fp_enable_proxy: what is excluded with the old proxy and with the new one |
| TransientRedirects.NoTransientWrongRedirectInSetBypass | src/operations.c:76-102 | for fp_set_bypass: what the old and the new list both exclude |
| TransientRedirects.DaemonStartsSpares | src/proxy.c:289-299 | a starting daemon redirects at no moment what the disk and the chain it finds both spare |
| TransactionFaults.ReplaceBypassLosesExactly | src/operations.c:93-100 | the invariant is lost exactly on the branch where another list was saved, not enabled, not saved back, and the old chain put back |
| TransactionFaults.ActivateServesDisk | src/operations.c:11-26 | an activation that gets past the old daemon ends with the configuration on disk running or with nothing |
| TransactionFaults.EnableLosesExactly | src/operations.c:46-57 | the invariant is lost exactly on the branch where another proxy was saved, the old daemon not stopped, the old configuration not saved back, and the old daemon found active or again not stopped |
| TransactionFaults.EnableProxyLosesExactly | src/operations.c:28-60 | the same for the whole command |
| TransactionFaults.SetBypassLosesExactly | src/operations.c:76-102 | the same for the whole command |
| TransactionFaults.PerformLosesExactly | src/operations.c:11-116 | of all commands and daemon deaths only those two branches lose the invariant |
| TransactionFaults.RunsWithoutLoss | src/operations.c:11-116 | over all runs without such a branch every rest point is consistent |
| TransactionWitnesses.EnableProxyCanLose | src/operations.c:46-57 | from every state serving a configuration, outcomes at which fp_enable_proxy leaves the old daemon redirecting and the new proxy on disk |
| TransactionWitnesses.SetBypassCanLose | src/operations.c:93-100 | from every such state, outcomes at which fp_set_bypass leaves the old chain in effect and the new list on disk |
| TransactionWitnesses.LosingStatesExist | src/operations.c:28-102 | such states and outcomes exist for every configuration and every other proxy or list, for the outdated chain as well |
| Transactions.UntrackedRedirection | src/operations.c:92-93 | without a record, chain and disk agree afterwards exactly when the list did not change; the table is not touched |
| TransactionWitnesses.UntrackedRedirectionHappens | src/operations.c:92-93 | from every state serving a configuration, a daemon that quits without removing the jump, then a successful fp_set_bypass, and redirection is in effect by an outdated chain |
| Progress.LuckyEnable | src/firewall.c:105-154 | enabling succeeds from any table when no command fails |
| Progress.LuckyDisable | src/firewall.c:156-172 | disabling succeeds from any table when no command fails |
| Progress.LuckyEnableProxy | src/operations.c:28-60 | when nothing fails, the command succeeds exactly on texts that name a proxy |
| Progress.LuckyEnableSaved | src/operations.c:62-74 | when nothing fails, it succeeds exactly when a configuration can be loaded |
| Progress.LuckySetBypass | src/operations.c:76-102 | when nothing fails, it succeeds exactly when a configuration can be loaded and the text is a list |
| Progress.LuckyDisableProxy | src/operations.c:104-116 | when nothing fails, it succeeds |
| Progress.FailedEnableIsUndone | src/operations.c:51-57 | if activation fails and nothing fails from there on, the old configuration is on disk and runs again |
| Progress.FailedBypassIsUndone | src/operations.c:93-99 | if the new list cannot be enabled and nothing fails from there on, the old one is on disk and in effect |
| Sockets.Socket.ReadAll | src/proxy.c:100-115 | succeeds exactly when the stream is long enough, takes exactly that much, writes nowhere else |
| Sockets.Socket.WriteAll | src/proxy.c:83-98 | succeeds exactly when there is room, and what was sent is a prefix of the buffer |
| Socks5.HandshakeIsRfc1928 | src/proxy.c:143-165 | the accepted streams are method selection, one success reply, payload, as sections 3, 4 and 6 of RFC 1928 say |
| Socks5.BindOfEncoded | src/socks5.c:25-46 | every encoded bound address is drained exactly |
| Socks5.DrainBind | src/socks5.c:25-46 | drains the rest of a reply exactly, within 257 bytes |
| Socks5.OpenSocks | src/proxy.c:117-141 | the greeting is sent and the selection accepted exactly when it is 05 00 |
| Socks5.RequestBytes | src/proxy.c:147-153 | the request is 05 01 00 01, the four address bytes and the two port bytes |
| Socks5.ConnectSocks | src/proxy.c:143-165 | success depends only on the byte stream and the room to send; the bytes sent are 05 01 00 and 05 01 00 01 with address and port; the stream is left at the first payload byte |
| Socks5.DiagnosticHandshake | src/test.c:782-801 | the reason is a function of the byte stream |
| Socks5.DiagnosticConnect | src/test.c:803-847 | the reason is a function of the byte stream |
| Socks5.DiagnosisAgrees | src/test.c:803-847 | no error exactly when the forwarder would succeed |
| Socks5.DiagnosisNamesViolation | src/test.c:792-835 | the reason names the first status byte that deviates |
| Socks5.OtherwiseNothingNamed | src/test.c:787-845 | any other failure is reported as an I/O error |
| Socks5.BadReservedByteIsSocksIo | src/socks5.c:29-30 | a reply with a bad reserved byte is refused, and reported as an I/O error |
| Socks5.BadAddressTypeIsSocksIo | src/socks5.c:31-44 | a reply with an unknown address type is refused, and reported as an I/O error |
| Relay.Forward | src/proxy.c:187-209 | one turn keeps both directions faithful at every moment and says what it moved |
| Relay.EveryMoment | src/proxy.c:184-210 | faithfulness holds of every prefix of a run |
| Relay.RunRelay | src/proxy.c:167-216 | for every cutting and poll order: sent is a prefix of received at all times, half-close only when up to date, exact counts, full delivery of a source whenever its target was half-closed, nothing lost on an open side; it ends otherwise only on a stop, on poll, or for lack of room, each open side having got on by every round that reported it |
| Relay.SmoothRelayCloses | src/proxy.c:167-216 | whatever the poll order, both ends close if nothing stops the relay, each side is reported more often than it has turns to take, and each can take what is to come |
| HttpHeaders.ResponseSuccess | src/test.c:401-419 | the scan computes the verdict on the status line |
| HttpHeaders.SuccessIsStatusLine | src/test.c:401-419 | accepted headers are those of 12 bytes and more with a version token, a blank and a 2xx status |
| HttpHeaders.HeaderEndIsFirst | src/test.c:421-453 | the header ends behind the first 13 10 13 10 |
| HttpHeaders.SkipHeaders | src/test.c:421-453 | the receive loop equals the specified one and has taken exactly the buffered bytes |
| HttpHeaders.SkipByStream | src/test.c:421-453 | verdict and body offset from the stream alone, with the exact exception at the last byte of the buffer |
| HttpHeaders.CutsMatterOnlyAtTheLastByte | src/test.c:421-453 | when two ways to cut the same bytes can disagree |
| HttpHeaders.CutsDisagree | src/test.c:421-453 | for every buffer size, two cuts of one header of which one is accepted and one refused |
| HttpHeaders.CountedOfStream | src/test.c:518-549 | the specified count stays within 10 MiB and what came, and is all of that if no look at the clock is late |
| HttpHeaders.LateLookStops | src/test.c:518-549 | a look at the clock that is late stops the count: k looks before it count at most k buffers |
| HttpHeaders.CountedUntilLate | src/test.c:518-549 | when the first late look is number k, the first k arrivals are counted exactly, if none is larger than the buffer |
| HttpHeaders.CountRest | src/test.c:518-549 | the download loop computes the specified count and has received exactly that much |
| HttpHeaders.CountBody | src/test.c:502-549 | nothing without a good header; otherwise the count of what follows it, all of it up to 10 MiB if no look at the clock is late |
| Resolver.StepKeepsInv | src/test.c:86-191 | every step of either thread keeps the hand-off invariant |
| Resolver.HandOffIsSafe | src/test.c:86-191 | never both flags, job destroyed at most once and not touched afterwards, list freed at most once |
| Resolver.HandOffIsComplete | src/test.c:86-191 | when both threads are through, the job was destroyed once, and the list was freed once on failure and is the caller's on success |
| Resolver.SucceedsExactly | src/test.c:165-191 | the caller gets the list exactly when it was handed over in time, getaddrinfo gave one with status 0, and the last look at the cancellation flag read false |
| Resolver.UndisturbedSucceeds | src/test.c:144-191 | without cancellation and failing waits it succeeds exactly when getaddrinfo gave a list with status 0, however long that takes |
| Resolver.CancelledNeverWaits | src/test.c:144-164 | cancelled from the start, it never waits and does not succeed |
| Resolver.HandOffCanFinish | src/test.c:86-191 | from every reachable state both threads can still come to their end |
| Resolver.BothVerdictsHappen | src/test.c:177-191 | there are runs in which a good list is handed over, and in which a cancelled one is freed |
| Resolver.HandOffNeverSticks | src/test.c:86-191 | until both threads are through, one of them can go on |

## Left out

- Counter wrap-around at 2^64, weak memory ordering, and snapshots taken while writers run: counters are
  unbounded, steps are sequentially consistent, snapshot facts are claimed at rest.
- The `handle_client` frame around claim, relay and release, socket creation, timeouts, original
  destinations, privilege dropping: a worker of the pool may add, release or die at any time, sockets start
  connected, and a timeout is an arrival like any other.
- A poll or accept error that ends the accept loop, and the shutdown signal: the pool runs on.
- WorkerPoolSafety.SnapshotAtRest: assumes that the kernel knows exactly the workers in the table, because
  the probe by `kill` is outside the model.
- Operating-system state behind `src/process.c`: `/proc`, recycled pids, signal escalation, untracked
  daemons, the listener. Start and stop are the contracts described above with free outcomes.
- `fp_uninstall`, the user interface, display formats, the web probe, systemd, language file, argument
  dispatch, the median of samples, monitor rates, and the plain step order of `fp_diagnostic_run`.
- Transactions.RunsKeepConsistent: claimed for runs in which no clean-up of the firewall and no roll-back of
  the disk has failed; TransactionFaults says exactly which branches lose the invariant when only the
  clean-ups work.
- Rules of other programs in OUTPUT that decide before our jump: the meaning of a table is that of our chain;
  the other rules are proved unchanged and in order.
- How iptables reads the rendered text of an entry: it is taken to be the block that the text names. Queries
  (`-C`, `-S`) are truthful.
- Overflow of `strtol`: numbers are unbounded, and the range tests reject what would overflow.
- The null list pointer, which `fp_parse_bypass_list` treats like the empty text.
- Cancellation inside the diagnosis and the speed test, and the clock: being late is an input of CountRest.
- Failures of `resolve_ipv4` before its thread exists.
