# A verified model of the OmniProxy core

Dafny models of the parts of OmniProxy in which correctness is a matter of interleavings, whole runs
or exact round trips, with proofs of what they promise. Check everything with
`dafny verify dfyconfig.toml`.

**Connection state machine** (`VpnService`, `Tunnel`, `Session`, `VpnSystem`, `VpnInvariants`,
`VpnTheorems`, `VpnRetry`, `VpnRaces`, `VpnStale`, `VpnRequests`, `VpnCommands`). The service under
its mutex is the class `VpnService.Service`, one method per critical section, each proved to act on
the service's value as a named function. `VpnSystem` puts those functions into a transition system:
one API thread (the transport mutex admits one request at a time) and any number of run loops,
current and stale, each with its program counter, `attempt`, one-slot command buffer and done flag.
Start and Stop are separate steps with results chosen by the environment; every bounded wait may
time out at any moment. The theorems speak about all runs.

**Privileged-helper protocol** (`HelperHost`, `HelperClient`, `HelperSystem`, `HelperAnswers`,
`HelperRaces`). Client and host with two FIFO streams between them: concurrent requests whose
waiters register after sending, timeouts, the reader, closes from any side, keepalive pings, engine
log events.

**Server repository** (`Profile`, `Rows`, `Codecs`, `Repository`). Forty-column rows plus an
external secret store, refined to one map from id to profile.

**Share links and bulk import** (`Text`, `Percent`, `Base64`, `Url`, `Links`, `LinkRoundTrip`,
`LinkNorm`, `LinkNames`, `LinkReading`, `Lines`, `Import`). Go strings are byte strings. Printing
and parsing follow section 2.1 and section 3.2 of RFC 3986 in the form Go's net/url gives them, and
sections 4 and 5 of RFC 4648. `LinkRoundTrip.Norm` is the profile a link stands for.

**Android lifecycle queue** (`Lifecycle`) and **log pipeline** (`Ansi`, `Redaction`).

## Where the code and its comments differ

- The default backoff is described as capped at 30 s; the loop guard lets 16 s double once more, so
  the cap is 32 s (`VpnService.Backoff`). Under the default limit the service never waits that long.
- After a tunnel loss a streak ends in Error after MaxAttempts failed starts, not MaxAttempts + 1:
  the loss itself is charged to `attempt` (`VpnRetry.RetryDecision`).
- A replaced loop is said never to touch the tunnel. After a bounded wait has timed out it can: it
  may leave a tunnel up with no run active (`VpnRaces.LeftoverTunnel`), and the Stop of a reconnect
  command is unconditional, so it can take down its successor's tunnel and bring its own server back
  up (`VpnRaces.StaleLoopHijacksTunnel`). Exactly which replaced loops can stop the tunnel or start it
  is read off their program counters and buffers (`VpnStale.TakeoverExactly`,
  `VpnStale.TunnelSafeExactly`, `VpnStale.ForcedDisconnectLeftover`). Without timeouts none does
  (`VpnTheorems.TunnelFollowsTheActiveRun`). The state the service reports is never affected
  (`VpnTheorems.StaleRunIsInert`).
- A disconnect whose engine Close fails is answered without a state, so the client goes on believing
  in an engine the host has let go (`HelperRaces.FailedCloseMisleads`); that is the only way the two
  ends disagree (`HelperSystem.FlagTellsEngine`).
- `Create` is an upsert that drops nothing: over an existing row it leaves behind the secret of every
  ref the new profile lacks (`Repository.CreateKeys`, `Repository.LeftoverSecret`).
- A TCP transport that carries early-data settings alone does not survive a row, nor do bytes of an
  ALPN item or a tag that are not UTF-8, which JSON replaces (`Rows.RowKeepsExactly`).
- "Every output round-trips through ParseLink" holds up to a normal form and not for every profile.
  `newProfile` does not copy `AuthenticatedLength`; a plus sign in a name becomes a space
  (`LinkNorm.PlusIsLost`); shadowsocks links of an address with a colon, or of a cipher beginning
  with one, and other links of an address no URL host can hold ("example.com:8443" among them), are
  refused (`LinkNorm.PrintedLinksAreRead`, `LinkNorm.IPv6ShadowsocksIsLost`); the shadowsocks parser
  does not undo percent-encoding in the host.
- `Add` panics on a secret that is not UTF-8, and so does every later Add: the pattern is compiled by
  `regexp.MustCompile`, which refuses such text (`Redaction.CompilesExactly`). A share link can carry
  such a secret (`LinkNorm.RawBytesAreRead`).

## Model

| member | source | states |
|---|---|---|
| VpnTheorems.LiveExactlyWhenRunning | core/vpn/service.go:147-158 | in every state of every run the service is connecting, connected or reconnecting exactly when the current session is running; then it is the active run's session, has not ended, ends its history with the service state, and `RunningTo` its server holds, so update and delete of that server are refused |
| VpnInvariants.RunInv | core/vpn/service.go:164-513 | the inductive invariant behind the theorems holds in every reachable state, whatever loops, API calls and timeouts interleave |
| VpnInvariants.StepKeepsInv | core/vpn/service.go:276-513 | every critical section, tunnel call, channel operation and timer keeps it |
| VpnTheorems.NeverActiveAgain | core/vpn/service.go:470-506 | a run that is not the active one is never the active one again |
| VpnTheorems.StaleLoopIsInert | core/vpn/service.go:403-431 | no step of an inactive loop, at any program counter, changes state, active run, current session or its contents |
| VpnTheorems.StaleRunIsInert | core/vpn/service.go:281-287 | the two together over a whole run, under any interleaving with timeouts |
| VpnTheorems.EndedForever | core/vpn/service.go:446-481 | a session whose end time is set is never written again: end time, history and error stay |
| VpnTheorems.HistoriesWellFormed | core/vpn/service.go:288-352 | every history opens with Connecting and never returns to it, never has Connected twice in a row, has Error only last or before one final Disconnected, has Disconnected only last; a finished loop has ended its session |
| Session.HistoryShape | core/models/session.go:78-83 | what the pairwise rule on recorded states means for any two positions of a history |
| VpnTheorems.DisconnectLeavesNothingActive | core/vpn/service.go:221-246 | whenever Disconnect returns, even with its command dropped or its wait timed out, no run is active, the current session has ended and the state is Disconnected or Error |
| VpnRequests.ConnectRunsWhatWasAsked | core/vpn/service.go:164-218 | a Connect request that gets past its checks installs a fresh run for exactly the server and mode asked for, connecting, current and active; the run keeps them in every later state, and each of its successful Starts puts the tunnel up for them; on a live state it changes nothing |
| VpnRequests.ConnectBusy | core/vpn/service.go:173-177 | a Connect on a live state is refused at once and without a trace |
| VpnRequests.ReconnectRunsTheSameAgain | core/vpn/service.go:250-262 | a Reconnect out of Error with no run left does the same for the server and mode of the current session |
| VpnCommands.RequestsPickTheActive | core/vpn/service.go:221-270 | Disconnect and Reconnect address the active run; Reconnect while connecting or disconnected does nothing |
| VpnCommands.CommandsPosted | core/vpn/service.go:508-513 | the command lands in that run's buffer unless it is full |
| VpnCommands.DisconnectIsObeyed | core/vpn/service.go:317-321 | a loop that takes a disconnect, connected or in a backoff, never calls Start again under any interleaving, and when it is done its session ends in Disconnected |
| VpnCommands.DisconnectClearsError | core/vpn/service.go:227-237 | with no run active Disconnect leaves the service disconnected, a stale Error included |
| VpnCommands.ReconnectWhileConnected | core/vpn/service.go:322-326 | a reconnect taken while connected records Reconnecting, stops the tunnel and starts over with a fresh retry account |
| VpnCommands.ReconnectDuringBackoff | core/vpn/service.go:380-392 | one taken during a backoff cuts it short and changes nothing else |
| VpnCommands.LossIsHandled | core/vpn/service.go:331-341 | a loss seen by the active loop stops the tunnel before the retry decision |
| VpnCommands.NoLoopIsStuck | core/vpn/service.go:276-399 | until it is done every loop can take a step, a timer or a loss waking it where it waits |
| VpnCommands.SettingsAreTheLastSet | core/vpn/service.go:116-131 | the retry settings in force are those set last, on and 5 until then |
| VpnCommands.SessionErrorsExactly | core/vpn/service.go:403-418 | in every state of every run a session carries an error exactly when its history has Error |
| VpnCommands.GivingUpSaysWhy | core/vpn/service.go:420-423 | a run that gives up records Error with the loss or the failed start that made it |
| VpnTheorems.TunnelFollowsTheActiveRun | core/vpn/service.go:276-354 | as long as no bounded wait has timed out: nothing is tracked when no run is active, what is tracked belongs to the active run, and a run waiting connected has its tunnel tracked |
| VpnRaces.LeftoverTunnel | core/vpn/service.go:486-506 | a reachable state in which every loop is done, nothing is active and the tunnel is up: the timeout hypothesis is needed |
| VpnRaces.StaleLoopHijacksTunnel | core/vpn/service.go:322-326 | a reachable state in which the service is connected to one server and the manager tracks another, for any two servers |
| VpnStale.TakeoverExactly | core/vpn/service.go:276-354 | in every state of every run: steps of replaced loops alone can end with the server of replaced run r up behind an unchanged service, if and only if r is at its Start or on its way through a reconnect command already taken or buffered, and the tunnel is idle or some replaced loop is past the test before a Stop or on that way |
| VpnStale.TunnelSafeExactly | core/vpn/service.go:433-442 | a tunnel that is up can be taken down by replaced loops if and only if one of them is past the test before a Stop or on its way through a reconnect command |
| VpnStale.LeftoverExactly | core/vpn/service.go:281-287 | with no run active and the tunnel idle, loop r can bring it up if and only if it may start |
| VpnStale.ForcedDisconnectLeftover | core/vpn/service.go:486-506 | that is the state in which every forced Disconnect returns |
| VpnStale.StartExactly | core/vpn/service.go:316-327 | the start condition for any state that satisfies the invariant |
| VpnStale.StopExactly | core/vpn/service.go:435-463 | the stop condition for any state that satisfies the invariant |
| VpnRetry.RetryDecision | core/vpn/service.go:331-366 | every decision of every loop of every run, against the settings in force at that moment: a loss ends in Error exactly when auto-reconnect is off; a failed start exactly when it is off or the limit is positive and the failures of the streak, a loss that opened it counting as one, exceed it |
| VpnRetry.StreakLengthUnderFixedSettings | core/vpn/service.go:357-366 | for a loop born after the settings were last changed, exceeding the limit is having exactly MaxAttempts + 1 failures |
| VpnRetry.RunTally | core/vpn/service.go:279-310 | in every state of every run `attempt` is the number of consecutive failed starts, plus one for a loss that opened the streak, and the backoff spent is that of the attempts charged |
| VpnRetry.ConnectedMeansNoFailures | core/vpn/service.go:288-317 | while any loop waits connected, `attempt` is 0 and no backoff is on its account |
| VpnRetry.StreakWaitsAtMost31Seconds | core/vpn/service.go:303-306 | under the default limit a failure streak of a loop born after the settings were last changed waits at most 31 s |
| VpnRetry.BackoffStepAtMost16Seconds | core/vpn/service.go:303-306 | under the default limit no retry decision of any loop adds more than 16 s of backoff |
| VpnService.DefaultStreakBound | core/vpn/service.go:50-66 | the same as arithmetic over the delays of five attempts |
| VpnService.Backoff | core/vpn/service.go:54-63 | the doubling loop yields 2^min(max(a,0),5) seconds for every attempt number a, between 1 s and 32 s |
| VpnService.Service.TransitionLocked | core/vpn/service.go:403-418 | acts on the service value as `Transition`, the function the theorems are about |
| VpnService.Service.TeardownLocked | core/vpn/service.go:446-462 | likewise as `Teardown` |
| VpnService.Service.FinishLocked | core/vpn/service.go:470-479 | likewise as `Finish` |
| VpnService.Service.ForceLocked | core/vpn/service.go:486-501 | likewise as `Force` |
| VpnService.Service.CommitLocked | core/vpn/service.go:193-212 | refuses exactly while the state is live, changing nothing; otherwise the new session is for the server and mode given, holds only Connecting, has neither end nor error, and is current and active |
| Tunnel.Manager.StartLocked | core/tunnel/manager.go:62-83 | refused while a run is tracked, tracks the new one only if the runner started |
| Tunnel.Manager.StopLocked | core/tunnel/manager.go:85-93 | nothing is tracked afterwards |
| HelperSystem.ChannelsNeverBlock | core/tunnel/helper_client.go:280-367 | in every interleaving: no write to the nil map, closed exactly when the map is nil, at most one message per waiter channel ever, and room for it whenever the reader or a close is about to send |
| HelperSystem.RunInv | core/tunnel/helper_client.go:280-462 | the inductive invariant over calls, reader, closes and host |
| HelperSystem.AnswerIsYours | core/tunnel/helper_client.go:347-367 | a call that got a message got the response with its own number or the closing notice |
| HelperSystem.NumbersAreUnique | core/tunnel/helper_client.go:331-336 | two calls never share a number |
| HelperSystem.FirstCloseStays | core/tunnel/helper_client.go:436-447 | the first close decides, for good |
| HelperSystem.LostMeansNotQuit | core/tunnel/helper_client.go:310-329 | once the reader has ended, loss is signalled exactly when the first close was not a quit, and not before |
| HelperSystem.FlagTellsEngine | core/tunnel/helper_client.go:296-305 | while client and host are up, folding the responses under way over the client's flag tells whether the host holds an engine, exactly unless the last state-bearing answer was that of a failed Close |
| HelperSystem.CleanClosesNeverMisreport | core/tunnel/helperhost/helperhost.go:185-199 | with engines whose Close never fails that agreement is unconditional |
| HelperRaces.FailedCloseMisleads | core/tunnel/helperhost/helperhost.go:194-197 | a reachable quiet state in which the flag is set and no engine is held |
| HelperSystem.EnginesClosedOnce | core/tunnel/helperhost/helperhost.go:157-221 | in every state at most one engine is open, the one held; once serving has ended every engine was closed exactly once |
| HelperHost.Server.Serve | core/tunnel/helperhost/helperhost.go:65-86 | for every message sequence: no engine is held at the end, each was closed exactly once, and connect, disconnect and ping get one response each with their own number in request order, up to the first quit |
| HelperHost.Server.Connect | core/tunnel/helperhost/helperhost.go:157-182 | positive exactly when none was held and the engine started; then the new engine is held and reported, otherwise nothing changes and no state is reported |
| HelperHost.Server.Disconnect | core/tunnel/helperhost/helperhost.go:185-199 | no engine is held afterwards and the one held was closed once; positive exactly when there was none or Close succeeded |
| HelperHost.Server.Ping | core/tunnel/helperhost/helperhost.go:202-210 | always positive, with the state of the engine, which it leaves alone |
| HelperHost.Server.StopEngine | core/tunnel/helperhost/helperhost.go:213-221 | closes the engine held, once |
| HelperHost.HandleKeepsBalance | core/tunnel/helperhost/helperhost.go:134-221 | every message keeps "closed once, except the one held" |
| HelperAnswers.ConnectAnswer | core/tunnel/helperhost/helperhost.go:157-182 | a connect request is answered positively exactly when no engine was held and one started, and then the host holds it; otherwise nothing changed |
| HelperAnswers.DisconnectAnswer | core/tunnel/helperhost/helperhost.go:185-199 | after a disconnect no engine is held; the answer is positive exactly when there was none or it closed cleanly |
| HelperAnswers.PingAnswer | core/tunnel/helperhost/helperhost.go:202-210 | a ping is answered positively, tells whether an engine is held and changes nothing |
| HelperAnswers.EnginesAreGranted | core/tunnel/helperhost/helperhost.go:157-182 | over every run the positive connect answers are as many as the engines ever started, the e-th of them answering the request that started engine e |
| HelperAnswers.AnswersAreGenuine | core/tunnel/helper_client.go:347-367 | what a call got, the closing notice apart, was written by the host while it handled that call's own request |
| HelperAnswers.PositiveAnswersMean | core/tunnel/helper_client.go:369-433 | a connect call that got a positive answer had its own engine started; a disconnect call that got one left the host without an engine |
| HelperClient.ControlClient.RegisterLocked | core/tunnel/helper_client.go:347-355 | registers a waiter unless closed; never writes to the nil map |
| HelperClient.ControlClient.DeliverLocked | core/tunnel/helper_client.go:296-305 | notes the reported state and takes the waiter out |
| HelperClient.ControlClient.CloseLocked | core/tunnel/helper_client.go:436-447 | takes effect once, hands over the waiters |
| HelperClient.ControlClient.NextSeq | core/tunnel/helper_client.go:331-336 | the next 64-bit number |
| HelperClient.NumbersRepeatExactly | core/tunnel/helper_client.go:331-336 | two requests get the same number exactly when a multiple of 2^64 requests lies between them |
| Repository.RepositoryIsAMap | core/store/server_repository.go:104-184 | after any sequence of Create, Update and Delete, Get reads, for every id, what the same operations on a plain map give: the canonical form of the last profile written (list items repaired to UTF-8, whole seconds), credentials restored, no id affected by another; every row has blank credential columns |
| Repository.ServersReadBackAsWritten | core/store/server_repository.go:148-161 | the same for the forty-column rows from an empty table |
| Repository.CreatedReads | core/store/server_repository.go:104-122 | a created server reads back with the id and times it brought, or those handed out for the ones it lacked, and otherwise as it was |
| Repository.UpdatedReads | core/store/server_repository.go:125-145 | an updated server keeps the creation time Get showed before, takes the update time of the call, whatever times it brings, and otherwise reads as what was written |
| Repository.CreationTimeStays | core/store/server_repository.go:142-143 | over any operations that neither create nor delete a server its creation time stays |
| Repository.DeletedReads | core/store/server_repository.go:164-184 | a deleted server is not found |
| Repository.RefusedChangesNothing | core/store/server_repository.go:104-178 | invalid profiles and unknown ids change nothing |
| Repository.SecretsAreFiled | core/store/server_repository.go:20-30 | the password, uuid and private key of a created server are filed under "omniproxy.server.", its id and their names |
| Repository.SshCredentials | core/models/server.go:182-188 | an ssh server has its credentials exactly when it names a user and a secret is filed for it |
| Repository.SecretsMatchRows | core/store/server_repository.go:241-281 | over any run whose Creates are fresh the keys under the server prefix are exactly those the rows refer to; other keys, the data key among them, keep their values |
| Repository.CreateKeys | core/store/server_repository.go:104-122 | Create keeps that exactness if and only if the row it overwrites has no ref the new profile lacks |
| Repository.LeftoverSecret | core/store/server_repository.go:241-250 | otherwise the secret stays, stored and referred to by no row |
| Repository.OverwriteLeavesSecret | core/store/server_repository.go:104-122 | a trojan server and then a socks5 server without password created under one id: the password stays behind |
| Repository.UpdateKeys | core/store/server_repository.go:125-145 | Update keeps exactness: it drops precisely the vanished refs |
| Repository.DeleteKeys | core/store/server_repository.go:164-184 | Delete keeps exactness: it drops all refs of the row |
| Repository.KeyInjective | core/store/server_repository.go:28-30 | a key determines id and ref, whatever characters the id has |
| Repository.DataKeyIsNoServerKey | core/secret/crypto.go:13 | the at-rest data key is not under the server prefix |
| Repository.ServerRepository.PersistProfile | core/store/server_repository.go:241-264 | the loop over refs and the row write, as `Persist` |
| Repository.ServerRepository.CreateProfile | core/store/server_repository.go:104-122 | succeeds exactly for valid profiles and changes table and secrets as the Create of the map theorem |
| Repository.ServerRepository.UpdateProfile | core/store/server_repository.go:125-145 | likewise for Update, unknown ids refused |
| Repository.ServerRepository.GetProfile | core/store/server_repository.go:148-161 | the restore loop returns what the map theorem calls Get |
| Repository.ServerRepository.DeleteProfile | core/store/server_repository.go:164-184 | likewise for Delete |
| Rows.RowRoundTrip | core/store/rows.go:73-292 | writing forty columns and scanning them by position gives the canonical profile and its refs back |
| Rows.EndpointByName | core/store/rows.go:16-57 | each of these fields is written to the column named after it |
| Rows.LoginByName | core/store/rows.go:16-57 | likewise |
| Rows.SecurityByName | core/store/rows.go:16-57 | likewise |
| Rows.TlsByName | core/store/rows.go:16-57 | likewise |
| Rows.TransportByName | core/store/rows.go:205-292 | likewise, with the columns of an absent transport blank |
| Rows.SshByName | core/store/rows.go:16-57 | likewise |
| Rows.RealityByName | core/store/rows.go:205-292 | likewise, with the columns of an absent block blank |
| Rows.LabelsByName | core/store/rows.go:205-292 | likewise, lists and times in their text form |
| Rows.StoredNames | core/models/server.go:18-47 | the names protocols and transports are stored under |
| Rows.RowKeepsExactly | core/store/rows.go:73-203 | a row keeps a profile as it is exactly when its list items are UTF-8, its times whole seconds, and it has no transport or reality block that says nothing |
| Rows.CanonicalIdempotent | core/store/rows.go:73-203 | a profile read from a row is already canonical |
| Profile.CredentialsByProtocol | core/models/server.go:168-193 | which credentials each protocol asks for |
| LinkRoundTrip.LinkRoundTrips | core/server/linkgen.go:23-38 | for every exportable profile of all six protocols `Link` succeeds, its text is one visible word starting with the scheme, and `ParseLink` of it is exactly `Norm` of the profile |
| LinkNames.LinkOptions | core/server/linkgen.go:78-168 | every printed link has under "security", "sni", "alpn", "fp", "allowInsecure", "type", "path", "host", "packetEncoding", "encryption", "flow", "global_padding" and "authenticated_length" exactly the settings of its profile |
| LinkNames.LinkFrame | core/server/linkgen.go:118-189 | it starts with scheme, user information, host and port as escaped text and ends with the name as fragment |
| LinkReading.VLessLinkMeans | core/server/links.go:210-245 | any vless link, its options in any order, number and text, port and name optional: accepted exactly for a uuid, a known transport, an encryption of none or auto and no reality, and then the profile has what stands under the literal option names |
| LinkReading.VMessLinkMeans | core/server/links.go:164-199 | likewise for vmess links in URL form |
| LinkReading.TrojanLinkMeans | core/server/links.go:317-342 | likewise for trojan links, TLS always on with the host as server name of last resort |
| LinkReading.LoginLinkMeans | core/server/links.go:345-370 | any socks5 or http link is accepted with the login it carries |
| LinkReading.ShadowsocksLinkMeans | core/server/links.go:249-291 | any shadowsocks link in URL form, in whichever base64, gives its method, password, host and port, and is refused exactly for a plugin |
| LinkReading.LegacyLinkMeans | core/server/links.go:260-314 | so does one in the legacy form |
| LinkReading.ClassicLinkMeans | core/server/links.go:103-158 | any classic vmess link, in whichever base64, is accepted exactly for an address, an id, a port and a known transport without reality, and then the profile has the fields of its body |
| LinkReading.SocksAlias | core/server/links.go:81-83 | "socks://" is read as "socks5://" |
| LinkNorm.PrintedLinksAreRead | core/server/links.go:67-88 | for every valid profile with a link form, whatever its address, the printed link is read back as `Norm` or refused: read back exactly when a URL host can hold the address, that is when it has no '[' and consists of host characters or, if it has a colon, is text of host and zone characters the library takes for an IPv6 literal; for shadowsocks, when neither the address contains nor the cipher begins with a colon |
| LinkNorm.NormClearsOnly | core/server/links.go:373-402 | `Norm` keeps every carried field and only clears the others if and only if the profile is link-normal, a condition on name, address, TLS, security, cipher and login a caller can check |
| LinkNorm.LinkNormalRoundTrip | core/server/linkgen.go:118-185 | link-normal profiles come back as they were but for the fields no link carries |
| LinkNorm.NormIdempotent | core/server/links.go:449-458 | `Norm` is idempotent except, exactly, for shadowsocks addresses that need escaping and for blank-after-plus names of addresses with a plus sign |
| LinkNorm.PlusIsLost | core/server/links.go:449-458 | the name "a+b" comes back as "a b" |
| LinkNorm.PercentIsKept | core/server/linkgen.go:187-189 | the address "a%b" comes back as it was |
| LinkNorm.TwiceIsNotOnce | core/server/links.go:395-397 | a profile on which `Norm` is not idempotent |
| LinkNorm.IPv6ShadowsocksIsLost | core/server/links.go:272-279 | a valid IPv6 shadowsocks profile whose own link is refused |
| LinkNorm.RawBytesAreRead | core/server/links.go:317-341 | a trojan link carries a password that is not UTF-8 |
| LinkNorm.AlpnTrip | core/server/links.go:503-512 | splitting joined ALPN items gives them back exactly when they are trimmed, non-empty and comma-free, and always yields such items |
| Links.SplitCommaLoop | core/server/links.go:503-512 | the loop computes the cleaned items |
| LinkRoundTrip.QueryValues | core/server/linkgen.go:78-116 | every query the printers build reads back key by key, absent keys as empty |
| LinkRoundTrip.ShadowsocksTrip | core/server/links.go:249-291 | the shadowsocks parser undoes its printer |
| LinkRoundTrip.SchemeReads | core/server/links.go:67-88 | a printed scheme selects the parser of its own protocol and no earlier one |
| Url.CoreTrip | core/server/linkgen.go:118-189 | user information, host, port and query printed as a URL parse into the same parts exactly when the host is addressable, and are refused otherwise |
| Url.HostTrip | core/server/linkgen.go:187-189 | any host and port, joined, escaped and parsed, come back and split where they were joined exactly when the host is addressable, and are refused otherwise; brackets of its own and zones included |
| Links.ParsedLinksAreValid | core/server/links.go:373-401 | whatever text is taken for a link, the profile read from it passes validation |
| Percent.UnescapeEscape | core/server/linkgen.go:127-130 | percent-decoding undoes percent-encoding for any bytes in queries and user information |
| Percent.HostText | core/server/linkgen.go:187-189 | text written for a host is read back, as host or zone, exactly when each character is accepted there, and refused otherwise |
| Percent.UnescapeFragment | core/server/links.go:449-458 | a fragment read by query rules returns with plus signs turned into spaces |
| Percent.QuerySpellings | core/server/linkgen.go:127-130 | how characters of a query are written |
| Percent.UserSpellings | core/server/linkgen.go:127-130 | how characters of user information are written |
| Percent.FragmentSpellings | core/server/linkgen.go:127-130 | how characters of a fragment are written |
| Percent.Readings | core/server/links.go:449-458 | either case of hexadecimal digits is read |
| Base64.TryDecodesAll | core/server/links.go:515-526 | any bytes in any of the four encodings are decoded by the first-success loop, even when another alphabet accepts first |
| Base64.AcceptedAlike | core/server/links.go:515-526 | two of the four decoders that accept a text decode it alike |
| Base64.Vectors | core/server/linkgen.go:155-159 | test vectors of section 10 of RFC 4648 and the two characters in which the alphabets differ |
| Base64.DecodeBase64 | core/server/links.go:515-526 | the loop returns the first accepted reading |
| Import.EveryLineCountsOnce | core/server/links.go:27-64 | for every payload of lines, profiles and errors together are as many as its non-blank lines, white space around the payload included |
| Import.ErrorsAscend | core/server/links.go:42-62 | errors come in line order and name only lines whose reading failed |
| Import.FailuresAreNamed | core/server/links.go:48-60 | every line whose reading fails is named |
| Import.ParseImportDataLoop | core/server/links.go:27-64 | the loop over lines gathers what `ParseImportData` says |
| Import.ImportServers | core/server/exchange.go:79-96 | failed is the number of errors, added the number of valid profiles parsed; for every payload of lines added plus failed is the number of its non-blank lines; the repository afterwards is the one after a Create of each fresh, enabled profile in order |
| Import.ImportedReads | core/server/exchange.go:82-91 | an imported server reads back enabled, unmeasured, with the id and times handed out, and otherwise as parsed |
| Import.BlobMeans | core/server/links.go:32-38 | a payload that is one object or one array gives the servers of its envelopes, or one error |
| Import.LinkProfilesAreAdded | core/server/exchange.go:82-94 | profiles read from link lines are valid, so all of them are added |
| Import.CollectServers | core/server/exchange.go:106-122 | an array of envelopes is accepted exactly when each has the right format, version and a server |
| Import.ExportLinks | core/server/linkgen.go:42-74 | succeeds exactly when something is selected and each selected profile has a link; then the payload is those links joined by line breaks |
| Import.SelectedExactly | core/server/linkgen.go:47-59 | the selection holds exactly the servers named, or all in order when none is named |
| Import.ExportedIsImported | core/server/linkgen.go:64-73 | parsing the joined links of any list of exportable profiles yields their normal forms in order with no errors, and an import adds them all |
| Lines.TrimKeepsLines | core/server/links.go:28-42 | trimming a payload loses only blank lines |
| Lifecycle.DisconnectHasTheLastWord | app/android/app/src/main/kotlin/com/omniproxy/omniproxy/Bridge.kt:322-366 | for every interleaving: if no connect intent follows the last disconnect request, then once the queue has drained the last call the core saw is a disconnect |
| Lifecycle.OlderConnectsAbort | app/android/app/src/main/kotlin/com/omniproxy/omniproxy/Bridge.kt:283-303 | after it, no connect task taken from the queue passes the generation check |
| Lifecycle.EveryDisconnectReaches | app/android/app/src/main/kotlin/com/omniproxy/omniproxy/Bridge.kt:322-366 | once the executor has drained the core has seen as many disconnects as were requested |
| Lifecycle.EveryConnectReaches | app/android/app/src/main/kotlin/com/omniproxy/omniproxy/Bridge.kt:283-318 | and, as long as none was requested, as many connects as were submitted |
| Lifecycle.TakenConnect | app/android/app/src/main/kotlin/com/omniproxy/omniproxy/Bridge.kt:296-303 | a connect task goes on to the core exactly when its generation is current |
| Lifecycle.RunInv | app/android/app/src/main/kotlin/com/omniproxy/omniproxy/Bridge.kt:66-81 | every generation anybody holds was read from the counter, and a due disconnect stays due |
| Lifecycle.Bridge.RecordConnectIntent | app/android/app/src/main/kotlin/com/omniproxy/omniproxy/Bridge.kt:270-272 | is its two atomic actions |
| Lifecycle.Bridge.SubmitConnect | app/android/app/src/main/kotlin/com/omniproxy/omniproxy/Bridge.kt:283-318 | is its two atomic actions |
| Lifecycle.Bridge.SubmitDisconnect | app/android/app/src/main/kotlin/com/omniproxy/omniproxy/Bridge.kt:322-366 | is its two atomic actions |
| Lifecycle.Bridge.RunTask | app/android/app/src/main/kotlin/com/omniproxy/omniproxy/Bridge.kt:290-306 | the executor runs one task, dropping connects of an older generation |
| Ansi.StripANSI | core/log/ansi.go:15-59 | the scanner with nested skip loops computes what a byte-at-a-time automaton lets through, and leaves no ESC |
| Ansi.StripIdempotent | core/log/ansi.go:15-59 | stripping twice is stripping once |
| Ansi.EscapeSequences | core/log/ansi.go:33-56 | control sequences up to a final byte 0x40 to 0x7E, commands up to BEL or ESC backslash, other pairs and a lone ESC disappear, whatever follows stays |
| Redaction.LogLineIsClean | core/log/logger.go:138 | for every history of Add calls whose pattern compiles, every order of the alternatives and every message: no ESC, the kept and the redacted stretches spell the stripped message, no kept stretch contains any secret ever registered in any casing, every redacted stretch is a registered secret |
| Redaction.LogLineOfRun | core/log/redactor.go:30-60 | the same for every run of Add calls, panicking ones included, and the pattern then in use: it protects every secret registered before the first panic |
| Redaction.LoggedLine | core/log/logger.go:138 | the stripped message is k0+m1+k1+...+mn+kn and the logged line k0+"[REDACTED]"+k1+...+"[REDACTED]"+kn, no k containing an alternative and every m being one up to case |
| Redaction.LoggedLineOfRun | core/log/redactor.go:30-60 | the same over every run of Add calls, for the secrets registered before the first panic |
| Redaction.LoggedUnchangedExactly | core/log/redactor.go:56-60 | a message without the marker is logged unchanged exactly when it contains no secret |
| Redaction.MarkerAsSecret | core/log/redactor.go:9 | with the marker itself registered as a secret a message with it is logged unchanged |
| Redaction.NoSecretBetweenMarkers | core/log/redactor.go:56-60 | wherever a secret still occurs in a logged line, it overlaps a marker |
| Redaction.CandidatesByExample | core/log/redactor.go:34-39 | candidates are trimmed and at least three bytes long |
| Redaction.HeldPattern | core/log/redactor.go:30-42 | the pattern in use is that of the calls before the first panic, however many follow |
| Redaction.PiecesSpec | core/log/redactor.go:56-60 | leftmost replacement loses nothing and lets no alternative through |
| Redaction.NothingIsForgotten | core/log/redactor.go:30-42 | whatever any Add call was given, long enough, stays known |
| Redaction.Redactor.Add | core/log/redactor.go:30-42 | is a step of such a run: the registry grows; the call panics exactly when a registered secret is not UTF-8, with the old pattern left in use, and otherwise recompiles |
| Redaction.CompilesExactly | core/log/redactor.go:30-53 | over any history the pattern compiles exactly when every candidate ever kept is UTF-8 |
| Redaction.Redactor.Compile | core/log/redactor.go:44-53 | fails exactly when a registered secret is not UTF-8; otherwise the alternatives are exactly the registered secrets, in some order |

## Left out

- The run loop, the API calls and the client's reader are program counters of the two transition
  systems rather than methods, so that they interleave at every lock release; their critical sections
  are methods of `VpnService.Service`, `Tunnel.Manager` and `HelperClient.ControlClient`.
- Progress and liveness: all theorems are about safety; that a loop or a request ends is not stated.
- Event publication (`emitState`), logging of the service, error classification: no effect on the state.
- Timestamps are opaque; only whether an end time is set, and that it stays, is stated.
- VpnRetry.StreakWaitsAtMost31Seconds: a loop that lived through a change of the limit may have waited
  longer under the old one; the delays are the default policy's, a custom policy's Backoff is not
  modelled.
- HelperHost.Server.Connect: the second "already running" test of the source cannot fire in a
  sequential server and is not modelled.
- HelperSystem.NumbersAreUnique: runs in which one connection makes 2^64 requests are not part of the
  transition system.
- Repository.RepositoryIsAMap: store errors, SQL text, List, Search and ordering are not modelled, and times are those RFC 3339 can carry.
- Rows.RowRoundTrip: the JSON text of string lists and the RFC 3339 text of times are a pair of
  abstract codecs assumed to read back what they write, lists repaired to UTF-8 and times in range
  (`Codecs.FaithfulCodecsExist` shows such a pair exists).
- LinkNorm.PrintedLinksAreRead: whether text between brackets is an IPv6 literal is the library's
  answer, a parameter that says no to text without a colon.
- The JSON decoding of classic vmess bodies is a parameter; what is made of the decoded fields is modelled.
- Lower-casing of link options (`ToLower`) is modelled on ASCII.
- Import.ImportServers: the JSON decoding of envelopes is a parameter, as are fresh ids and the clock.
- Redaction.LogLineIsClean: case folding is a parameter, character by character, on which lowering and
  the pattern agree (`Redaction.AsciiFolds` gives the ASCII instance); characters whose Unicode
  folding differs from their lowering, and the lowering of bytes that are not UTF-8, are outside it.
  So is a registered secret that contains U+FFFD, which the pattern also finds in any invalid byte.
- Lifecycle.DisconnectHasTheLastWord: does not model `shutdown`, which resets the counter, nor a missing application context.
- The engine and its configuration, the tunnel runner, sockets, process spawning, pkexec, peer
  credentials, encryption at rest, keyrings, configuration files, the bounded rings and the Flutter
  and native user interfaces: environment or outside the core.
