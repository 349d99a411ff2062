# Proofs about the MOSN data plane

MOSN is a proxy. This project models the parts of it in which several goroutines, tables or formats
have to agree, and proves that they do: in every interleaving, for every config, for every way a byte
stream is cut into reads. Where the code does not have a property, there is a run or an input that
shows it, and the exact condition under which the property holds.

`dafny verify dfyconfig.toml` checks everything. There is one module per file.

- `StreamRecycle`: one pooled stream object, used for request after request, and the timers and
  terminating filters that may still reach it after it was handed back. Every atomic operation is a
  step, and steps interleave freely. A callback that gets past its ID check acts on the request it
  was made for, and the object is not reused afterwards, exactly when the reset of the pooled struct
  does not show the cleared flag before the cleared ID.
- `ProxyRequest`, `ProxySafety`, `ProxyOrder`, `ProxyForward`, `ProxyRetries`, `ProxyRetryBound`,
  `ProxyWakeUp`, `ProxyWholeReply`, `ProxyEnding`, `ProxyHandBack`, `ProxyLateHijack`, `ProxyEarlyWake`,
  `ProxyReplies`, `ProxyLateAppend`, `ProxyRuns`, `ProxyReplyRun`: one proxied
  request, from the filters to the last block of the reply. The worker's phases, the jumps of
  `processError`, retries, direct responses, the wake-up channel and cleaning are a state machine; a
  step of the worker contains at most one load of a shared field, and between any two steps everything that runs beside
  the worker may change the shared fields. The invariant gives, for every run: the number of upstream
  streams one request opens, what each of them is sent, that the stream is counted out once, and,
  where no response headers are skipped, what the client sees. The bound on streams is attained for
  every number of retries, and a try is given up for another exactly when the failure calls for it and
  there are retries left. A stream that the worker waits on has been sent the whole request, on a first
  try or a retry, and a response that nobody touches any more reaches the client whole. After a
  stream is counted out nothing is sent, exactly when no filter uses its handler after its chain has
  returned. That the client sees one header block, one data block and one trailer block at most, in this order and nothing after the end, and that a request whose reply has
  begun is not tried again, fails in two families of runs. In one, a filter queues a direct response in
  the sender phase while a re-match is pending. In the other, a goroutine is held up between raising
  the upstream reset and sending the wake-up, which then wakes the worker before the response to the
  next try. Runs of both kinds are given, and both claims hold exactly when both are left out.
- `RouteTable`, `RouteRule`, `RouteIndex`, `Routers`, `RouteManager`: the two-level index over virtual
  host domains against the five-level rule over the plain list of domains, and the rule against the text
  of the domains; how tables are built, searched and
  changed in place, and that the live tables of the manager always answer as the stored configs do.
- `RequestAccounting`: request counters against active streams, in every interleaving.
- `BufferPool`: the per-request buffer pool; a buffer is in one place at a time.
- `ConfigDump`, `ConfigUpdates`: config updates, the dump flag and the config file; what the file says
  about each name after the updates of a run.
- `Transfer`: the bytes that hand a connection over to a new process.
- `AccessLogFormat`: parsing access log formats, printing them back, and printing log lines.
- `VariableMatch`, `ServerName`, `WeightedCluster`, `IdleChecker`: four small loops and what they decide.

Conventions: strings are sequences of characters; counters and lengths are unbounded unless a 32-bit
width matters, and then it is written out. Lower-casing, host and port splitting, sorting, regular
expressions, route rules, variable lookups and the answers of `sync.Pool` are parameters. The sort of
the routing table is any sort, stable or not.

## Model

| member | source | states |
|---|---|---|
| `StreamRecycle.StepKeepsInv` | pkg/proxy/downstream.go:967-994 | for a reset at once or with the ID first, every step of a timer, a terminating filter, cleaning, recycling and the next request keeps: a callback past its ID check holds the object for its own request |
| `StreamRecycle.RunKeepsInv` | pkg/proxy/downstream.go:1535-1557 | the same over every run |
| `StreamRecycle.PassedStays` | pkg/proxy/streamfilters.go:140-168 | a callback that got past its ID check stays past it in every later state of the run, with the same owner |
| `StreamRecycle.AloneWinsExactly` | pkg/proxy/streamfilters.go:140-168 | left alone, a timer or a terminating filter is through within five steps, and wins its compare-and-swap if and only if the stream is still that of its own request, not cleaned and not answered; it always takes the reuse flag away |
| `StreamRecycle.HandedBackExactly` | pkg/proxy/downstream.go:1535-1557 | a cleaned object goes on to be handed back if and only if its reuse flag is up and neither side has reset |
| `StreamRecycle.LateTimerActsOnNextIncarnation` | pkg/proxy/downstream.go:1031-1046 | if the reset shows the flag before the ID, a run ends with a timer's compare-and-swap on the next request's stream |
| `StreamRecycle.SafeExactlyWhenIdIsClearedInTime` | pkg/proxy/buffer.go:41-44 | every run is safe if and only if the ID is cleared no later than the flag |
| `ProxySafety.EnterKeeps` | pkg/proxy/downstream.go:453-685 | what each phase does before its first shared load keeps the invariant |
| `ProxySafety.FilterKeeps` | pkg/proxy/streamfilters.go:105-168 | every answer of a filter, and every reply it queues, keeps the invariant |
| `ProxySafety.GateKeeps` | pkg/proxy/downstream.go:877-930 | sending, retrying and replying behind `processDone` keep the invariant, whichever of its two loads decides |
| `ProxySafety.OpenKeeps` | pkg/proxy/upstream.go:273-308 | a stream that opens or is refused, on the first try or on a retry, keeps the invariant |
| `ProxySafety.ResetKeeps` | pkg/proxy/downstream.go:1199-1247 | an upstream reset that is retried, or that fails the request, keeps the invariant, and with it the count of streams opened and retries left |
| `ProxySafety.PassRetries` | pkg/proxy/downstream.go:1348-1366 | dropping a response for a retry keeps the invariant: streams opened, retries left and the retry now due never exceed the budget |
| `ProxySafety.PassRepliesHeaders` | pkg/proxy/downstream.go:1249-1286 | starting the reply keeps the invariant: its headers are the first block the client gets |
| `ProxySafety.PassRepliesData` | pkg/proxy/upstream.go:135-141 | passing data on keeps the invariant: they follow the headers |
| `ProxySafety.CheckKeeps` | pkg/proxy/downstream.go:1593-1664 | every exit of `processError` keeps the invariant |
| `ProxySafety.CleanKeeps` | pkg/proxy/downstream.go:234-276 | cleaning counts the stream out once, and hands the object back only then |
| `ProxySafety.OthersKeep` | pkg/proxy/upstream.go:101-150 | whatever the other goroutines do to the shared fields keeps the invariant |
| `ProxySafety.StepKeepsInv` | pkg/proxy/downstream.go:453-685 | every step of the worker or of anybody else keeps the invariant |
| `ProxySafety.EveryRunIsSafe` | pkg/proxy/downstream.go:379-445 | in every run of every request: at most 1 + max(3, NumRetries) upstream streams and at most 10, one first send, one cleaning; each try is sent a prefix of headers, data, trailers, as the request was when the try began, with the right end flags; a try that the worker waits on, the first or a retry, and a one-way request that was neither reset nor answered on the spot, was sent all of it and is marked as sent, and as received whole if it is more than headers; the reply is well formed unless headers were skipped, written late or hijacked late; a one-way request gets no reply |
| `ProxyOrder.RunIsLater` | pkg/proxy/downstream.go:1106-1176 | in every run what was sent stays sent, and no count goes back |
| `ProxyOrder.AskedAgain` | pkg/proxy/downstream.go:187-206 | a filter behind the route match that asks for another match, or one behind the choice of a host that asks for another host, gets it, if nothing disturbs the worker and it has a pass left |
| `ProxyForward.StepSetsBody` | pkg/proxy/downstream.go:453-685 | nothing but a filter changes whether the request has data and trailers; filters add data and replace trailers |
| `ProxyForward.ForwardedWhole` | pkg/proxy/downstream.go:1367-1407 | in every run, when the worker waits for the response to a first try or a retry, the stream has been sent all of the request as the client sent it and the filters changed it |
| `ProxyEnding.CleansExactly` | pkg/proxy/downstream.go:187-232 | the worker begins to clean the stream if and only if it sees a client reset in `processError`, a filter terminates, the last block of the reply was sent, a one-way request is through, or a request body comes after the end |
| `ProxyEnding.CleaningIsTheEnd` | pkg/proxy/downstream.go:234-276 | in every run, from cleaning on nothing is sent to either side, and when the worker is through the stream has been counted out |
| `ProxyEnding.ClientResetStopsWork` | pkg/proxy/downstream.go:1561-1563 | in every run without late writes, once the client has reset, no stream is opened and no block is sent to it, but for one if the worker was past its check of the client's reset |
| `ProxyHandBack.HandedBackOnlyWhenServed` | pkg/proxy/downstream.go:1535-1557 | in every run an object that went back to the pool was counted out and its request tried once at most; in a regular run the request was received whole and the reply sent to its last block, unless it wants none |
| `ProxyHandBack.HandedBackExactly` | pkg/proxy/downstream.go:1535-1557 | left alone, a counted-out object is handed back if and only if its flag is up and neither side has reset |
| `ProxyOrder.SilentOnceCleaned` | pkg/proxy/downstream.go:234-276 | once the stream was counted out, the run sends nothing to the client or upstream, opens no stream and counts nothing, whatever resets, responses, timers and the next user of the object do; handlers are used while their filter chain runs |
| `ProxyLateAppend.SilentExactlyWithoutLateAppends` | pkg/proxy/streamfilters.go:105-121 | with handler calls from any goroutine at any time among the moves, that silence holds if and only if no filter appends after its chain has returned |
| `ProxyRetries.StepAccounts` | pkg/proxy/retrystate.go:56-126 | every step keeps: each stream but the first has its cause, each cause has used up a retry, and each is one that calls for another try |
| `ProxyRetries.EveryRetryIsJustified` | pkg/proxy/retrystate.go:71-126 | in every state of every run no more streams were opened than the first and one for each try given up; a try is given up only for a failed connection, or, on a route with retries, a server error or a lost or slow try, never for a full pool or after the global timeout; and no more are given up than the route has retries |
| `ProxyRetries.ResponseRetriedExactly` | pkg/proxy/downstream.go:1249-1286 | in every run a response is given up for another try if and only if retries are left, there is room for one and the response is a server error on a route with retries; otherwise it starts the reply; either way a retry is used up |
| `ProxyRetries.ResetRetriedExactly` | pkg/proxy/downstream.go:1199-1247 | in every run a reset try is given up for another if and only if no reply has begun, retries are left, there is room for one and the reset calls for it; otherwise the reply is cut off, or an error reply is queued |
| `ProxyRetryBound.NextRetryDue` | pkg/proxy/downstream.go:1367-1407 | while retries and passes are left, a refused stream makes another retry due |
| `ProxyRetryBound.BoundIsExact` | pkg/proxy/retrystate.go:38-89 | for every NumRetries no run opens more than min(1 + max(3, NumRetries), 10) upstream streams, and some run opens as many |
| `ProxyWakeUp.WaitKeepsAwake` | pkg/proxy/downstream.go:1579-1591 | without gaps before wake-ups, a worker that wakes up finds response headers or a reset |
| `ProxyWakeUp.StepKeepsAwake` | pkg/proxy/downstream.go:1565-1577 | without gaps, every step keeps: a filled wake-up channel announces something that is still there to see |
| `ProxyWakeUp.HeadersAreThere` | pkg/proxy/downstream.go:635-650 | without gaps and late writes, and with headers on every response, no run passes over the response headers |
| `ProxyLateHijack.SecondHeaderBlock` | pkg/proxy/downstream.go:1626-1664 | a run in which the client gets two header blocks |
| `ProxyLateHijack.OpenedAfterReply` | pkg/proxy/downstream.go:1626-1664 | a run in which a stream is opened for a request whose reply has begun |
| `ProxyEarlyWake.DataFirst` | pkg/proxy/upstream.go:74-85 | a run in which the wake-up of a reset comes late and the client gets data without headers |
| `ProxyEarlyWake.RetriedAfterData` | pkg/proxy/upstream.go:74-85 | the same run goes on to open another stream for the request |
| `ProxyReplies.WellFormedExactly` | pkg/proxy/downstream.go:610-670 | without late writes and with headers on every response, all replies are well formed if and only if both families of runs are left out: direct responses in the response filters with a re-match pending, and gaps between an upstream reset and its wake-up |
| `ProxyReplies.AnsweredLeftAloneExactly` | pkg/proxy/downstream.go:1199-1286 | in the same setting, no request whose reply has begun is tried again if and only if both families are left out |
| `ProxyWholeReply.WholeReply` | pkg/proxy/downstream.go:610-670 | in every regular run, once a reply is due and the response is not changed, reset or given up any more: the client is sent a prefix of its headers, data and trailers, and when the worker is through all of them, the last with the end flag, and the stream has been counted out |
| `ProxyWholeReply.FilterReplyReachesClient` | pkg/proxy/streamfilters.go:123-138 | what a filter replies, or makes of the response, is what the client has got when the worker is through, if it is left at that |
| `ProxyReplyRun.SomeRunReplies` | pkg/proxy/downstream.go:635-670 | for every shape of reply there is a run that sends it to its last block |
| `RouteTable.ChosenIsUnique` | pkg/router/routers_impl.go:205-210 | for a config that builds, the five-level rule selects at most one virtual host |
| `RouteTable.DomainFindsItself` | pkg/router/routers_impl.go:285-300 | every configured domain, in lower case, finds its own virtual host |
| `RouteRule.RefusedExactly` | pkg/router/routers_impl.go:311-370 | a domain is refused if and only if it has neither host nor port, or a star that is not at the start of its host |
| `RouteRule.SameExactly` | pkg/router/routers_impl.go:311-370 | two domains that are not refused count as the same if and only if host and port are equal, or both match everything |
| `RouteRule.MatchesExactly` | pkg/router/routers_impl.go:211-265 | a domain matches a host and a port if and only if it is that host, or a star with a proper suffix of it, with that port or any port, or a star with no port or any; its level follows from its text |
| `RouteRule.BuildsExactly` | pkg/router/routers_impl.go:268-370 | a table can be built if and only if there are virtual hosts, all routes are well formed, the text of every domain splits, none is refused and no two are the same |
| `RouteRule.SelectedExactly` | pkg/router/routers_impl.go:205-265 | for a config that builds, the rule selects a virtual host if and only if the text of one of its domains matches and none matches better, and none if and only if the text of none matches |
| `RouteTable.ReorderedBuilds` | pkg/router/routers_impl.go:268-310 | permuting virtual hosts and domains does not change whether a table can be built |
| `RouteTable.ReorderedChooses` | pkg/router/routers_impl.go:211-265 | the rule selects the same virtual host, under its new number, after a permutation |
| `RouteTable.ReorderedSelection` | pkg/router/routers_impl.go:211-265 | for every host and port, the choices of the rule before and after a permutation are one virtual host |
| `Routers.ReorderedSelected` | pkg/router/routers_impl.go:172-195 | a permutation keeps where every request goes, with a usable host, an unusable one or none |
| `RouteManager.ReorderedLookups` | pkg/router/routers_impl.go:71-131 | all three lookups of a request have the same answers after a permutation, however the tables were sorted |
| `RouteManager.ReorderedTablesAgree` | pkg/router/routers_impl.go:268-310 | of two tables of one config in different order, with any two sorts, both are built or neither, and every lookup of every request agrees |
| `RouteIndex.AddHolds` | pkg/router/routers_impl.go:311-370 | entering a new key makes the index hold exactly one more domain of the list |
| `RouteIndex.BestIsChosen` | pkg/router/routers_impl.go:205-210 | a key in the index with no better key beside it is the choice of the rule |
| `RouteIndex.FirstSuffixIsChosen` | pkg/router/routers_impl.go:230-258 | the first wildcard that matches in a sorted list has the longest suffix of its level |
| `RouteIndex.FallbackIsChosen` | pkg/router/routers_impl.go:260-265 | when nothing better matches the default decides, or nothing does |
| `RouteIndex.OnlyDefaultIsChosen` | pkg/router/routers_impl.go:172-180 | with a default and nothing else the rule selects it for every host and port |
| `Routers.LastExactIsLast` | pkg/router/virtualhost.go:50-62 | the fast index means the last route with that one exact header condition |
| `Routers.VirtualHost.AddRoute` | pkg/router/virtualhost.go:45-71 | appends the route; the fast index goes on answering with the last route of each condition |
| `Routers.VirtualHost.RemoveAllRoutes` | pkg/router/virtualhost.go:111-119 | no routes, and a fast index that says so |
| `Routers.VirtualHost.GetRouteFromEntries` | pkg/router/virtualhost.go:73-82 | the first route that matches |
| `Routers.VirtualHost.GetAllRoutesFromEntries` | pkg/router/virtualhost.go:84-94 | all routes that match, in order |
| `Routers.AllMatchesInOrder` | pkg/router/virtualhost.go:84-94 | all matching routes are the subsequence at exactly the positions that match |
| `Routers.VirtualHost.GetRouteFromHeaderKV` | pkg/router/virtualhost.go:96-105 | the last route with that exact header condition |
| `Routers.NewVirtualHost` | pkg/router/virtualhost.go:136-154 | succeeds exactly when every route is well formed, and then has the routes of the config |
| `Routers.Table.GenerateHostWithPortConfig` | pkg/router/routers_impl.go:311-370 | accepts a domain exactly when it stands for a key that is not in the index yet, and then enters that key and nothing else; what the text of a domain stands for is in `RouteRule` |
| `Routers.Table.SortWildcards` | pkg/router/routers_impl.go:303-308 | every list is sorted by suffix length and every key leads where it did |
| `Routers.Table.FindHighestPriorityIndex` | pkg/router/routers_impl.go:211-265 | returns exactly the virtual host that the five-level rule selects from the list of domains, -1 when none matches |
| `Routers.Table.FindVirtualHostIndex` | pkg/router/routers_impl.go:197-203 | the same for an address; -1 if it does not split |
| `Routers.Table.FindVirtualHost` | pkg/router/routers_impl.go:172-195 | the rule's choice for every non-empty host that splits, shortcut or not; otherwise nothing, or the default when it is all there is |
| `Routers.NewRouters` | pkg/router/routers_impl.go:268-310 | builds a table exactly when there are virtual hosts, all routes are well formed, all domains stand for something and no two for the same; the table then serves the config |
| `Routers.Table.MatchRoute` | pkg/router/routers_impl.go:71-90 | the first matching route of the selected virtual host |
| `Routers.Table.MatchAllRoutes` | pkg/router/routers_impl.go:92-110 | all matching routes of the selected virtual host |
| `Routers.Table.MatchRouteFromHeaderKV` | pkg/router/routers_impl.go:112-131 | the last route of the selected virtual host with that header condition |
| `Routers.Table.AddRoute` | pkg/router/routers_impl.go:134-157 | the route is added where the domain leads, unless it leads nowhere or the route is malformed; the table then serves the config with the route appended |
| `Routers.Table.RemoveAllRoutes` | pkg/router/routers_impl.go:159-170 | the virtual host the domain leads to loses its routes; the table then serves the config without them |
| `Routers.RouteIsDetermined` | pkg/router/routers_impl.go:71-90 | any two tables that serve one config route every request alike |
| `RouteManager.Manager.AddOrUpdateRouters` | pkg/router/routers_manager.go:56-98 | keeps every stored table in step with its stored config; an update that cannot be built changes nothing, an addition that cannot is stored without a table |
| `RouteManager.Manager.AddRoute` | pkg/router/routers_manager.go:113-146 | changes the live table and the stored config alike, or neither; other tables are untouched |
| `RouteManager.Manager.RemoveAllRoutes` | pkg/router/routers_manager.go:148-177 | the same for clearing routes |
| `RouteManager.Manager.MatchRoute` | pkg/router/routers_manager.go:37-42 | routes by the stored config if a table can be built from it, and nowhere otherwise |
| `RouteManager.Manager.AsBuiltAfresh` | pkg/router/routers_manager.go:56-177 | all three lookups in a stored table give what a table built afresh from the stored config gives |
| `RouteManager.LookupsAreDetermined` | pkg/router/routers_impl.go:71-131 | the answers of all three lookups are a function of the config |
| `RequestAccounting.Bucket` | pkg/proxy/stats.go:97-128 | every response code has one counter, and the listed codes their own |
| `RequestAccounting.StepKeepsInv` | pkg/proxy/downstream.go:234-319 | creating, listing, cleaning, metering and removing a stream keep the books, overall, per listener and per proxy |
| `RequestAccounting.BooksBalance` | pkg/proxy/downstream.go:279-319 | in every interleaving total = active + all code counters, overall and per listener, and each code counter is the number of requests answered with its code; the listeners' gauges add up to the overall one, which is off the active lists only by streams between their counter and their list |
| `RequestAccounting.GaugeIsListedStreams` | pkg/proxy/proxy.go:265-277 | between whole create and clean steps the active gauge is the number of listed streams of all proxies |
| `RequestAccounting.CountedOutOnce` | pkg/proxy/downstream.go:234-238 | however many goroutines try to clean it, a stream is counted out at most once |
| `BufferPool.OnePlace` | pkg/buffer/buffer.go:91-103 | no buffer is in two places or in one pool twice; each is in a place of its own kind; what is in a pool is reset |
| `BufferPool.Pools.NewBufferValue` | pkg/buffer/buffer.go:127-136 | a holder, pooled or new, is empty and nobody else's |
| `BufferPool.Pools.Take` | pkg/buffer/buffer.go:152-157 | a buffer of the kind, new or reset, that no slot had |
| `BufferPool.Pools.Find` | pkg/buffer/buffer.go:139-149 | the holder's buffer if it has one, a clean one otherwise; panics exactly for an unregistered kind |
| `BufferPool.Pools.Touch` | pkg/buffer/buffer.go:139-149 | whoever holds a buffer may write to it; then that buffer, and nothing else, is no longer clean |
| `BufferPool.Pools.TransmitBuffers` | pkg/buffer/buffer.go:116-125 | the buffers move to the receiver's second row, and stay in one place each |
| `BufferPool.TransmitLosesNothing` | pkg/buffer/buffer.go:116-125 | no buffer is dropped if and only if there was none to transmit or the receiver had none transmitted before |
| `BufferPool.Pools.Give` | pkg/buffer/buffer.go:160-179 | both buffers of each kind go to the pool of that kind and the holder, empty, to its own; without registered kinds nothing happens |
| `ConfigDump.DumpLosesNothing` | pkg/configmanager/dump_action.go:110-149 | two tidy configs that are dumped alike are equal, router paths included |
| `ConfigDump.RunKeepsTidy` | pkg/configmanager/effectiveconfig.go:86-158 | in every run the setters keep everything filed under its name and router paths beside the routers |
| `ConfigDump.FileIsTheConfig` | pkg/configmanager/dump_action.go:63-149 | after every run from a loaded file, with the flag clear and nobody at work, the one tidy config that is dumped as the file is the current config |
| `ConfigDump.ReplaceOrAppend` | pkg/configmanager/effectiveconfig.go:132-151 | the loop sets the extension of that kind, or adds it |
| `ConfigDump.WithExtendSets` | pkg/configmanager/effectiveconfig.go:132-151 | the kind gets the body; all other extensions keep place and body |
| `ConfigDump.WithExtendKeepsDistinct` | pkg/configmanager/effectiveconfig.go:132-151 | kinds stay distinct |
| `ConfigDump.ListRouters` | pkg/configmanager/dump_action.go:123-131 | in any map order the dump lists each router once, with its path |
| `ConfigDump.StepKeepsInv` | pkg/configmanager/dump_action.go:63-97 | every step of a setter or dumper keeps: the file or the copy in hand is current, or a dump is still to come |
| `ConfigDump.NoUpdateIsLost` | pkg/configmanager/dump_action.go:63-97 | in every interleaving, with the flag clear and nobody at work the file equals the config; failed writes raise the flag again |
| `ConfigDump.SafeExactlyWhenEveryChangeIsWritten` | pkg/configmanager/featuregate.go:49-53 | no run loses an update if and only if automatic writing is on and encoding never fails |
| `ConfigUpdates.SetterShows` | pkg/configmanager/effectiveconfig.go:86-158 | after a setter the dump shows what it was given: the listener, cluster or router with its path, no removed cluster, new hosts only for a present cluster, the extension, the TLS config; under every other name it shows what it showed |
| `ConfigUpdates.LastDecides` | pkg/configmanager/effectiveconfig.go:86-158 | of many updates the last that concerns a name decides what is there |
| `ConfigUpdates.FileShowsUpdates` | pkg/configmanager/dump_action.go:63-97 | after every run from a loaded file, with the flag clear and nobody at work, the file shows under every name what the updates of the run made of what it showed before |
| `ConfigUpdates.FileShowsLastUpdate` | pkg/configmanager/dump_action.go:63-97 | in particular it shows the last update of each name |
| `Transfer.Uint32RoundTrip` | pkg/network/transfer.go:323-328 | a 32-bit number is read back as it was written |
| `Transfer.HeadByPosition` | pkg/network/transfer.go:323-328 | the eight bytes of a head: the first number in the first four, the second in the other four, the most significant byte first |
| `Transfer.Pipe.RecvMsg` | pkg/network/transfer.go:498-517 | for every way the stream is cut into reads: exactly the announced bytes, and no byte more; an error if the stream ends before |
| `Transfer.Pipe.RecvHead` | pkg/network/transfer.go:466-474 | the two numbers of the head |
| `Transfer.Pipe.ReadRecvData` | pkg/network/transfer.go:437-450 | the message at the front of the stream, and only it, or an error |
| `Transfer.Pipe.WriteRecvData` | pkg/network/transfer.go:452-464 | the same for bytes to be written |
| `Transfer.Pipe.RecvId` | pkg/network/transfer.go:525-531 | the identifier at the front of the stream; the number 0 for an error |
| `Transfer.ReadRoundTrip` | pkg/network/transfer.go:414-425 | the receiver gets the data and TLS bytes, and what follows is left, if and only if both lengths fit in 32 bits |
| `Transfer.WriteRoundTrip` | pkg/network/transfer.go:427-435 | the receiver gets identifier and bytes if and only if identifier and length fit in 32 bits |
| `Transfer.HandOverRead` | pkg/network/transfer.go:414-450 | end to end, for every way the stream is cut into reads: exactly the data and TLS bytes arrive and what follows is left, if and only if both lengths fit in 32 bits |
| `Transfer.HandOverWrite` | pkg/network/transfer.go:427-464 | the same for bytes to be written and their identifier |
| `Transfer.IdRoundTrip` | pkg/network/transfer.go:519-531 | an identifier comes back if and only if it fits in 32 bits |
| `Transfer.HandOverId` | pkg/network/transfer.go:519-531 | end to end, an identifier arrives if and only if it fits in 32 bits, and is told from an error if and only if it is not a multiple of 2^32 |
| `AccessLogFormat.ParseFormat` | pkg/log/accesslog.go:129-196 | the loop reads a format as texts and names between unescaped percent signs, with the two errors |
| `AccessLogFormat.PrintOfParse` | pkg/log/accesslog.go:129-196 | a format that parses prints back as itself if and only if all its names are known; its entries then are canonical, so no escaped percent sign splits one |
| `AccessLogFormat.ParseOfPrint` | pkg/log/accesslog.go:75-86 | the printed form of a canonical list parses as that list |
| `AccessLogFormat.NameIsRead` | pkg/log/accesslog.go:146-166 | a quoted name anywhere in a format is read as that name, or as a dash if it is unknown |
| `AccessLogFormat.PrintsInPlace` | pkg/log/accesslog.go:75-86 | in its place in the line, a name prints as its value and a text as it is |
| `AccessLogFormat.Log` | pkg/log/accesslog.go:114-127 | the loop prints the line and a line break; a variable without a value prints as a dash; nothing if logging is off |
| `VariableMatch.Match` | pkg/router/variable_rule.go:66-106 | the early-exit loop matches exactly when there are no items or some group, ended by an "or" item or the list, holds in full |
| `ServerName.JoinSplit` | pkg/mtls/tls_context.go:115-118 | joining the labels of a name gives the name |
| `ServerName.MatchedServerName` | pkg/mtls/tls_context.go:106-124 | matches exactly when the lower-case name without trailing dots is listed, or a star with the rest of the name from some dot is |
| `WeightedCluster.GetWeightedClusterEntry` | pkg/router/utility.go:26-38 | the clusters by name, and the 32-bit total of all weights |
| `WeightedCluster.Select` | pkg/router/base_rule.go:229-237 | the cluster whose range of the summed weights the draw falls in; the default exactly when the draw exceeds them all |
| `WeightedCluster.SelectsOne` | pkg/router/base_rule.go:229-237 | a draw falls in the range of one cluster only |
| `WeightedCluster.NeverDefaultExactly` | pkg/router/base_rule.go:223-237 | the default is out of reach if and only if there are clusters and the total exceeds their weights by at most one |
| `WeightedCluster.DrawsFollowWeights` | pkg/router/base_rule.go:223-237 | for distinct names, a positive total and no overflow, in every map order: never the default, and each cluster as often as its weight says, within one |
| `IdleChecker.GetIdleCount` | pkg/network/idlechecker.go:31-38 | the least number of read timeouts that cover the idle timeout, in exact arithmetic |
| `IdleChecker.RoundedCountIsClose` | pkg/network/idlechecker.go:31-38 | computed in floating point, for timeouts up to 2^53 ns and any rounding that keeps order and whole numbers, the count is that one or one less, and less exactly when the quotient is rounded down to the whole number below |
| `IdleChecker.CountFits` | pkg/network/idlechecker.go:31-38 | the count fits in 32 bits if and only if the idle timeout is at most 2^32 - 1 read timeouts |
| `IdleChecker.StreakMeans` | pkg/network/idlechecker.go:80-96 | counting equal totals is knowing over how many timeouts they were equal |
| `IdleChecker.Checker.OnReadTimeout` | pkg/network/idlechecker.go:69-101 | the connection is first closed at the first timeout at which the totals were the same over the last `maxIdleCount` timeouts |

## Left out

- Requests: `ProxyRequest` is a state machine on values and not an object with methods, since the claims are about steps of several goroutines; the fields the code updates in place are fields of the state.
- Requests without headers: the code dereferences a request sender that was never set for them.
- Progress: nothing is claimed about every request coming to an end, or about a waiting worker being woken up.
- ProxyWholeReply.WholeReply: is about regular runs, in which headers are neither skipped, nor written or hijacked late; what goes wrong in the others is in `ProxyLateHijack` and `ProxyEarlyWake`.
- ProxyHandBack.HandedBackOnlyWhenServed: what it says of the reply is about regular runs too.
- ProxyEnding.ClientResetStopsWork: handler Append* calls, which do not look for a reset, are left out.
- ProxyReplies.WellFormedExactly: leaves out TerminateStream, handler Append* calls and late OnDecodeError calls, which write to a stream whenever they like; wake-ups sent by callbacks of the last request to use a pooled object are left out too.
- ProxySafety.EveryRunIsSafe: handler Append* calls happen while the filter chain runs, and not from another goroutine later; such calls also change `upstreamProcessDone`, which is the worker's own here, and may clean the stream.
- ProxySafety.OthersKeep: the same calls are not among what the other goroutines do.
- ProxySafety.FilterKeeps: filters use their handlers while their chain runs.
- ProxyOrder.SilentOnceCleaned: the same; `ProxyLateAppend` adds the later calls and says exactly what they break.
- Panics and their recovery, in the proxy and elsewhere.
- Retries: the retry resource of a cluster, and the backing off between tries.
- Filters: which filter of a chain runs next; a filter is any sequence of the answers and replies it may give.
- The 17 turns that one pass of `receive` may take; ten passes of the outer loop are modelled.
- Timers: when they fire. What a timer does to a recycled stream is in `StreamRecycle`, what it does to a live one is among what the other goroutines may do in `ProxyRequest`.
- StreamRecycle.SafeExactlyWhenIdIsClearedInTime: stream IDs do not wrap around.
- Route rules: how a single route matches; header additions and removals; per-filter configs.
- Routing configs: they are values, so a caller that goes on changing a config it handed over is not modelled, and neither are readers of a table during a change.
- Error kinds of `NewRouters`: that it fails is modelled, not with which error.
- RequestAccounting.BooksBalance: a stream is not cleaned before it is listed, since it is handed to its receiver only then; the four counters of one creation change in one step, and so do those of one cleaning; durations, failure counters and histograms are left out.
- BufferPool.Pools.Give: holders are used by one goroutine at a time and not after they were given; registration of kinds, and what a buffer holds, are left out.
- ConfigUpdates.FileShowsUpdates: the order in which a dump lists things is left out.
- ConfigDump.NoUpdateIsLost: file writes succeed or fail as a whole; `SetMosnConfig` and `Reset`, which set the config without asking for a dump, belong to the time before the file is loaded.
- ConfigDump.ListRouters: the loops over listeners, clusters and extensions are like this one and not written out.
- Transfer.Pipe.RecvMsg: a read fails only at the end of the stream; file descriptors, TLS state and sockets are left out.
- AccessLogFormat.PrintOfParse: a format is a sequence of characters, not of UTF-8 bytes; percent signs and backslashes are single bytes in both.
- WeightedCluster.Select: where the random number comes from; for a total of zero the code panics in the random source.
- IdleChecker.GetIdleCount: divides exactly; what floating point makes of it is in `RoundedCountIsClose`, and what the conversion to 32 bits keeps in `CountFits`.
- Protocol codecs, load balancing, health checks, xDS, TLS handshakes, listeners, metrics naming, the admin API and plugins.
