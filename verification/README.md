# Newport: verified models of its protocols and algorithms

Newport is a desktop client for SSH servers. This project models the parts of it where
correctness depends on order, interleaving or arithmetic, and proves what they promise. `dafny
verify dfyconfig.toml` checks everything with Dafny's default limits.

| file | what it models |
|---|---|
| `Wildcard.dfy`, `KnownHosts.dfy`, `KnownHostsFormat.dfy` | host patterns, known_hosts scanning and trust on first use |
| `GitSession.dfy`, `GitSessionProofs.dfy`, `GitSessionResults.dfy`, `GitSessionConnections.dfy` | the readers/writer queue of Git requests, its connection and disposal |
| `Sampling.dfy`, `SamplingState.dfy`, `SamplingProofs.dfy`, `SamplingRows.dfy`, `SamplingShared.dfy` | samplers interleaved with profile edits and removals over gate, barrier, manager lock and revisions |
| `MetricHistory.dfy`, `MetricHistoryMeaning.dfy`, `Traffic.dfy`, `ChartPoints.dfy`, `ChartAverages.dfy` | merging saved and live samples, what the rates mean, downsampling, weighted averages |
| `Clipboard.dfy`, `ClipboardMeaning.dfy` | the bounded, fair, cancellable reply scheduler |
| `Connectivity.dfy` | connection evidence from overlapping attempts |
| `Profiles.dfy`, `Manager.dfy`, `ManagerState.dfy`, `ManagerProofs.dfy`, `ManagerResults.dfy`, `History.dfy`, `Consent.dfy` | tunnels, port ranges and integration consent over whole runs of commands |
| `PortRange.dfy` | printing and reading port ranges in the tunnel form |
| `BlobEditor.dfy` | the incremental, newline-normalised file preview |
| `Common.dfy`, `Decimal.dfy`, `Keyed.dfy` | options and results, decimal digits, lists with unique keys |

Objects that change in place are classes whose methods are tied to a step function on values;
protocols with several parties are state machines over those steps, and the theorems range over
every run. What an operation does is also told without its step function: from the steps of the
run, the lines of a file, the fields of a profile or the times of the samples. Clocks are step counts or abstract times, measurements are reals, and answers of the
network, storage and the native side are parameters of a step.

Four results deserve a word.

- `wildcard` tests literal equality before it tests `*`. It therefore decides the pattern language
  for every pattern exactly when the value holds no `*` (`AgreesExactlyWithoutStar`); on any
  value it accepts no more than the language does. Host names never hold a `*`.
- Connection evidence is meant to say "an attempt failed that started after every success had
  finished". For every run, in any order of delivery, it says so exactly when the latest success
  is taken in as it is delivered, or a failure started after it anyway
  (`MeaningIffLatestOnTime`); a run without success always has the meaning
  (`MeaningWithoutSuccess`). Delivery in finish order is a special case
  (`ErrorMeansNewerFailure`), and `LateSuccessIsLost` gives a run without the meaning.
- Consent is told from the commands alone: an integration is on exactly when a command switched
  it on and nothing since switched it off, removed the server or moved it (`ConsentIsExact`).
- The overlap refusal when connecting a tunnel exists for profiles that hold overlapping ranges;
  in a profile built by the commands a saved tunnel is never refused (`ConnectIsNeverRefused`).

## Model

| member | source | states |
|---|---|---|
| Wildcard.Wildcard | src-tauri/src/known_hosts.rs:24-46 | The greedy loop terminates; it never accepts what the recursive matcher refuses, and equals it for every value without `*` |
| Wildcard.LiteralFirstIsSound | src-tauri/src/known_hosts.rs:26-45 | On every input, accepted by the loop implies accepted by the pattern language |
| Wildcard.StarRefused | src-tauri/src/known_hosts.rs:27-33 | For every value with a `*`, a pattern that fits it and that the loop refuses |
| Wildcard.AgreesExactlyWithoutStar | src-tauri/src/known_hosts.rs:24-46 | Loop and pattern language agree on all patterns if and only if the value has no `*` |
| KnownHosts.MatchesHost | src-tauri/src/known_hosts.rs:47-69 | The flag loop with its early exit: some positive pattern hits and no negated one does, or the hash is equal |
| KnownHosts.HostPatternsMeaning | src-tauri/src/known_hosts.rs:47-69 | For every valid host and port and every list, matching is by the pattern language: a positive pattern fits and no negated one does |
| KnownHosts.InspectMeaning | src-tauri/src/known_hosts.rs:70-91 | A scan fails exactly on a malformed line or a matching revocation of this key; otherwise found and trusted say exactly whether such lines exist |
| KnownHosts.InspectFile | src-tauri/src/known_hosts.rs:70-91 | The scanning loop finds what the specification of a scan finds |
| KnownHosts.KnownHostsFile.Verify | src-tauri/src/known_hosts.rs:92-141 | Verdict and resulting file of one verification, with every refusal, also when the own file cannot be opened or appended to |
| KnownHosts.RecordNameInjective | src-tauri/src/known_hosts.rs:99-104 | Valid hosts and ports share a record name only if they are the same up to ASCII case |
| KnownHosts.RecordMatchesOnlyItsName | src-tauri/src/known_hosts.rs:138-138 | A written record matches its own name and no other valid name |
| KnownHosts.AcceptancePins | src-tauri/src/known_hosts.rs:126-140 | After an acceptance no verification of the name writes again; after a first use every other key is refused |
| KnownHosts.AcceptedIsOnDisk | src-tauri/src/known_hosts.rs:113-140 | However the own file fails, a key is accepted only if a line on disk afterwards or in the system file vouches for it |
| KnownHosts.TrustOnFirstUse | src-tauri/src/known_hosts.rs:92-141 | Over every later sequence of verifications the accepted key stays accepted without a write, and after a first use all others stay refused |
| KnownHosts.OtherHostsDoNotMatter | src-tauri/src/known_hosts.rs:92-141 | Verifications of other host and port pairs never change a pair's verdicts |
| KnownHostsFormat.VerdictMeaning | src-tauri/src/known_hosts.rs:92-141 | On a disk that works, the whole verdict from the lines of both files: malformed or revoking lines refuse, else a line with this key accepts, else any line for the host refuses, else the key is accepted and written |
| KnownHostsFormat.NameIsSpelled | src-tauri/src/known_hosts.rs:99-104 | The name looked up, byte by byte: the small-letter host for port 22, else `[host]:digits` with the decimal value of the port |
| KnownHostsFormat.StandardLineIsFound | src-tauri/src/known_hosts.rs:99-132 | One line spelling the host and port: its key is accepted without a write and every other key refused as changed |
| KnownHostsFormat.BareLineIsForPort22 | src-tauri/src/known_hosts.rs:99-104 | The bare line of a host says nothing about its other ports |
| KnownHostsFormat.OneBytePattern | src-tauri/src/known_hosts.rs:24-46 | What `*`, `?` and an ordinary byte fit |
| KnownHostsFormat.NegatedPattern | src-tauri/src/known_hosts.rs:47-69 | A pattern after `!` takes back what the others admit |
| GitSessions.GitSession.Submit | src/api/gitSession.ts:60-71 | The barrier captured at enqueue: last write, and for a write every open read too; a cancellable write is rejected |
| GitSessions.GitSession.BarrierSettled | src/api/gitSession.ts:71-74 | A request whose barrier settled is aborted, refused as closed, or goes on |
| GitSessions.GitSession.ConnectAfterReset | src/api/gitSession.ts:49-58 | Awaited reset, closed check and the one shared connection |
| GitSessions.GitSession.Connected | src/api/gitSession.ts:74-80 | The checks between connection and dispatch, in their order |
| GitSessions.GitSession.Registered | src/api/gitSession.ts:239-249 | An abort or disposal during registration prevents the call |
| GitSessions.GitSession.RegistrationFailed | src/api/gitSession.ts:265-291 | A failed registration settles the read and may drop its own connection |
| GitSessions.GitSession.NativeReturned | src/api/gitSession.ts:254-291 | How each reply, failure, abort or disposal settles a read or a write |
| GitSessions.GitSession.ReadSettled | src/api/gitSession.ts:301-302 | A settled read leaves the set that later writes wait for |
| GitSessions.GitSession.ConnectionSettled | src/api/gitSession.ts:54-56 | A failed connection is forgotten only if it is still the current one |
| GitSessions.GitSession.ResetSettled | src/api/gitSession.ts:319-321 | A finished reset clears the field only if it is still its own |
| GitSessions.GitSession.Forget | src/api/gitSession.ts:312-324 | Dropping the connection; at most one reset runs at a time |
| GitSessions.GitSession.Dispose | src/api/gitSession.ts:327-334 | Closing without waiting for the queue |
| GitSessionProofs.EarlierConflictsSettled | src/api/gitSession.ts:68-71 | A begun request has every earlier conflicting request settled, through the barriers transitively |
| GitSessionProofs.NativeCallsAreSerialised | src/api/gitSession.ts:296-303 | In every run, native calls of two requests of which one writes go out in enqueue order and never overlap |
| GitSessionProofs.SettledWritesAreHonest | src/api/gitSession.ts:249-291 | A write settles as value or operation error exactly if its call went out, and reports terminal codes only as unknown outcome |
| GitSessionProofs.DisposedSessionsStaySilent | src/api/gitSession.ts:327-334 | After disposal, in every continuation, nothing is sent and no pending request yields a value |
| GitSessionProofs.SomeStepIsPossible | src/api/gitSession.ts:68-75 | While anything is unsettled the session itself can take a step: waits point to earlier requests only |
| GitSessionProofs.InternalRunsAreBounded | src/api/gitSession.ts:296-304 | While the caller does nothing new every schedule is at most as long as a measure of the work left |
| GitSessionProofs.QueueDrains | src/api/gitSession.ts:296-304 | From every reachable state the session's own steps reach an empty queue |
| GitSessionProofs.EveryRunDrains | src/api/gitSession.ts:296-304 | However a run went, a schedule that cannot go on has emptied the queue |
| GitSessionResults.ReplyIsTold | src/api/gitSession.ts:249-295 | From the steps of the run: an unaborted request whose call ended settles for good as a value exactly if the call succeeded while the session was open; a failed read settles with the reported code, a failed write with it, or as unknown outcome if the code is terminal or missing |
| GitSessionResults.NothingSettlesWithoutCause | src/api/gitSession.ts:71-295 | Every settlement has its cause among the steps of the run |
| GitSessionResults.AbortIsHonoured | src/api/gitSession.ts:72-76 | An unsettled aborted read never yields a value or an error of its call |
| GitSessionResults.BeginsExactlyWhenFree | src/api/gitSession.ts:68-71 | In every reachable state a waiting request may begin if and only if every earlier request it conflicts with is settled |
| GitSessionResults.OnlySupportedCallsGoOut | src/api/gitSession.ts:74-80 | In every run a call goes out only after the agent was found to support its method |
| GitSessionConnections.ConnectionIsShared | src/api/gitSession.ts:49-58 | While the connection is not dropped it stays and no other is dialled |
| GitSessionConnections.DroppedForGood | src/api/gitSession.ts:312-324 | A dropped connection never becomes current again |
| GitSessionConnections.AttachUsesCurrent | src/api/gitSession.ts:74-77 | A request belongs to the connection that is current when it gets past connecting |
| GitSessionConnections.UseLasts | src/api/gitSession.ts:76-77 | It keeps that connection until it settles, whatever others do |
| GitSessionConnections.FatalFailureLetsGo | src/api/gitSession.ts:267-275 | A terminal failure drops the connection of its own request, exactly if that is still the current one |
| SamplingState.SharedObject.GateOf | src-tauri/src/metrics_sampler.rs:77-83 | One gate per server, made on first use |
| SamplingState.SharedObject.SharedResult | src-tauri/src/metrics_sampler.rs:89-100 | A caller shares a result exactly if a read finished since its request and matches its connection and revision |
| SamplingState.SharedObject.RecordReading | src-tauri/src/metrics_sampler.rs:114-122 | Only good readings are recorded, and a failed record changes nothing |
| SamplingState.SharedObject.PublishReading | src-tauri/src/metrics_sampler.rs:127-141 | A failure keeps the last good reading of the same connection, marked |
| SamplingState.SharedObject.ReadingFor | src-tauri/src/metrics_sampler.rs:43-48 | A caller is given the cached result exactly for its own connection and revision |
| SamplingState.SharedObject.Matches | src-tauri/src/manager.rs:102-109 | Revision and connection both still as configured |
| SamplingState.SharedObject.SaveProfile | src-tauri/src/commands.rs:159-176 | A new id, changed connection or new password gets a fresh revision, an unstored edit nothing |
| SamplingState.SharedObject.RemoveProfile | src-tauri/src/commands.rs:203-215 | A removal takes effect exactly if the server is there and storage took it |
| SamplingProofs.StoredOnlyWhileCurrent | src-tauri/src/metrics_sampler.rs:104-123 | In every interleaving a reading is recorded or published only for a current profile and revision asked for after the last removal |
| SamplingProofs.DeletedReadingsNeverReturn | src-tauri/src/commands.rs:202-231 | After a cleaned removal no later state of any run holds a reading asked for before it, even if the id is saved again |
| SamplingProofs.RefreshesAreNotOverwritten | src-tauri/src/metrics_sampler.rs:67-84 | Readings of one server are published one after the other, each begun after the one before was out |
| SamplingProofs.CachedReadingsMatchTheirCaller | src-tauri/src/metrics_sampler.rs:35-48 | A cached good reading comes from the caller's server, connection and revision, also through later failures |
| SamplingProofs.OneInsideTheGate | src-tauri/src/metrics_sampler.rs:84-84 | Two samplers of one server are never both past its gate |
| SamplingProofs.NoDeadlock | src-tauri/src/manager.rs:33-37 | While a process is unfinished some process can step: gate, barrier and manager lock are taken in one order |
| SamplingRows.RowsAreTheRecordedReadings | src-tauri/src/metrics_sampler.rs:101-122 | In every run a row is stored if and only if a sampler spawned for its ticket began at its start, read well and recorded it, and nothing since cleared, pruned or cleaned it up |
| SamplingRows.PublishedIsWhatWasRead | src-tauri/src/metrics_sampler.rs:123-141 | After a refresh the cache holds what that refresh read, or on failure the last good reading of the same connection and revision, marked; whoever waits is given it, and other servers' readings stay |
| SamplingShared.SharedReadsAreFresh | src-tauri/src/metrics_sampler.rs:76-100 | A refresh shares a result only if a read of its server completed after it was asked for and the cache fits its connection and revision |
| SamplingShared.WaitersShareTheRead | src-tauri/src/metrics_sampler.rs:84-100 | A refresh that waited while a read of its server completed shares it exactly if the cache fits, and reads itself exactly if not |
| SamplingShared.EditIsStored | src-tauri/src/commands.rs:159-176 | A stored edit leaves the profile as saved; earlier tickets stay good exactly if connection and password are the same |
| SamplingShared.RemovalIsStored | src-tauri/src/commands.rs:203-215 | A removal takes its server out of the profile and nothing else, and ends at once if it is gone already |
| SamplingShared.UnstoredChangesNothing | src-tauri/src/commands.rs:168-173 | A command whose save fails changes nothing |
| SamplingShared.EditedConnectionsNeverStore | src-tauri/src/metrics_sampler.rs:104-123 | After an edit of connection or password no later step of any run records or publishes a reading asked for before it |
| MetricHistory.RemadeSample | src/metricHistory.ts:47-86 | A sample rebuilt from what it shows, after the same predecessor, is itself |
| MetricHistory.WindowMeaning | src/metricHistory.ts:119-123 | A time survives exactly if it is within retention and fewer than the limit are newer |
| MetricHistory.MergedKeys | src/metricHistory.ts:93-117 | The merged times are the saved ones and the live ones outside summarised minutes |
| MetricHistory.LiveSamplesWin | src/metricHistory.ts:99-117 | A late disk read never replaces a live sample outside summarised minutes |
| MetricHistory.RestoreHistory | src/metricHistory.ts:91-126 | The maps, sets and loop of the merge give the specified history |
| MetricHistory.RestoredShape | src/metricHistory.ts:118-125 | The result increases strictly in time, stays within retention and within the size limit, and is empty only if both inputs are |
| MetricHistory.RestoreIsIdempotent | src/metricHistory.ts:91-126 | Restoring twice from the same disk read equals restoring once, for all inputs |
| MetricHistory.AddSampleKeepsHistory | src/metricHistory.ts:33-46 | A late or repeated time changes nothing; any other sample is added last, with times increasing, within retention and limit |
| MetricHistoryMeaning.SampleMeaning | src/metricHistory.ts:47-86 | Every field of a sample from its reading: percent of memory, defaults, the last entry of each interface, own rates of a summary and measured rates otherwise |
| MetricHistoryMeaning.AddedSample | src/metricHistory.ts:33-46 | After adding, exactly the earlier samples at most seven days older with fewer than 120960 after them are there, then the new one |
| MetricHistoryMeaning.RestoredTimes | src/metricHistory.ts:91-123 | A time is restored if and only if it is saved or live outside summarised minutes, within seven days of the newest, with fewer than 120960 newer |
| MetricHistoryMeaning.RestoredMeaning | src/metricHistory.ts:93-126 | Every restored sample shows the last live sample of its time where that counts, and else the last saved reading of its time |
| Traffic.RatesMeasureTraffic | src/metricHistory.ts:52-73 | A raw sample has a rate exactly with a continuous predecessor and no counter reset, and it times the elapsed time is the counter's increase |
| Traffic.TrafficAddsUp | src/metricHistory.ts:58-73 | Over an unbroken stretch of raw restored samples the charted rates add up to exactly the bytes counted |
| ChartPoints.ChartPoints | src/metricHistory.ts:149-182 | An in-order selection with both ends, every bucket's edges, extrema and gap edges, no skipped gap, and at most buckets * (2 + 2 * series) + 2 * changes rows |
| ChartPoints.KeepRows | src/metricHistory.ts:152-180 | The nested loops keep what each bucket needs, within the size bound |
| ChartPoints.GapsSurvive | src/metricHistory.ts:163-171 | Keeping gap edges is enough: two neighbouring measured rows skip no gap row |
| ChartPoints.BucketsSuffice | src/metricHistory.ts:153-154 | Ceiling-sized buckets number at most `buckets` |
| ChartPoints.AllEdgesAreChanges | src/metricHistory.ts:163-171 | The rows kept for gaps are charged to the changes between measured and missing |
| ChartAverages.AverageChartPoints | src/metricHistory.ts:185-226 | One row per interval, for any weights; a value is missing exactly if its bucket received nothing, not finite exactly if the total weight is zero, and else the weighted mean |
| ChartAverages.AverageIsBetween | src/metricHistory.ts:209-221 | With positive weights every average lies between the smallest and largest value its bucket received |
| ChartAverages.AveragesConserve | src/metricHistory.ts:200-221 | For any weights, the averages times their bucket weights and what went into buckets without a finite mean add up to the weighted sum of all points in range; with positive weights nothing is lost |
| ChartAverages.BucketsPartition | src/metricHistory.ts:200-203 | Every point in range, its end included, falls into exactly one bucket |
| ChartAverages.Range.BucketCovers | src/metricHistory.ts:202-203 | Bucket `b` is the bucket of a time exactly if the time lies in the `b`-th interval, or is the end and `b` the last |
| ChartAverages.RowsTileRange | src/metricHistory.ts:190-199 | The intervals of the rows follow each other from start to end, and each row stands at the middle of its own |
| Clipboard.ExpandPrepared | src-tauri/src/clipboard.rs:118-134 | Cut into chunks, compressed, expanded and joined again, the clipboard is unchanged, also when empty |
| Clipboard.Integration.OnRequest | src-tauri/src/clipboard.rs:347-355 | The limit check: a refusal frame at once, or one more read |
| Clipboard.Integration.OnRead | src-tauri/src/clipboard.rs:359-361 | A finished read joins the end of the queue |
| Clipboard.Integration.SendOne | src-tauri/src/clipboard.rs:363-371 | One frame of the first reply, its failure when stale, and its return to the end of the queue |
| Clipboard.RunKeepsInv | src-tauri/src/clipboard.rs:349-361 | Every step keeps the invariant; reads in progress and queued replies never exceed eight |
| Clipboard.RepliesArriveInOrder | src-tauri/src/clipboard.rs:363-371 | In every run the frames of one request are a prefix of its chunks with exactly one final frame, which is last and there exactly when the request is done |
| Clipboard.ClipboardArrives | src-tauri/src/clipboard.rs:118-134 | A finished request that did not fail expands to the bytes that were read |
| Clipboard.SteadyClipboard | src-tauri/src/clipboard.rs:365-366 | While the revision does not change no reply is abandoned |
| Clipboard.SteadyClipboardArrives | src-tauri/src/clipboard.rs:118-134 | End to end: if the revision does not change and the read succeeds, a finished request expands to the bytes that were read |
| Clipboard.TurnsAreShared | src-tauri/src/clipboard.rs:363-370 | Between two consecutive frames of one reply the other queued replies send at most seven |
| Clipboard.TurnsComeToAnEnd | src-tauri/src/clipboard.rs:363-370 | Without new requests the turns of any run are bounded by the frames that are or become unsent |
| Clipboard.QueueEmpties | src-tauri/src/clipboard.rs:363-370 | Turns alone empty the queue, in no more turns than frames are unsent |
| ClipboardMeaning.PiecesMeaning | src-tauri/src/clipboard.rs:124-126 | The clipboard is cut into full pieces and a last one with what remains |
| ClipboardMeaning.ChunksAreBounded | src-tauri/src/clipboard.rs:124-129 | Every chunk expands to at most the chunk size, and all but the last to exactly that |
| ClipboardMeaning.AdmissionIsExact | src-tauri/src/clipboard.rs:347-355 | In every run a request is refused if and only if eight earlier ones have not had their last frame; else nothing is sent and its read is awaited |
| ClipboardMeaning.TurnMeaning | src-tauri/src/clipboard.rs:363-371 | In every run a turn sends the next chunk of what was read for an open request while the clipboard has the revision asked for, and else a failure that ends the reply |
| ClipboardMeaning.OpenReadsAreInTurn | src-tauri/src/clipboard.rs:359-371 | A request whose read is over is in the queue exactly until its last frame |
| Connectivity.ConnectionEvidence.ObserveAt | src-tauri/src/connectivity.rs:50-76 | One observation: dropped if outdated, else recorded with both its clocks |
| Connectivity.AlwaysReportsAnAttempt | src-tauri/src/connectivity.rs:57-75 | In any order the evidence reports an observation made, and a held error comes from an attempt started after the recorded success |
| Connectivity.NeverGoesBack | src-tauri/src/connectivity.rs:62-67 | In any order the time of the newest evidence never goes back |
| Connectivity.LastingFailure | src-tauri/src/connectivity.rs:57-75 | In any order a failure started after every success leaves an error at the end |
| Connectivity.MeaningIffLatestOnTime | src-tauri/src/connectivity.rs:50-76 | For every run in any order: "an error is held exactly if some failed attempt started after every success finished" holds if and only if the latest success is not outdated on delivery or some failure started after it |
| Connectivity.MeaningWithoutSuccess | src-tauri/src/connectivity.rs:57-75 | Without a success that meaning holds in any order |
| Connectivity.ErrorMeansNewerFailure | src-tauri/src/connectivity.rs:50-76 | It holds for every run in which no success is delivered late, finish order included |
| Connectivity.LateSuccess | src-tauri/src/connectivity.rs:60-66 | For one failure delivered before one success, the condition in terms of their times |
| Connectivity.LateSuccessIsLost | src-tauri/src/connectivity.rs:60-66 | A concrete run in which a late success is lost |
| Connectivity.EvidenceIsTheLastThatCounts | src-tauri/src/connectivity.rs:57-75 | In any order of delivery, which observations count, told from their times alone; the evidence reports the last of them and the newest success among them |
| Profiles.PairsMeaning | src-tauri/src/model.rs:203-223 | The pairs forward each port of the local range once, in order, to the port as far into the remote range, at most 256 |
| Profiles.ClashIffOverlap | src-tauri/src/manager.rs:204-214 | Comparing port lists and comparing range ends decide the same |
| Profiles.PairsAccepts | src-tauri/src/model.rs:203-223 | Which tunnels have good ports, told from their fields |
| Profiles.ApartMeansNoSharedPort | src-tauri/src/model.rs:182-201 | Two good tunnels are apart exactly if their lists share no local port, and no remote port of one host of one server |
| Profiles.ValidateUnique | src-tauri/src/model.rs:182-201 | A tunnel passes exactly if its ports are good and it is apart from every other saved tunnel, locally and at the remote host |
| Profiles.Validate | src-tauri/src/model.rs:247-266 | The whole-profile check accepts exactly profiles with valid servers, unique ids, good ports and no dangling tunnel |
| ManagerState.ManagerObject.Connect | src-tauri/src/manager.rs:188-223 | Starting a tunnel, with every refusal, in the code's order |
| ManagerState.ManagerObject.OverlapsActive | src-tauri/src/manager.rs:202-219 | The scan over active tunnels reports the first one in the way: its bad ports or the shared local port |
| ManagerState.ManagerObject.Disconnect | src-tauri/src/manager.rs:224-229 | Stopping a tunnel and its status |
| ManagerState.ManagerObject.Start | src-tauri/src/manager.rs:230-293 | Starting an integration only if a switch is on |
| ManagerState.ManagerObject.Stop | src-tauri/src/manager.rs:294-301 | Stopping an integration |
| ManagerState.ManagerObject.ActiveTunnels | src-tauri/src/manager.rs:302-315 | The live tunnels of a server in profile order |
| ManagerState.ManagerObject.Remember | src-tauri/src/manager.rs:319-341 | A switch is stored, already set, or refused, and nothing changes on failure |
| ManagerState.ManagerObject.SaveServerCommand | src-tauri/src/commands.rs:155-191 | Saving a server with its reconnection of tunnels and integration |
| ManagerState.ManagerObject.DeleteServerCommand | src-tauri/src/commands.rs:202-225 | Removing a server with its tunnels, tasks and integration |
| ManagerState.ManagerObject.SaveTunnelCommand | src-tauri/src/commands.rs:234-263 | Saving a tunnel and reconnecting it if its status is active |
| ManagerState.ManagerObject.DeleteTunnelCommand | src-tauri/src/commands.rs:265-273 | Removing a tunnel and its task |
| ManagerState.ManagerObject.SetConnectedCommand | src-tauri/src/commands.rs:275-287 | The connect switch of a tunnel |
| ManagerState.ManagerObject.SetIntegrationCommand | src-tauri/src/commands.rs:304-329 | The switch of an integration, restarting what runs |
| ManagerProofs.StepKeepsInv | src-tauri/src/commands.rs:147-329 | Every command, task failure and integration step keeps the invariant |
| ManagerProofs.LiveTunnelsMatchTheProfile | src-tauri/src/manager.rs:188-229 | After any run live tunnels are saved ones, run as saved to the saved connection, share no local port, and are exactly those with an active status |
| ManagerProofs.EditingAServerKeepsTunnels | src-tauri/src/commands.rs:177-190 | Saving a server loses none of its live tunnels: reconnection is never refused |
| ManagerProofs.EditingATunnelKeepsIt | src-tauri/src/commands.rs:250-262 | Saving a live tunnel always brings it back with its new definition |
| ManagerProofs.OnlyPortsStandInTheWay | src-tauri/src/manager.rs:202-219 | In a valid profile the scan refuses exactly for a local port that a live tunnel holds |
| ManagerProofs.ConnectIsNeverRefused | src-tauri/src/manager.rs:188-223 | In a profile built from nothing by commands ranges never overlap, and connecting a saved tunnel is never refused |
| ManagerResults.SavedServerIsFound | src-tauri/src/model.rs:227-238 | After a stored edit the id finds name, destination and login as asked for, and nothing else in the profile changes |
| ManagerResults.SavedTunnelIsFound | src-tauri/src/commands.rs:250-257 | After a stored edit the id finds the tunnel as asked for, and nothing else in the profile changes |
| ManagerResults.DeletedTunnelIsGone | src-tauri/src/commands.rs:265-273 | After a stored removal the id finds nothing and everything else is as before |
| ManagerResults.DeletedServerIsGone | src-tauri/src/commands.rs:209-220 | A removed server takes its tunnels along; other servers and tunnels stay |
| ManagerResults.ToggleChangesOneSwitch | src-tauri/src/manager.rs:319-341 | A toggle changes one switch of one server |
| ManagerResults.RefusedChangesNothing | src-tauri/src/commands.rs:155-329 | A command that is not stored reports it and changes nothing |
| ManagerResults.StoredExactlyIfAcceptable | src-tauri/src/commands.rs:155-273 | A command is stored if and only if it is acceptable and storage takes it |
| ManagerResults.OtherTunnelsAreUndisturbed | src-tauri/src/commands.rs:155-287 | No step disturbs what runs for a tunnel it is not about |
| ManagerResults.OtherIntegrationsAreUndisturbed | src-tauri/src/commands.rs:155-329 | No step disturbs the integration of a server it is not about |
| ManagerResults.ConnectedTunnelRuns | src-tauri/src/manager.rs:188-223 | A connect that is not refused leaves the tunnel live, as saved and to its server as saved |
| ManagerResults.EndedTunnelsAreNotLive | src-tauri/src/manager.rs:224-229 | Disconnecting, failing and removing stop the tunnel and say so in its status |
| ManagerResults.QuietEditRestartsNothing | src-tauri/src/commands.rs:163-177 | An edit that keeps destination, login and password restarts nothing |
| ManagerResults.EditedServerIsRun | src-tauri/src/commands.rs:177-190 | After a stored edit the live tunnels of the server run to the destination and with the login just saved |
| ManagerResults.ToggleTakesEffect | src-tauri/src/commands.rs:311-329 | After a toggle that is not refused the integration runs exactly if one of its switches is on |
| ManagerResults.IntegrationsNeedIdentity | src-tauri/src/manager.rs:230-254 | No step starts or replaces an integration without the client's identity file |
| Consent.StepConsent | src-tauri/src/model.rs:227-238 | After a step an integration is on exactly if the step granted it, or it was on and the step did not revoke it |
| Consent.ConsentIsExact | src-tauri/src/model.rs:226-238 | Over any run from an empty profile: on if and only if switched on and since then neither switched off, removed nor moved, so for its current host, port and user |
| Consent.IntegrationsRunWithConsent | src-tauri/src/manager.rs:242-245 | A running integration has standing consent for the destination it runs with |
| PortRange.GroupsIffGrammar | src/types.ts:91-97 | The reader accepts exactly the texts of the grammar, each in one way |
| PortRange.ParseOfRange | src/types.ts:89-109 | Reading a printed valid range with its dash replaced gives the range, but for the end of a one-port range |
| PortRange.ParsedIsValid | src/types.ts:98-108 | Whatever is read is a valid range of at most 256 ports |
| PortRange.AcceptedRangesForward | src/components/Editors.tsx:376-391 | What the form accepts passes every port check, with equally long lists of at most 256 ports |
| PortRange.UnchangedFormKeepsPorts | src/components/Editors.tsx:361-391 | Opening a good tunnel and submitting it unchanged keeps every port it forwards |
| BlobEditor.NormalizeMeaning | src/components/GitBlobEditor.tsx:46-49 | Splitting at CRLF, CR and LF equals going through the text character by character |
| BlobEditor.NormalizeInPages | src/components/GitBlobEditor.tsx:44-49 | Line ends may be normalised page by page, even between CR and LF |
| BlobEditor.Preview.ShowText | src/components/GitBlobEditor.tsx:40-57 | After each update the document is the whole text normalised, extended or replaced |
| BlobEditor.DocumentIsWholeText | src/components/GitBlobEditor.tsx:36-57 | The same over every sequence of texts and rebuilds, against the character-by-character reference |

## Left out

- SSH transport, authentication, terminals, SFTP, forwarding sockets, the agent and its wire formats: library and network I/O; tasks are only live or ended.
- Vault encryption and file staging: a save succeeds or fails as a whole, and re-validates the profile first.
- HMAC-SHA1 of hashed host names is a parameter, keys are byte strings, and a known_hosts file is the sequence of its parsed lines.
- KnownHosts.KnownHostsFile.Verify: creating, opening, locking and reading the own file fail as one; what a failed append leaves behind is a parameter, and the results over whole runs are for a disk that works.
- The capability checks of `request`: one flag says whether a method is supported.
- Cancel calls to the native side and microtask order inside one continuation: a continuation runs as one step.
- Sampling.Next: the protocol runs on values; the objects behind the locks are in `SamplingState.dfy`, but dropping a lock guard is part of a step and not a destructor.
- SamplingProofs.NoDeadlock: says that some process can always step, not that each one eventually does, because lock fairness is the runtime's.
- Storage of metrics is a set of rows with record, prune, delete by server and clear; SQL and minute rollups are not part of this model.
- Floating point: measurements, rates and averages are exact reals; times are whole milliseconds.
- A metric input with two interfaces of one name means the last one, as the object built from it does.
- ChartAverages.AverageIsBetween: needs positive weights; with zero or negative durations a mean can lie anywhere.
- ChartAverages.AverageChartPoints: which non-finite value a zero total weight gives is not told.
- ChartPoints.ChartPoints: all rows hold the same series, as the chart builds them.
- The helpers `hasHistoryGap`, `withHistoryGaps` and `historyStart`: one-line computations.
- The clipboard's own reading, its metadata offers, heartbeats and reconnection delays.
- Freshness of connection health by the wall clock.
- Host and server validation, and the canonical form of a forwarded host, are parameters: they rest on library parsers.
- A tunnel task that fails ends and shows its error in one step; its retries and delays are status changes.
- Integration status texts, connection health per server, snapshots and their revisions.
- React state and components, menus, updater, tray, preferences, container and service parsing.
