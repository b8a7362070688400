# Verified models of the Azazel-Edge operator surfaces

This project models, in Dafny, the parts of Azazel-Edge that decide what an operator sees and what an assistant is
asked, and proves what they guarantee for every input, every run or every interleaving. `dafny verify dfyconfig.toml`
checks all of it.

* **M.I.O./Knowledge receipt** (`Json`, `Patterns`, `ReceiptProjection`, `ReceiptDisplay`, `ReceiptTheorems`, `ReceiptBounds`,
  `ReceiptStability`, `ReceiptWitnesses`). `ReceiptProjection` says what is shown of an arbitrary JSON envelope, as a
  function; `ReceiptDisplay` is the code that fills the result member by member with early returns, proved equal to
  that function; the other modules prove self-proving currency, non-interference, closed and bounded output, and
  exactly when displaying twice changes nothing.
* **Touch console** (`SseParser`, `SseRoundTrip`, `StateStream`, `HoldGesture`). The incremental event-stream parser
  (section 9.2.6 of the HTML Living Standard, without ids), its agreement with the server's printer and with the
  bridge's second parser, the life of the state stream as a step relation, and the press-and-hold confirmation.
* **E-paper panel** (`PanelRefresh`). The refresh job that skips a draw when fingerprints agree, against the renderer.
  What is drawn is a record of icon and texts; the pixels are any function of it.
* **Web back end** (`DashboardActivity`, `AlertAggregation`, `TrendStore`, `PingCache`, `DropOldestQueue`). Two
  bucketings of one list of alerts, alert grouping and ranking, the trend file over whole runs, the single-flight
  ping and the drop-oldest queue over all interleavings.
* **Attention pulses** (`AttentionPulse`). Tone memory, running and deferred pulses, class lists, handlers and folds.
* **AI gate** (`AiGovernance`). Who may call the assistant, what it is given, what is accepted, what the log says.

Clocks, randomness, file and network outcomes are parameters of each step. A Python exception is an explicit outcome.
`Text` and `Options` hold shared helpers.

## Where the code does less than its description

Each of these is a lemma below, with a concrete input; the exact condition under which the property does hold is proved
beside it.

* A current envelope whose model status is a list or an object makes the projection raise instead of answer, and so
  does an expired one whose last report has an expiry too far away for a float.
* Displaying a displayed envelope can turn a current model analysis into one that is not current, exactly when the
  analysis is bound by identifiers the display itself drops.
* The state stream reopens before its retry delay exactly when a pause came in between, or at once when the token
  changes; a server hint of 2^31 ms or more is not waited for.
* A chunk boundary between CR and LF ends the event being collected too early (data is delivered, a name alone is
  lost), exactly when one is being collected at the cut.
* The two event-stream parsers agree on printed frames exactly when no name and no payload has outer spaces.
* A signal of 0 to 48 is a percentage to the renderer and dBm to the refresh job, so the panel can keep an old icon.
* A new event is dropped although the queue is empty when the consumer drains it between the failed put and the
  eviction.
* A trend limit of 0 keeps every fresh row; a restart forgets the write interval.
* A pulse deferred under two closed folds makes the replay of the outer one run for ever.
* Two different alert identities can share a group key exactly when the source or the attack has a bar after its first
  character, or the destination or the level has one before its last.
* A refused answer with a list for a summary is answered by a fallback that validation itself refuses; an assistant
  that raises leaves only the input entry in the log.

## Model

| member | source | states |
|---|---|---|
| `ReceiptTheorems.CurrentKnowledgeIsSelfProving` | azazel_edge_web/knowledge_receipt.py:448-540 | If the output marks Knowledge current, the output alone proves it: complete, current, producer-bound, labelled unverified, and the block's six identifiers are texts equal to the output's own generation, trace, event key, advisory trace and frame; the currency check can be repeated on the output unless the completion text was dropped |
| `ReceiptTheorems.CalledCurrentIff` | azazel_edge_web/knowledge_receipt.py:372-388 | The answer calls the envelope current exactly when it is complete, marked current, bound by its producer and at most its own limit of ten seconds or less past its completion |
| `ReceiptTheorems.NotCurrentSays` | azazel_edge_web/knowledge_receipt.py:345-352 | For an envelope that is not current the answer is status "unavailable", is_current false, max_age_seconds 0, the observed Edge event, and a lane with is_current false and the readable receipt's own status, "unavailable" otherwise |
| `ReceiptTheorems.ReportedIff` | azazel_edge_web/knowledge_receipt.py:391-490 | It shows a last report exactly for a readable, projected receipt whose report is marked as such, belongs to this completed and bound envelope by all its identifiers, is well-formed, and has not expired |
| `ReceiptTheorems.ReportBlockSays` | azazel_edge_web/knowledge_receipt.py:442-445 | The report is marked not current and unverified and repeats the receipt's times and references |
| `ReceiptTheorems.CurrentWithoutReference` | azazel_edge_web/knowledge_receipt.py:455-500 | A current envelope without a usable reference shows the lane status alone, marked not current |
| `ReceiptTheorems.KnowledgeMarkedCurrentIff` | azazel_edge_web/knowledge_receipt.py:491-540 | Corollary of the definition, used by the witnesses: Knowledge is marked current exactly for a current envelope with a readable, projected, current and bound receipt |
| `ReceiptTheorems.OneEventSurvivesDisplay` | py/azazel_edge_ai/mio_live_auxiliary.py:124-165 | An envelope whose parts name one event by displayable identifiers still names one event after display: each identity survives two nested projections |
| `ReceiptTheorems.NotCurrentNonInterference` | azazel_edge_web/knowledge_receipt.py:345-490 | Two envelopes that are not current and agree on the Edge event and the receipt show the same five members, whatever else they hold and whatever the clocks say, up to the presence of the last report; each is answered exactly when its report's expiry does not overflow |
| `ReceiptTheorems.CurrentForAtMostTenSeconds` | azazel_edge_web/knowledge_receipt.py:372-388 | The moments at which one envelope is current are exactly one closed interval of at most ten seconds |
| `ReceiptTheorems.ReportForAtMostTenSeconds` | azazel_edge_web/knowledge_receipt.py:391-445 | The moments at which a last report may be shown are exactly one interval of at most 10.1 seconds that ends before its expiry |
| `ReceiptTheorems.ModelProseIsBound` | azazel_edge_web/knowledge_receipt.py:147-176 | Any prose member of the shown model means the model is current and bound to the outer generation and the advisory's frame and trace |
| `ReceiptBounds.OutputIsBounded` | azazel_edge_web/knowledge_receipt.py:21-342 | For every JSON input the output uses a fixed set of names, text of at most 480 safe characters, lists of at most 32 items and at most five containers in depth |
| `ReceiptStability.DisplayTwiceIff` | azazel_edge_web/knowledge_receipt.py:223-342 | Where the display returns, displaying its result returns too, and changes nothing exactly when a current model analysis is bound by identifiers the display keeps |
| `ReceiptWitnesses.BlankGenerationIsNotStable` | azazel_edge_web/knowledge_receipt.py:147-176 | A current envelope with a blank generation on which a second display differs |
| `ReceiptWitnesses.RaisesIff` | azazel_edge_web/knowledge_receipt.py:162-419 | The projection raises in exactly two cases, stated on the input: a current envelope whose model status is a list or an object, and an expired, complete, producer-bound envelope whose timed last report expires so far from now that the distance in seconds has no floating-point value |
| `ReceiptWitnesses.ListStatusRaises` | azazel_edge_web/knowledge_receipt.py:162-176 | A concrete envelope for the first case |
| `ReceiptWitnesses.FarExpiryRaises` | azazel_edge_web/knowledge_receipt.py:405-419 | A concrete envelope for the second case |
| `ReceiptDisplay.DisplaySourceContext` | azazel_edge_web/knowledge_receipt.py:38-81 | The nested loops over observed fields, with a branch per kind of value and the loop over technique ids, compute the context projection |
| `ReceiptDisplay.DisplayHandoff` | azazel_edge_web/knowledge_receipt.py:84-95 | The member-by-member copy computes the handoff projection |
| `ReceiptDisplay.DisplayAdvisory` | azazel_edge_web/knowledge_receipt.py:98-144 | The member-by-member copy computes the advisory projection |
| `ReceiptDisplay.DisplayModelFields` | azazel_edge_web/knowledge_receipt.py:177-220 | The loops over texts, counts and lists compute the model projection, unknowns shown whole or not at all |
| `ReceiptDisplay.DisplayModel` | azazel_edge_web/knowledge_receipt.py:162-176 | Raises exactly on a status that cannot be looked up, otherwise strips the prose of an unbound model |
| `ReceiptDisplay.CheckModel` | azazel_edge_web/knowledge_receipt.py:147-159 | The marker, generation and the loop over frame and trace decide whether the model is current |
| `ReceiptDisplay.DisplayBinding` | azazel_edge_web/knowledge_receipt.py:258-284 | The handoff binding is copied member by member, words out of their literal lists |
| `ReceiptDisplay.DisplayComparison` | azazel_edge_web/knowledge_receipt.py:298-316 | Texts, identifiers, scores and the match marker of the score comparison, or nothing |
| `ReceiptDisplay.DisplaySidecar` | azazel_edge_web/knowledge_receipt.py:317-341 | Texts, identifiers, whole reference lists and the freshness pair of the sidecar, or nothing |
| `ReceiptDisplay.DisplayTopScalars` | azazel_edge_web/knowledge_receipt.py:225-248 | Status, marker, identifiers, times and reason of the envelope, each by its own test |
| `ReceiptDisplay.ObserveEdge` | py/azazel_edge_ai/mio_live_auxiliary.py:168-190 | Action, mode and result out of their literal lists, and the marker exactly when something present is not shown |
| `ReceiptDisplay.BindingIsSame` | py/azazel_edge_ai/mio_live_auxiliary.py:124-160 | The loop over what the binding names decides whether envelope and handoff name one event |
| `ReceiptDisplay.CheckFresh` | azazel_edge_web/knowledge_receipt.py:372-388 | The early returns decide whether the envelope is current |
| `Patterns.PatternIs` | azazel_edge_web/knowledge_receipt.py:12-20 | Every text check of the projection admits exactly the strings its regular expression matches |
| `Patterns.SafeTextIs` | azazel_edge_web/knowledge_receipt.py:14-24 | Text that may be shown is text without a character of the forbidden class; below the blank only tab, line feed and carriage return remain |
| `ReceiptDisplay.DisplayPayload` | azazel_edge_web/knowledge_receipt.py:223-342 | The whole closed projection equals its specification |
| `ReceiptDisplay.LastReport` | azazel_edge_web/knowledge_receipt.py:391-445 | Early returns, the loop over identifier patterns, the comparison of the six pairs and the loops over the two reference lists yield a report exactly when one may be shown, and the OverflowError exactly when the remaining time has no float |
| `ReceiptDisplay.CurrentReferences` | azazel_edge_web/knowledge_receipt.py:505-538 | The loops over bindings, patterns and reference lists yield the current block exactly for a current, bound and usable receipt |
| `ReceiptDisplay.SourceFreshnessOf` | azazel_edge_web/knowledge_receipt.py:355-369 | The successive early returns compute the freshness block |
| `ReceiptDisplay.OperatorMioPayload` | azazel_edge_web/knowledge_receipt.py:448-540 | The function with all its early returns, both exceptions included, equals the specification the theorems are about |
| `ReceiptWitnesses.KnowledgeCanBeCurrent` | azazel_edge_web/knowledge_receipt.py:491-540 | A concrete envelope and receipt whose output marks Knowledge current, so the theorems about current Knowledge have instances |
| `SseParser.Parser.FeedChunk` | azazel_edge_web/static/touch.js:137-168 | One chunk, with the overflow guard, moves the parser as the specification says |
| `SseParser.OverflowDrops` | azazel_edge_web/static/touch.js:148-150 | Past 4194304 characters of unfinished line the buffer and the event being collected are dropped, the hint and what was delivered stay |
| `SseParser.JoinMeans` | azazel_edge_web/static/touch.js:142-146 | The data of an event is its lines with a line feed between any two |
| `SseParser.ParseAppend` | azazel_edge_web/static/touch.js:149-168 | Parsing in two pieces is parsing the whole, unless the cut separates a CR from its LF |
| `SseParser.ChunkInvariance` | azazel_edge_web/static/touch.js:137-168 | However a stream is cut, events, retry hint and residual state are those of one feed, while no feed overflows the buffer |
| `SseParser.LfChunkInvariance` | azazel_edge_web/static/touch.js:137-168 | For LF-only streams no condition on the cuts is left |
| `SseParser.CutLineEnd` | azazel_edge_web/static/touch.js:149-168 | A cut between CR and LF makes the parser see one blank line too many and nothing else |
| `SseParser.CutMeansDispatch` | azazel_edge_web/static/touch.js:149-168 | After such a cut the rest of the stream is parsed as if the event being collected had been ended first |
| `SseParser.CutHarmlessIff` | azazel_edge_web/static/touch.js:149-168 | Such a cut is harmless for every continuation exactly when no event is being collected |
| `SseParser.CutLineEndCounterexample` | azazel_edge_web/static/touch.js:149-168 | A concrete stream on which the cut delivers an event early |
| `SseRoundTrip.JsRoundTrip` | azazel_edge_web/app.py:669-671 | Every sequence of printed frames and keep-alives is recovered exactly and in order by the console's parser |
| `SseRoundTrip.StreamedRoundTrip` | azazel_edge_web/app.py:5289-5308 | The same through the network, however the printed stream is cut |
| `SseRoundTrip.IterEvents` | azazel_edge_web/app.py:641-666 | The generator yields its opening mark and then what the line-by-line specification yields, up to the stop flag, and raises exactly when the stream ends first |
| `SseRoundTrip.UnnamedIsMessage` | azazel_edge_web/app.py:644-660 | An event without a name is a "message" to both parsers |
| `SseRoundTrip.BridgeRun` | azazel_edge_web/app.py:644-671 | The bridge recovers every printed frame in order, with names and payloads stripped |
| `SseRoundTrip.ParsersAgreeIff` | azazel_edge_web/app.py:644-671 | The two parsers agree on a printed stream exactly when no name and no payload has outer spaces |
| `SseRoundTrip.ParsersDisagree` | azazel_edge_web/app.py:644-671 | A frame on which they differ |
| `SseRoundTrip.JsonFramesAreTrimmed` | azazel_edge_web/app.py:669-671 | Frames whose payload is the text of a JSON object meet that condition, with or without a retry hint |
| `HoldGesture.Hold.Frame` | azazel_edge_web/static/touch.js:190-215 | One animation frame moves the hold by the capped time since the last one |
| `HoldGesture.CompletionNeedsAHold` | azazel_edge_web/static/touch.js:189-215 | Over every run a completed hold was pressed once and saw only frames since, at least twelve, and with a clock that does not go back at least 1200 ms |
| `HoldGesture.CompletesExactlyWhen` | azazel_edge_web/static/touch.js:190-199 | A frame completes a press exactly when it is the first to bring the observed time to the threshold |
| `HoldGesture.FrameAdds` | azazel_edge_web/static/touch.js:190-199 | One frame adds the time since the last one, none backwards and at most 100 ms; progress is the part of 1200 ms, at most 1 |
| `HoldGesture.OneCompletionPerPress` | azazel_edge_web/static/touch.js:201-215 | Between two completions there is another press |
| `HoldGesture.NoCompletionAfterCancel` | azazel_edge_web/static/touch.js:201-215 | After a cancel nothing completes before a new press |
| `StateStream.Console.ConnectionEnded` | azazel_edge_web/static/touch.js:1372-1387 | The ending handler: ignored when superseded, otherwise counts, holds off and schedules as specified |
| `StateStream.Console.SyncStream` | azazel_edge_web/static/touch.js:1326-1331 | Keeps at most one running connection; afterwards one runs only if the stream is wanted, a wanted stream runs or has a retry pending, and none was opened while a retry waited |
| `StateStream.Console.RestartStream` | azazel_edge_web/static/touch.js:1308-1314 | Keeps at most one running connection; afterwards no older connection runs, no retry, back-off or hold-off is left, and a new connection runs exactly when the page is visible, in use and not refused |
| `StateStream.AtMostOneConnection` | azazel_edge_web/static/touch.js:1299-1387 | In every reachable state a controller and a retry timer exclude each other and at most one connection is neither aborted nor ended |
| `StateStream.SupersededForever` | azazel_edge_web/static/touch.js:1299-1387 | In every run a connection that is not the current one never becomes so again |
| `StateStream.LateEndingIsIgnored` | azazel_edge_web/static/touch.js:1372-1375 | In every run, once a connection was closed or superseded its ending, whenever it comes, changes nothing but its own record |
| `StateStream.EndingWaits` | azazel_edge_web/static/touch.js:252-259 | Read off the actions: a settled connection ended refused, by a stream error or otherwise as what was received from it says; the delay is 60 s, or the larger of the hint (15 s without one) and min(60000, 2000·2^k) ms, or that back-off with a hint as floor; stream errors are counted; the browser waits that long exactly when a hint that counts is below 2^31 ms |
| `StateStream.Reachable` | azazel_edge_web/static/touch.js:1333-1387 | In every run, besides the invariants, refusals, hints and the status of the current connection are those the received events say |
| `StateStream.TimerDelayMeans` | azazel_edge_web/static/touch.js:1316-1322 | A delay below 2^31 ms is kept, the next 2^31 are not waited for, and so on |
| `StateStream.PageFollowsActions` | azazel_edge_web/static/touch.js:1292-1297 | In every run the page is hidden, refused and last used as the actions say |
| `StateStream.OpeningIsAllowed` | azazel_edge_web/static/touch.js:241-250 | Nothing opens within 300000 ms of the latest stream error that was at least the third, nor before the retry delay, unless a pause dropped it or the token changed |
| `StateStream.NothingOpensWhileHeld` | azazel_edge_web/static/touch.js:1376-1380 | After a third stream error in a row nothing opens for 300000 ms, whatever happens, unless the token changes |
| `StateStream.ThreeErrorsHoldOff` | azazel_edge_web/static/touch.js:1376-1380 | A run with three stream errors after which no continuation opens a connection before 330030 ms |
| `StateStream.EarlyOpeningIff` | azazel_edge_web/static/touch.js:1299-1331 | After an ending, and before its retry is due, an action first opens a connection exactly when a pause came since the ending and the action is a tick, a touch or a return to the page that finds the stream wanted |
| `StateStream.TokenOpensIff` | azazel_edge_web/static/touch.js:1308-1314 | A token change opens at once exactly when the page is visible, in use and not refused |
| `StateStream.OverlongHintDoesNotWait` | azazel_edge_web/static/touch.js:252-259 | A hint of 2^31 ms makes the timer fire at once |
| `StateStream.HideAndShowSkipsTheWait` | azazel_edge_web/static/touch.js:1326-1331 | A run from the start in which hiding and showing the page reopens the stream long before its retry is due |
| `StateStream.BackoffDoubles` | azazel_edge_web/static/touch.js:1384-1384 | The doubling with a cap has the closed form min(60000, 2000·2^k) |
| `PanelRefresh.Station.RefreshMode` | py/azazel_edge_epd_mode_refresh.py:232-290 | For a record in step with the panel and a faithful request, exit status 0 means the panel shows the request, drawn or skipped, and both stay in step; any other status means nothing changed; at most one draw, and only for a new fingerprint |
| `PanelRefresh.DesiredIsMade` | py/azazel_edge_epd_mode_refresh.py:81-167 | Whatever the inputs, the requested specification is in normal form and one the renderer accepts |
| `PanelRefresh.ScreenWords` | py/azazel_edge_epd_mode_refresh.py:141-167 | Which screen, title and risk is asked for, by the words in the mode file |
| `PanelRefresh.RiskWords` | py/azazel_edge_epd_mode_refresh.py:121-165 | Each risk word exactly in its case: the user state first, then the live verdict, then that of the mode file |
| `PanelRefresh.NormalMembers` | py/azazel_edge_epd_mode_refresh.py:81-118 | Precedence of network name and uplink, a signal only while CONNECTED, a score forced into 0..100 |
| `PanelRefresh.DrawnIs` | py/azazel_edge_epd.py:355-460 | What the renderer draws: title, texts, and the icon by literal signal ranges, percentages included |
| `PanelRefresh.RefusedAndRecorded` | py/azazel_edge_epd.py:806-911 | What the renderer refuses and what it records |
| `PanelRefresh.PrintMembers` | py/azazel_edge_epd_mode_refresh.py:170-217 | The fingerprint member by member, the signal by its bucket |
| `PanelRefresh.PrintDecidesContent` | py/azazel_edge_epd_mode_refresh.py:170-217 | Equal fingerprints mean equal panels, for faithful signals |
| `PanelRefresh.SkippingIsSafeIff` | py/azazel_edge_epd.py:355-369 | A specification is safe to skip on its fingerprint exactly when its signal is absent, negative or at least 49, or the uplink is wired |
| `PanelRefresh.RecordIsFaithful` | py/azazel_edge_epd.py:872-911 | What the renderer records has the fingerprint and the content of what it drew |
| `PanelRefresh.PanelShowsDesired` | py/azazel_edge_epd_mode_refresh.py:232-290 | After every run of refreshes, drawn or skipped, the panel shows what the latest working refresh asked for |
| `PanelRefresh.UnchangedIsNotRedrawn` | py/azazel_edge_epd_mode_refresh.py:256-290 | A refresh that asks for the same again draws nothing and changes nothing |
| `PanelRefresh.PercentSignalsGoStale` | py/azazel_edge_epd_mode_refresh.py:189-198 | A run in which a weak percentage signal is skipped and the strong icon stays |
| `DashboardActivity.ActivityPayload` | azazel_edge_web/app.py:2311-2361 | Each 20-minute bucket of the last hour equals, band by band, the sum of its ten 2-minute buckets; bucket sums equal events, non-calm sums equal signals |
| `DashboardActivity.Rebucketing` | azazel_edge_web/app.py:2320-2361 | The same agreement on the counted rows, for every list of rows and every clock |
| `DashboardActivity.EveryRowHasASlot` | azazel_edge_web/app.py:2330-2350 | A row has a bucket exactly when it is in the window, so no index leaves its range |
| `DashboardActivity.BucketsHoldTheWindow` | azazel_edge_web/app.py:2311-2361 | All buckets together hold exactly the rows of the window, per class |
| `DashboardActivity.AlertQueues` | azazel_edge_web/app.py:2257-2284 | The three queues hold exactly the rows of the three bands, in order |
| `DashboardActivity.QueuesMatchBands` | azazel_edge_web/app.py:2257-2361 | Queues and activity strips classify alike |
| `DashboardActivity.BandsMean` | azazel_edge_web/app.py:2257-2262 | Thresholds and bands in numbers, on risk and configuration |
| `DashboardActivity.BucketsByAge` | azazel_edge_web/app.py:2329-2343 | Each bucket of both views by the ages it holds |
| `DashboardActivity.QueueHolds` | azazel_edge_web/app.py:2263-2284 | A queue holds the rows of its band as often as they are listed |
| `AlertAggregation.GroupAlerts` | azazel_edge_web/app.py:2369-2400 | The dictionary lists each key of the window once, at its first appearance, with a row that tells count, first and last time and highest risk of exactly its alerts |
| `AlertAggregation.Aggregate` | azazel_edge_web/app.py:2364-2445 | The payload ranks these rows, shows at most ten and at most ten escalations, and suppressed_total is alerts in the window less groups |
| `AlertAggregation.Summarise` | azazel_edge_web/app.py:2403-2436 | The loop over the ranked rows lists every summary and every escalated one in order, and what it suppresses plus the number of rows is the sum of the counts |
| `AlertAggregation.RecentIs` | azazel_edge_web/app.py:2366-2373 | An alert counts, as often as listed, exactly when its time is positive and at most 30 s, the suppression window or the aggregation window ago |
| `AlertAggregation.PageShowsTheBest` | azazel_edge_web/app.py:2402-2445 | Ten groups or all are shown, best first, and every one shown outranks every one left out; the same for the groups to be escalated |
| `AlertAggregation.SummaryMeans` | azazel_edge_web/app.py:2407-2432 | Suppressed, escalated, reason and recently_suppressed, each stated on the alerts of the group: escalated exactly when there are enough of them or one is risky enough, recently suppressed exactly when there are two and one is recent |
| `AlertAggregation.GroupsPartition` | azazel_edge_web/app.py:2369-2400 | Over any distinct keys that name all alerts the group sizes add up to the number of alerts |
| `AlertAggregation.GroupsIgnoreOrder` | azazel_edge_web/app.py:2369-2400 | For every permutation of the alerts the same keys appear, with equal count, first and last time and risk maximum, and equal totals |
| `AlertAggregation.PageIgnoresOrder` | azazel_edge_web/app.py:2402-2445 | For every permutation the ranks shown, and the ranks escalated, are the same lists |
| `AlertAggregation.RankedIsSorted` | azazel_edge_web/app.py:2402-2402 | The ranking is a permutation of the rows in descending order of count, then risk |
| `AlertAggregation.RankedIsStable` | azazel_edge_web/app.py:2402-2402 | Rows of equal rank keep their order of first appearance |
| `AlertAggregation.KeyIsAmbiguousIff` | azazel_edge_web/app.py:2374-2379 | Another alert with a different identity can have the same key exactly when the source or the attack has a bar after its first character, or the destination or the level one before its last |
| `AlertAggregation.OneWayToCut` | azazel_edge_web/app.py:2374-2379 | Otherwise there is one way to cut the key into five texts, none empty and the third a number |
| `AlertAggregation.KeyTexts` | azazel_edge_web/app.py:2374-2379 | The texts of a key: a missing one reads as "-", the number in decimal |
| `AlertAggregation.StrangersShareAKey` | azazel_edge_web/app.py:2379-2379 | Two alerts between different hosts with one key |
| `AlertAggregation.GroupIsHomogeneous` | azazel_edge_web/app.py:2374-2393 | An alert without a movable bar shares its group with alerts of its own identity only |
| `TrendStore.Tail` | azazel_edge_web/io_helpers.py:50-68 | The loop over a bounded deque returns the last rows of the file, skipping what is not an object |
| `TrendStore.TrendFile.Record` | azazel_edge_web/app.py:3594-3629 | One call: throttle, append, read back, prune and rewrite, with each file operation free to fail |
| `TrendStore.FileAfterAnyRun` | azazel_edge_web/app.py:3594-3629 | After every run from an empty store the file is exactly the longest end of all points written, as the calls say, that has at most `limit` points and none a minute and the retention older than the newest; timestamps rise by at least a second and the interval; the tail read is the whole file |
| `TrendStore.ThrottleFollowsCalls` | azazel_edge_web/app.py:3596-3612 | In every run, failures and restarts included, a call attempts a write exactly when none was attempted since the last restart or the latest is a second and the interval older |
| `TrendStore.SpacedCallsAreWritten` | azazel_edge_web/app.py:3598-3605 | Successful calls that far apart are all written |
| `TrendStore.CallMeans` | azazel_edge_web/app.py:3598-3629 | What a call does to the file and the time of the latest attempt under each failure |
| `TrendStore.BoundsMean` | azazel_edge_web/app.py:3598-3616 | The lower bounds on interval and retention and the reach of the tail, in numbers |
| `TrendStore.EndsCompose` | azazel_edge_web/app.py:3615-3619 | Pruning the pruned file and a new point is pruning the whole history |
| `TrendStore.SuccessfulRecordHeals` | azazel_edge_web/app.py:3594-3629 | From any file whatever, one successful call leaves at most `limit` rows, all within retention, the new point last |
| `TrendStore.SizeBoundIff` | azazel_edge_web/app.py:3618-3619 | The size bound holds after every successful call exactly when the configured limit is at least 1 |
| `TrendStore.RestartForgetsTheGap` | azazel_edge_web/app.py:3598-3600 | After a restart two points can be closer than the write interval |
| `TrendStore.RestartGapIff` | azazel_edge_web/app.py:3598-3619 | The first point after a restart keeps the spacing of the file exactly when there is no older point, or it comes a write interval later, or so late that the older ones are pruned |
| `PingCache.EveryInterleaving` | azazel_edge_web/app.py:4584-4609 | For any number of threads in any order: the lock is held exactly by the thread between acquire and release, the value is never older than the timestamp, values handed out never go back, and the fast path returns a probe at least as recent as the timestamp it checked |
| `PingCache.AtMostOneProbe` | azazel_edge_web/app.py:4600-4609 | Two threads are never probing at once |
| `PingCache.ForcedOrColdNeverFast` | azazel_edge_web/app.py:4598-4599 | In every interleaving whoever takes the fast path did not force the call and found the timestamp younger than the time to live |
| `PingCache.CallPath` | azazel_edge_web/app.py:4596-4609 | Each step of a call: a forced call or one that finds the timestamp that old goes for the lock, and probes when it is free |
| `PingCache.CallEnds` | azazel_edge_web/app.py:4588-4609 | A call is over after a bounded number of its own steps, whatever other threads do |
| `PingCache.LockIsReleased` | azazel_edge_web/app.py:4603-4609 | A holder lets go of the lock within four steps of its own, also when the probe raises |
| `PingCache.OrderMatters` | azazel_edge_web/app.py:4605-4606 | The fast path keeps its word in every interleaving exactly because the value is written before the timestamp |
| `DropOldestQueue.EveryInterleaving` | azazel_edge_web/app.py:692-706 | In every interleaving delivered followed by queued items are offered items in order, the queue is within its bound, and every offered item is in exactly one place |
| `DropOldestQueue.RetryAlwaysEnters` | azazel_edge_web/app.py:703-706 | The put after an eviction cannot fail |
| `DropOldestQueue.AbandonedExactlyWhenEmpty` | azazel_edge_web/app.py:699-702 | A new item is lost exactly when the consumer emptied the queue before the eviction |
| `DropOldestQueue.DroppedThoughEmpty` | azazel_edge_web/app.py:692-706 | A run in which that happens |
| `DropOldestQueue.UndisturbedKeepsTheNewest` | azazel_edge_web/app.py:692-706 | Without a consumer in between the queue ends as the newest `bound` items |
| `AttentionPulse.Pulses.CancelPulse` | azazel_edge_web/static/app.js:3265-3283 | Removes the pulse in every form it can have, with its handler |
| `AttentionPulse.Pulses.StartPulse` | azazel_edge_web/static/app.js:3285-3307 | Replaces the element's pulse by one that runs or, inside a closed fold, waits |
| `AttentionPulse.Pulses.Reapply` | azazel_edge_web/static/app.js:3330-3336 | Keeps the invariant and every other element; a pulse whose time is not up is back on the class list, one whose time is up is forgotten |
| `AttentionPulse.Pulses.NotePanelTone` | azazel_edge_web/static/app.js:3339-3348 | Keeps the invariant and every other element; a calm tone leaves no pulse, a new alarming tone gives the element exactly that tone's pulse, running or deferred |
| `AttentionPulse.Pulses.AnimationEnds` | azazel_edge_web/static/app.js:3298-3303 | Running every handler removes their classes, the entry and the handlers |
| `AttentionPulse.Pulses.OnToggle` | azazel_edge_web/static/app.js:3314-3321 | The iteration over the live map, where it ends, is the specified replay and keeps the invariant |
| `AttentionPulse.EveryRun` | azazel_edge_web/static/app.js:3265-3348 | In every reachable state an element's pulse is running or deferred but not both, is the one of its last noted tone, is absent for a calm tone, and a pulse class has a handler that will remove it |
| `AttentionPulse.ClassMatchesTone` | azazel_edge_web/static/app.js:3339-3348 | The same read for one element |
| `AttentionPulse.OpeningReplaysCurrentTones` | azazel_edge_web/static/app.js:3312-3323 | The toggle event of an open fold starts exactly the pulses deferred under it, each the one its element's tone wants now, and touches nothing else |
| `AttentionPulse.ReplayEndsIff` | azazel_edge_web/static/app.js:3316-3320 | The replay finishes exactly when no pending element inside the fold sits in a further closed fold |
| `AttentionPulse.NestedFoldsHang` | azazel_edge_web/static/app.js:3312-3323 | A run from the start after which opening the outer of two folds never returns |
| `AttentionPulse.FlatPagesNeverHang` | azazel_edge_web/static/app.js:3312-3323 | With folds that do not nest every toggle listener returns, in every state |
| `AttentionPulse.EndClears` | azazel_edge_web/static/app.js:3298-3303 | After an end of animation no pulse class, handler or running pulse is left |
| `AttentionPulse.PulseLasts` | azazel_edge_web/static/app.js:3330-3348 | A visible pulse survives overwritten class lists for exactly five seconds (danger) or two (caution) after its tone was noted |
| `AttentionPulse.AbsentNoteKeepsInvIff` | azazel_edge_web/static/app.js:3343-3343 | A note without an element keeps the invariant exactly when the element has no pulse or the new tone wants the same one |
| `AiGovernance.GateIff` | py/azazel_edge/ai_governance.py:46-63 | Corollary: the branches allow exactly what the three-line rule allows, and each reason is given in exactly its own case |
| `AiGovernance.AssistantSees` | py/azazel_edge/ai_governance.py:46-102 | Corollary: the assistant is called at most once, exactly when the rule allows it, on allowlisted members only with unchanged values |
| `AiGovernance.CopyItems` | py/azazel_edge/ai_governance.py:179-184 | The loop over the first five items accepts exactly lists that begin with strings and clips each |
| `AiGovernance.ValidateOutput` | py/azazel_edge/ai_governance.py:152-185 | Accepts exactly the acceptable outputs and returns them cleaned |
| `AiGovernance.FixedIffWellShaped` | py/azazel_edge/ai_governance.py:152-185 | The fixed points of validation are exactly the well-shaped outputs |
| `AiGovernance.CleanedIsFixed` | py/azazel_edge/ai_governance.py:152-185 | Validating a validated output changes nothing |
| `AiGovernance.CleanedMeans` | py/azazel_edge/ai_governance.py:166-185 | Of a text the first 240 characters survive, of a list the first five items, of each the first 96; an absent or null member reads as empty |
| `AiGovernance.FallbackIs` | py/azazel_edge/ai_governance.py:219-227 | A refused answer is replaced by the first 240 characters of the payload's summary and nothing else |
| `AiGovernance.Governance.SanitizePayload` | py/azazel_edge/ai_governance.py:65-71 | The copy and the removal loop leave exactly the allowlisted members |
| `AiGovernance.Governance.Authorize` | py/azazel_edge/ai_governance.py:73-102 | Allows exactly what the rule allows and hands out allowlisted members only; the log gains one input entry that names the payload exactly when allowed, a blocked entry with the empty output when not, and nothing when the payload is not an object |
| `AiGovernance.Governance.Invoke` | py/azazel_edge/ai_governance.py:187-234 | The log grows by the specified trace and the result is the specified outcome; the payloads of the allowed input entries stay exactly the payloads the assistant was called with |
| `AiGovernance.TraceIsOneOfThree` | py/azazel_edge/ai_governance.py:187-234 | With a plain summary and an assistant that answers, the trace is exactly input/blocked, input/adopted or input/rejected/fallback, each under its exact condition, and the value returned is a fixed point |
| `AiGovernance.ReturnedIsFixedIff` | py/azazel_edge/ai_governance.py:187-234 | A call ends in a fixed point of validation exactly when the payload is an object and, if the rule lets the assistant be asked, it answers and its answer is acceptable or the payload's summary is absent or a string |
| `AiGovernance.ListSummaryIsNotFixed` | py/azazel_edge/ai_governance.py:201-234 | A concrete request whose result validation would refuse |
| `AiGovernance.RaisingAssistantLeavesInputOnly` | py/azazel_edge/ai_governance.py:187-201 | A concrete request whose log ends after the input entry |
| `AiGovernance.InputOnlyIff` | py/azazel_edge/ai_governance.py:187-234 | Corollary: the log ends after the input entry exactly when the assistant raises, or is refused while the summary has no slice; the call raises exactly when at most one entry is logged |
| `AiGovernance.AuditAgrees` | py/azazel_edge/ai_governance.py:73-234 | Corollary: one trace id and source throughout, the context's before the payload's, the payload the assistant saw, and last the value returned |

## Left out

- The Rust core, `ActionArbiter`, the triage engine and the aggregator: not part of this model.
- Flask routing, sockets, subprocess probes, file permissions, translations and DOM painting: I/O without a law of its own.
- `auth.py`: token comparison and role ranks do not interact with the parts modelled here.
- Dashboard summary, guidance and M.I.O. message builders: they copy fields into texts for display.
- Floating point: times and rates are reals, so rounding and NaN timestamps are not modelled. JSON numbers keep NaN and the infinities, which the receipt projection rejects.
- Case folding is that of ASCII, and parsing of an ISO timestamp is a parameter of the receipt model.
- Fonts, pixels, icon files and the e-paper driver: the panel content is the record of what is drawn. Draws made by hand, failed last-render writes and partial draws are not modelled.
- `PanelRefresh.PanelShowsDesired`: needs faithful signals, which `SkippingIsSafeIff` shows to be the exact condition.
- Python's recursion limit: comparing or decoding very deeply nested JSON is taken to succeed.
- `SseParser.ChunkInvariance`: text is counted in code points where JavaScript counts UTF-16 units, and every feed needs to stay under the 4 MiB cap, because the cap throws away a buffer whose content depends on the cuts.
- `TrendStore.FileAfterAnyRun`: needs a clock after the epoch, because a write at time 0 reads as no write; a file without a final line end and an append that writes part of a line are not modelled.
- `AlertAggregation.Aggregate`: the ISO texts and the notification sentence of a summary are left out; they restate its numbers.
- `AttentionPulse.EveryRun`: a note without its element is part of a run only where it is harmless, the condition `AbsentNoteKeepsInvIff` shows to be exact; every id stands for one element, as in the page; the normalisation of tone names and the alert band are left out.
- `AttentionPulse.Pulses.OnToggle`: requires the condition of `ReplayEndsIff`, without which the source does not return; the clock is read once per replay.
- `PingCache.EveryInterleaving`: a value is named by its probe; what the probe answers is left out.
- `DropOldestQueue.EveryInterleaving`: one producer and one consumer, as the stream has; the reconnect loop around the producer is left out.
- `AiGovernance.Governance.Invoke`: the assistant cannot change the payload object it is handed, and keys are text; `record_structured_result` is left out because it copies capped fields.
- `AiGovernance.ValidateOutput`: which of several faults is named in the error is not stated, since the error text is not logged.
