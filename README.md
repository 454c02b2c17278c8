# qai-trader core in Dafny

A model of the verifiable core of qai-trader, a Python research and trading toolkit. The core is
made up of five parts:

- the single-strategy backtester and the multi-session simulator built on it;
- the adaptive control loops: the momentum strategy, the linear reinforcement optimizer, the
  capacity-adaptive memory with its learning-rate tuner, the continuous replay agent and the
  rolling KPIs;
- the signed audit trail with its writer and its three verifiers;
- the validators: distributed redundancy, deployment manifest, dataset security and the
  version 1 signal schema;
- the string logic of the MetaTrader 5 bridge and its HTTP server, plus a few utilities: the
  datastore's file names, the project checkpoint file, the price-difference feature and the
  in-memory loader.

There is one Dafny module per source file, and each takes that file's form:

- Code that changes state step by step becomes classes with `modifies` clauses and loops with
  invariants. Examples are `Backtester.BacktestResult`, `Adaptive.AdaptiveStrategy`,
  `RLAdaptive.AdaptiveMemory`, `RLContinuous.RLContinuousAgent`, `BridgeServer.ReplayCache`, the
  audit file `AuditLog.AuditFile` and the state files in `Files`.
- Each method is proved against a function over its inputs or its old state. The source's promises
  are proved about those functions as lemmas.
- Pure code becomes datatypes, functions and lemmas.

The shared modules are:

- `Wrappers`: Option and Result, where Result stands in for a raised exception.
- `Json`: values as `json.loads` returns them, with Python's truthiness and its `float()`/`int()`
  coercions.
- `Text`: `str.strip`, `split`, `splitlines`, and `int`/`str` on decimals.
- `Ordering`: Python's string order.
- `Numeric`: real-valued means, variances and clamps.
- `Seqs`: prefix facts.

Floats are reals. What the code gets from outside is a parameter, not a definition:

- HMAC-SHA-256 and canonical JSON form `AuditLog.Signer`. They are defined in RFC 2104 section 2
  and FIPS 180-4.
- SHA-256 of canonical JSON is used by the distributed and deployment validators.
- `json.dumps`/`json.loads` and float formatting form `Json.Codec`. Each layout the program writes
  is its own serialiser: the one-line audit dump (`ensure_ascii=False`), the default ASCII dump of the
  recovery previews, the `indent=2` dump of the state files, and the compact ASCII dump of
  `SignalV1.to_json`. The properties they obey are stated as predicates (`Json.Faithful` and others)
  and required by the lemmas that need them. Only the audit dump is required to be one line
  (`HmacUtils.DumpsOneLine`).
  `Json.Faithful` promises the round trips only for values whose numbers are doubles
  (`Json.Representable`), since no text format can tell all reals apart.
- `math.sqrt` is a function constrained by `Numeric.IsSqrt`.
- The clock, uuids, host information, file contents and existence, git's output and the predictor
  are plain values or functions.

A Python generator is modelled by what iterating it to the end gives: the items it yielded and the
error it raised, if any (`Ingest.Stream`).

## Model

| member | source | states |
|---|---|---|
| AuditLog.ResolveKey | src/qai/logging_utils.py:57-59 | an explicit key wins when truthy; otherwise the environment key is used exactly when it is non-empty; a resolved key is never empty |
| AuditLog.SetDefaults | src/qai/logging_utils.py:54-55 | setdefault keeps every existing value and adds exactly the missing defaults |
| AuditLog.EnrichMeaning | src/qai/logging_utils.py:47-55 | enrichment fails exactly for a payload whose session is not a dict; otherwise all payload fields are kept, a given session_id overrides, a missing ts is stamped with the clock, and the session gets the missing host defaults |
| AuditLog.Enrich | src/qai/logging_utils.py:47-55 | an enriched entry keeps every payload key, has ts and a session dict, and carries a given session_id as its string |
| AuditLog.SignedEntryMeaning | src/qai/logging_utils.py:57-62 | the written entry is the enriched entry plus "hmac": the MAC of the canonical enriched entry under the resolved key, or null when no key resolves |
| AuditLog.Written | src/qai/logging_utils.py:64-65 | one call appends exactly one line when enrichment succeeds and none when it raises |
| AuditLog.CallerPayloadMeaning | src/qai/logging_utils.py:47-55 | the caller's payload keeps its keys and values except its nested session dict, which is filled in place and equals the entry's session |
| AuditLog.FillSession | src/qai/logging_utils.py:53-55 | the setdefault loop ends with the session equal to SetDefaults(existing, host defaults) |
| AuditLog.BuildEntry | src/qai/logging_utils.py:47-55 | builds exactly Enrich(payload, session_id, host) |
| AuditLog.AuditFile.AppendSigned | src/qai/logging_utils.py:36-65 | returns the signed entry (or the error), the caller's payload as it reads afterwards, and appends exactly Written(...) to the file's lines |
| HmacUtils.NormalizeEntry | src/qai/hmac_utils.py:20-22 | the normalised entry is the entry minus exactly its "hmac" key, every other value unchanged |
| HmacUtils.CompareDigest | src/qai/hmac_utils.py:42 | compare_digest raises unless both sides are ASCII strings, and otherwise answers equality |
| HmacUtils.CheckEntryMeaning | src/qai/hmac_utils.py:35-46 | a falsy signature is MISSING_HMAC; an entry verifies iff its signature equals the digest of the normalised entry; the check raises exactly for a non-dict entry or a signature/digest compare_digest refuses |
| HmacUtils.Verdicts | src/qai/hmac_utils.py:33-46 | one verdict per entry, in order, each the check of that entry |
| HmacUtils.Record | src/qai/hmac_utils.py:34-46 | one loop iteration counts the entry and then raises, counts it verified, or records its failure |
| HmacUtils.VerifyAuditStream | src/qai/hmac_utils.py:25-48 | the loop computes exactly the specified tally of the entries |
| HmacUtils.TallyFailureSticks | src/qai/hmac_utils.py:33-46 | once a prefix raises, the whole stream raises the same error |
| HmacUtils.TallyFailsIff | src/qai/hmac_utils.py:33-46 | the tally raises iff some verdict raises |
| HmacUtils.TallyCounts | src/qai/hmac_utils.py:29-48 | total is the number of entries and verified + failures == total |
| HmacUtils.TallyAllVerified | src/qai/hmac_utils.py:29-48 | entries that all verify give (n, n, []) |
| HmacUtils.TallyFailuresSound | src/qai/hmac_utils.py:37-43 | each failure records the index and entry of a non-verified entry with its reason, in increasing index order |
| HmacUtils.TallyFailuresComplete | src/qai/hmac_utils.py:36-44 | every entry that does not verify appears among the failures |
| HmacUtils.StreamAccounting | src/qai/hmac_utils.py:25-48 | verify_audit_stream raises iff some entry's check raises; otherwise total, verified and failures account for every entry, failures are sound and complete and in index order |
| HmacUtils.StreamAllVerified | src/qai/hmac_utils.py:25-48 | a stream of verified entries reports all verified and no failure |
| HmacUtils.SignedEntryVerifies | src/qai/hmac_utils.py:35-46 | an entry append_signed_audit writes under a key (payload without its own "hmac") verifies under that key |
| HmacUtils.UnsignedEntryIsMissing | src/qai/hmac_utils.py:35-38 | an entry written without a key has a null signature and is MISSING_HMAC |
| HmacUtils.PayloadHmacNeverVerifies | src/qai/hmac_utils.py:40-43 | a payload that carries its own "hmac" is signed with it inside the message and so never verifies (its numbers being doubles) |
| HmacUtils.TamperedEntryMismatches | src/qai/hmac_utils.py:40-44 | changing any non-signature field of a verified entry makes it HMAC_MISMATCH, for a MAC collision-free on entries whose numbers are doubles |
| HmacUtils.ErrorEntry | src/qai/hmac_utils.py:59-60 | the substitute record for an unparsable line carries a null hmac and so is MISSING_HMAC under every key |
| HmacUtils.FileEntries | src/qai/hmac_utils.py:52-60 | no more entries than lines |
| HmacUtils.EntryOf | src/qai/hmac_utils.py:54-60 | a line gives no entry iff it is blank after strip, and otherwise exactly one |
| HmacUtils.VerifyAuditFile | src/qai/hmac_utils.py:51-61 | the loop over splitlines() builds exactly FileEntries of the text's lines and verifies them as a stream |
| HmacUtils.BlankLinesIgnored | src/qai/hmac_utils.py:54-56 | appending blank lines leaves the entries unchanged |
| HmacUtils.SeparatorSplitsLine | src/qai/hmac_utils.py:53 | a line cut by U+2028 into two non-blank halves gives two entries |
| HmacUtils.LineSeparatorSplitsEntry | src/qai/hmac_utils.py:53 | as written, one written line holding U+2028 is read as two records |
| HmacUtils.VerifyAuditFileByLine | src/qai/hmac_utils.py:51-61 | the corrected reader splits only at "\n" and verifies the resulting entries as a stream |
| HmacUtils.DumpedLines | src/qai/logging_utils.py:64-65 | one json.dumps line per entry, in order |
| HmacUtils.EntryOfDumped | src/qai/hmac_utils.py:54-58 | a dumped entry whose numbers are doubles, read back as a line, is that entry |
| HmacUtils.WrittenLogVerifies | src/qai/hmac_utils.py:51-61 | a log of entries the writer signed under a key, their numbers being doubles, reads back line by line as all verified with no failures |
| HmacUtils.WrittenLogVerifiesAsWritten | src/qai/hmac_utils.py:51-61 | when no dumped entry holds a boundary other than "\n", splitlines() cuts the writer's log exactly where the line-by-line reader does, so the verifier as written reports every entry verified with no failures |
| RecoverState.LineOutcome | scripts/recover_state.py:88-91 | a line is skipped exactly when it is blank after stripping |
| RecoverState.LineOutcomeMeaning | scripts/recover_state.py:93-99 | a line that json.loads rejects is INVALID JSON with the first 200 characters of the stripped line; a parsed value other than an object escapes the loop |
| RecoverState.LineOutcomeAgrees | scripts/recover_state.py:99-111 | for an object line: verified, MISSING_HMAC and HMAC_MISMATCH exactly when verify_audit_stream gives the same verdict for the entry |
| RecoverState.LineOutcomeErrors | scripts/recover_state.py:102-114 | a VERIFICATION_ERROR exactly where the comparison raises; every failure preview is the ASCII dump of the entry without its signature, cut to 200 characters |
| RecoverState.Outcomes | scripts/recover_state.py:87-114 | one outcome per physical line, in order |
| RecoverState.AuditLogReport | scripts/recover_state.py:74-117 | a missing file gives (0, 0, 0, []); a read error gives (0, 0, 1, ...); otherwise total = verified + failed unless an exception escaped |
| RecoverState.CountLine | scripts/recover_state.py:90-114 | one loop iteration updates the counters and failure list exactly as the outcome of the line prescribes |
| RecoverState.VerifyAuditLog | scripts/recover_state.py:74-117 | the loop computes exactly AuditLogReport |
| RecoverState.ScanFailureSticks | scripts/recover_state.py:85-116 | once a line escapes the loop, later lines do not matter |
| RecoverState.ScanCounts | scripts/recover_state.py:90-114 | total counts exactly the non-blank lines, total = verified + failed, and failed equals the number of failure records |
| RecoverState.Scan | scripts/recover_state.py:85-114 | a finished scan has total = verified + failed, at most one per line, and failed equal to the number of failure records |
| RecoverState.ScanFailsIff | scripts/recover_state.py:85-116 | the scan escapes iff some line escapes |
| RecoverState.ScanFailuresSound | scripts/recover_state.py:87-114 | every failure names its physical line number (from 1) whose outcome it is, in line order |
| RecoverState.ScanFailuresComplete | scripts/recover_state.py:96-114 | every failing line is reported |
| RecoverState.ScanAccounting | scripts/recover_state.py:81-117 | without escaping lines, the scan succeeds with all the counting, soundness and completeness facts together |
| RecoverState.ReadableReport | scripts/recover_state.py:85-117 | a readable log reports the scan of its lines, or (0, 0, 1, failures so far) when a line escapes |
| RecoverState.ScanAllGood | scripts/recover_state.py:81-117 | lines that all verify give (n, n, 0, []) |
| RecoverState.DumpedLineVerifies | scripts/recover_state.py:93-111 | a json.dumps line of an entry verify_audit_stream accepts, its numbers being doubles, verifies here too |
| RecoverState.WrittenAuditLogVerifies | scripts/recover_state.py:74-117 | a log written by the signed-audit writer, its numbers being doubles, verifies in full: (n, n, 0, []) |
| RecoverState.Flag | scripts/recover_state.py:175 | the flag is "--" followed by the name with every "_" turned into "-" |
| RecoverState.FlagsOfValues | scripts/recover_state.py:181-183 | arguments that are neither bool nor None give flag/value pairs, in order |
| RecoverState.FlagsMention | scripts/recover_state.py:174-183 | every saved argument other than False and None has its flag in the command |
| RecoverState.FlagsOfOff | scripts/recover_state.py:176-180 | False and None arguments add nothing |
| RecoverState.ResumeMeaning | scripts/recover_state.py:159-192 | exit 1 iff no script is recorded or it does not exist; it raises iff the recorded value is not a path or the saved arguments are neither empty nor a dict; otherwise exit 2 iff it asks and the answer is not "y", and it runs iff --yes or "y"; the command run is the interpreter, the resolved script and the saved arguments' tokens in order |
| RecoverState.AppendArg | scripts/recover_state.py:175-183 | one iteration appends exactly the tokens of that argument |
| RecoverState.BuildCommand | scripts/recover_state.py:173-183 | the command is [python, script] followed by the tokens of all saved arguments in order |
| RecoverState.ResumeScript | scripts/recover_state.py:159-192 | the method computes exactly ResumeOutcome |
| RecoverState.ResumeOutcome | scripts/recover_state.py:160-190 | no truthy last_script gives the "No last_script" exit; --yes never aborts; a run command starts with the interpreter and an existing script path |
| Backtester.NewBacktester | src/qai/backtester.py:43-56 | construction succeeds iff capital > 0 and 0 < risk <= 1, with the two ValueError messages in the source's order |
| Backtester.Signal | src/qai/backtester.py:76-82 | a bar is accepted iff it has open and close and the strategy returns a value in {-1, 0, 1}, which is the signal |
| Backtester.OnBarMeaning | src/qai/backtester.py:84-112 | after a bar the position is the signal; a trade closes iff an open position differs from the signal, at the bar's open with pnl (open - entry) * direction - slippage added to equity; the entry is the open whenever a new non-zero position starts; one equity sample per bar, equal to the equity |
| Backtester.OnBar | src/qai/backtester.py:84-112 | after a bar the position is the signal, the curve has grown by one sample, and at most one trade has been added |
| Backtester.Walk | src/qai/backtester.py:75-112 | a successful walk has one curve sample per bar and a position in {-1, 0, 1} |
| Backtester.MetricsAt | src/qai/backtester.py:130-132 | the three run metrics: starting and ending equity and net_return = ending / starting - 1 |
| Backtester.WalkEquity | src/qai/backtester.py:85-112 | equity is the capital plus the closed trades' pnl, and the last sample is the current equity |
| Backtester.WalkTrades | src/qai/backtester.py:85-99 | every trade so far closed at its bar's open with the source's pnl formula, and trade indices never decrease |
| Backtester.OnBarTrades | src/qai/backtester.py:85-99 | one bar keeps all trades closed at their bar's open and in index order |
| Backtester.WalkBars | src/qai/backtester.py:75-82 | the loop succeeds iff every bar has both prices and a signal in range |
| Backtester.RunSucceedsIff | src/qai/backtester.py:75-82 | run raises iff some bar lacks a price or gets a bad signal, with that bar's error |
| Backtester.FinalCloseEquity | src/qai/backtester.py:114-127 | the forced close keeps equity = capital + total pnl, and overwrites (does not append) the last sample with the equity |
| Backtester.FinalCloseTrades | src/qai/backtester.py:114-126 | the forced close adds at most one trade, on the last bar at its close |
| Backtester.RunEquity | src/qai/backtester.py:86-132 | ending - starting equity is the sum of trade pnl, net_return = ending / starting - 1, the curve has one sample per bar and ends at the ending equity |
| Backtester.RunTrades | src/qai/backtester.py:85-126 | every trade has direction 1 or -1 and pnl (exit - entry) * direction - slippage; all close at a bar's open except a last forced close at the last close; indices never decrease |
| Backtester.Wins | src/qai/backtester.py:28 | the number of winning trades is at most the number of trades |
| Backtester.WinsPlusLosses | src/qai/backtester.py:28-29 | every trade is a win or a loss: wins + losses = number of trades |
| Backtester.WinRate | src/qai/backtester.py:30-34 | wins / (total or 1) lies in [0, 1]; 0 without wins, 1 when all win |
| Backtester.SetDefault | src/qai/backtester.py:31-36 | setdefault inserts a key only when missing and never changes existing values |
| Backtester.MergeStep | src/qai/backtester.py:31-36 | one more setdefault merges one more default |
| Backtester.MergeIdempotent | src/qai/backtester.py:31-36 | merging the same defaults twice changes nothing |
| Backtester.DefaultsAt | src/qai/backtester.py:28-36 | the defaults summarize offers: counts, win rate and the last equity sample |
| Backtester.SummaryKeeps | src/qai/backtester.py:31-36 | summarize never overwrites an existing metric |
| Backtester.SummaryIdempotent | src/qai/backtester.py:26-37 | a second summarize changes nothing |
| Backtester.SummaryCounts | src/qai/backtester.py:28-36 | on fresh metrics: wins + losses = total_trades = number of trades, wins counts positive pnl, win_rate = wins / max(total, 1) in [0, 1], ending_equity = last sample |
| Backtester.BacktestResult.AddTrade | src/qai/backtester.py:22-24 | appends exactly the trade, nothing else changes |
| Backtester.BacktestResult.Summarize | src/qai/backtester.py:26-37 | metrics become Summary(old metrics, trades, curve) and are returned; trades and curve unchanged |
| Backtester.OnBarStep | src/qai/backtester.py:84-112 | one loop iteration moves the locals and the result object exactly as OnBar |
| Backtester.CloseOpenPosition | src/qai/backtester.py:114-128 | the forced close on the result object is exactly FinalClose |
| Backtester.WalkFailureSticks | src/qai/backtester.py:75-82 | once a bar raises, the run raises that error |
| Backtester.Run | src/qai/backtester.py:58-137 | run raises iff RunResult does, with its error; otherwise a fresh result with RunResult's trades, curve and metrics; one audit line appended only on success when a log is given, signed with `hmacKey` (None as run is written; the key the corrected simulator forwards) |
| Backtester.Replay | src/qai/backtester.py:70-112 | the loop ends with exactly Walk's book in its locals and the result object |
| Adaptive.CheckArgs | src/qai/adaptive_strategy.py:38-41 | no error iff 0 < min <= max and 0 < learning rate <= 1, with the range error checked first |
| Adaptive.Signal | src/qai/adaptive_strategy.py:68-79 | ValueError iff open or close is missing; otherwise 1 iff momentum > threshold, -1 iff it is not and momentum < -threshold, else 0 |
| Adaptive.SignalBands | src/qai/adaptive_strategy.py:73-79 | with a non-negative threshold the signal is 0 exactly on [-threshold, threshold]; a higher threshold only gives signals a lower one also gives |
| Adaptive.Adjustment | src/qai/adaptive_strategy.py:89 | the adjustment is non-negative for a non-negative learning rate |
| Adaptive.AfterTrade | src/qai/adaptive_strategy.py:82-99 | the rate and the range are unchanged and the history becomes the newest 20 of the old history plus the result |
| Adaptive.HistoryAfterTrade | src/qai/adaptive_strategy.py:83-87 | the history ends with the trade's pnl, holds at most 20, and drops its oldest entry exactly when it was full |
| Adaptive.ThresholdMoves | src/qai/adaptive_strategy.py:88-99 | a win never raises the threshold, a loss never lowers it, zero pnl leaves it; a threshold inside [min, max] stays inside |
| Adaptive.WinBelowRangeRaises | src/qai/adaptive_strategy.py:38-94 | the unchecked initial threshold below the minimum is raised to the minimum by a winning trade |
| Adaptive.Loaded | src/qai/adaptive_strategy.py:124-130 | loading raises only for a non-dict document or a field float() rejects; the loaded history holds at most max(old length, 20) values |
| Adaptive.LoadState | src/qai/adaptive_strategy.py:119-123 | no file, or a file that does not parse, leaves the state as constructed; otherwise the state is Loaded from the parsed document |
| Adaptive.PersistLoadRoundTrip | src/qai/adaptive_strategy.py:106-130 | loading the indent=2 file persist writes restores every field when the fields are doubles |
| Adaptive.LoadedPersisted | src/qai/adaptive_strategy.py:106-130 | the document persist writes, once parsed, loads back as the persisted state |
| Adaptive.AdaptiveStrategy.Call | src/qai/adaptive_strategy.py:68-79 | __call__ is Signal at the current threshold |
| Adaptive.AdaptiveStrategy.OnTradeClose | src/qai/adaptive_strategy.py:82-100 | the state becomes AfterTrade(old state, trade) and the persisted file holds the dump of the new state |
| Adaptive.AdaptiveStrategy.OnSessionEnd | src/qai/adaptive_strategy.py:102-103 | the persisted file holds the dump of the state |
| Adaptive.AdaptiveStrategy.PersistState | src/qai/adaptive_strategy.py:106-117 | with a path, the file holds the indent=2 dump of the five state fields; without one nothing is written |
| Adaptive.Create | src/qai/adaptive_strategy.py:26-66 | construction succeeds iff the argument checks pass and loading does not raise, with the argument error first; the state is the loaded one and one adaptive_init entry is appended when an audit log is given |
| Optimizer.DotTruncates | src/qai/optimizer.py:64 | the pure-Python policy uses zip: only the common prefix of weights and features counts |
| Optimizer.DotZeros | src/qai/optimizer.py:41-64 | freshly constructed zero weights give policy 0 |
| Optimizer.Zeros | src/qai/optimizer.py:41 | n weights, all 0.0 |
| Optimizer.Shifted | src/qai/optimizer.py:81 | the updated weights are as long as the shorter of weights and features |
| Optimizer.ShiftedAt | src/qai/optimizer.py:81 | each weight moves by delta times its own feature |
| Optimizer.ShiftedDot | src/qai/optimizer.py:60-81 | for equal lengths the update moves the policy on those features by delta times their squared length |
| Optimizer.DotSelf | src/qai/optimizer.py:60-64 | a squared length is never negative |
| Optimizer.Decayed | src/qai/optimizer.py:83-84 | epsilon never falls below 0.01, never rises once at or above it, and strictly falls while above 0.01 / 0.99 |
| Optimizer.Suggestion | src/qai/optimizer.py:86-92 | 1 iff score >= epsilon, -1 iff it is not and score <= -epsilon, else 0 |
| Optimizer.SuggestionBands | src/qai/optimizer.py:86-92 | with epsilon > 0: 0 iff -epsilon < score < epsilon, -1 iff score <= -epsilon |
| Optimizer.OptimizerRL.Suggest | src/qai/optimizer.py:86-92 | suggest is the dead-band decision on the current policy and epsilon |
| Optimizer.OptimizerRL.TrainStep | src/qai/optimizer.py:66-72 | weights move by rate * (reward - prediction) along the features, epsilon decays, and the return value is prediction + update |
| Optimizer.OptimizerRL.ApplyUpdate | src/qai/optimizer.py:74-81 | weights become Shifted(old weights, features, delta), nothing else changes |
| Optimizer.OptimizerRL.DecayEpsilon | src/qai/optimizer.py:83-84 | epsilon becomes Decayed(old epsilon), nothing else changes |
| Optimizer.TrainTowardsReward | src/qai/optimizer.py:66-81 | one step moves the policy on the trained features from the prediction towards the reward, and with rate * |f|^2 <= 1 it lands between them |
| Optimizer.Fraction | src/qai/optimizer.py:68-69 | a step of at most the whole way from prediction to reward stays between them |
| Optimizer.ReturnIsNotNewPolicy | src/qai/optimizer.py:72 | the value train_step returns is not the trained policy (0.1 against 0.4 on a concrete input) |
| Optimizer.Create | src/qai/optimizer.py:27-58 | ValueError iff input_size <= 0; otherwise zero weights of that length with the given rates, and one init entry when an audit log is given |
| RLAdaptive.SampleJson | src/qai/rl_adaptive_optimizer.py:21-22 | to_dict holds exactly the state list and the reward |
| RLAdaptive.Snapshot | src/qai/rl_adaptive_optimizer.py:60-61 | one to_dict per sample, in buffer order |
| RLAdaptive.Summary | src/qai/rl_adaptive_optimizer.py:43-51 | count is the buffer length; zeros for an empty buffer; otherwise the mean reward and the population standard deviation |
| RLAdaptive.SummaryBounds | src/qai/rl_adaptive_optimizer.py:43-51 | the volatility is never negative and the mean lies within the rewards' bounds |
| RLAdaptive.StrideBounds | src/qai/rl_adaptive_optimizer.py:79-83 | below decay 1 the stride int(1 / max(decay, 0.1)) is between 1 and 10, and 1 for decay > 0.5 |
| RLAdaptive.Kept | src/qai/rl_adaptive_optimizer.py:81-84 | thinning keeps no more samples than it scans |
| RLAdaptive.KeptSubseq | src/qai/rl_adaptive_optimizer.py:81-85 | thinning keeps an order-preserving subsequence |
| RLAdaptive.KeptNewest | src/qai/rl_adaptive_optimizer.py:83 | thinning always keeps the newest sample |
| RLAdaptive.KeptAll | src/qai/rl_adaptive_optimizer.py:83 | with stride 1 thinning keeps everything |
| RLAdaptive.TruncatedFits | src/qai/rl_adaptive_optimizer.py:74-85 | after _truncate the buffer fits the capacity |
| RLAdaptive.TruncatedSubseq | src/qai/rl_adaptive_optimizer.py:74-85 | _truncate only removes samples and keeps the order of the rest |
| RLAdaptive.TruncatedNewest | src/qai/rl_adaptive_optimizer.py:74-85 | with a positive capacity _truncate never drops the newest sample |
| RLAdaptive.TruncatedWhole | src/qai/rl_adaptive_optimizer.py:74-85 | a buffer within capacity comes through whole unless it is thinned with a stride above 1 |
| RLAdaptive.NewestRemembered | src/qai/rl_adaptive_optimizer.py:148-150 | after update's append and resize the new sample is the newest in memory (positive capacities) |
| RLAdaptive.TargetCapacity | src/qai/rl_adaptive_optimizer.py:54-55 | the target is at least the minimum, and at most the maximum when the bounds are ordered |
| RLAdaptive.CapacityFollowsVolatility | src/qai/rl_adaptive_optimizer.py:54-55 | zero volatility gives the clamped base capacity, and the target never shrinks as volatility grows |
| RLAdaptive.AdaptiveMemory.constructor | src/qai/rl_adaptive_optimizer.py:29-37 | a fresh memory is empty at its base capacity |
| RLAdaptive.AdaptiveMemory.Append | src/qai/rl_adaptive_optimizer.py:39-41 | the buffer becomes Truncated(old buffer + [sample]) and the capacity is unchanged |
| RLAdaptive.AdaptiveMemory.AdaptCapacity | src/qai/rl_adaptive_optimizer.py:53-58 | the capacity becomes the target; the buffer is truncated only when the capacity changed |
| RLAdaptive.AdaptiveMemory.Remember | src/qai/rl_adaptive_optimizer.py:148-150 | append, summary and adapt_capacity together: the statistics of the appended buffer, a non-negative volatility, and the capacity and buffer that follow |
| RLAdaptive.AdaptiveMemory.LoadSnapshot | src/qai/rl_adaptive_optimizer.py:63-69 | corrected load_snapshot: succeeds iff every item converts, then the buffer is Truncated(decoded items); otherwise the buffer is left as it was |
| RLAdaptive.AdaptiveMemory.Truncate | src/qai/rl_adaptive_optimizer.py:74-85 | the buffer becomes Truncated(old buffer) |
| RLAdaptive.AdaptiveMemory.DropOldest | src/qai/rl_adaptive_optimizer.py:75-76 | the popleft loop leaves the newest `capacity` samples |
| RLAdaptive.Thin | src/qai/rl_adaptive_optimizer.py:81-85 | the thinning loop keeps exactly Kept(buffer, stride) |
| RLAdaptive.ListOf | src/qai/rl_adaptive_optimizer.py:66 | list() of a list is the list itself |
| RLAdaptive.SampleOf | src/qai/rl_adaptive_optimizer.py:66-67 | only a dict item converts to a sample |
| RLAdaptive.Decode | src/qai/rl_adaptive_optimizer.py:65-68 | the loop appends at most one sample per item, and one per item when it gets through them all |
| RLAdaptive.DecodeExtend | src/qai/rl_adaptive_optimizer.py:65-68 | once an item raises, later items change nothing |
| RLAdaptive.DecodeSnapshot | src/qai/rl_adaptive_optimizer.py:60-68 | a snapshot decodes back to the samples it was taken from |
| RLAdaptive.SampleRoundTrip | src/qai/rl_adaptive_optimizer.py:21-67 | to_dict followed by load_snapshot's conversions gives the sample back |
| RLAdaptive.Items | src/qai/rl_adaptive_optimizer.py:201 | iterating a list yields its elements |
| RLAdaptive.Fields | src/qai/rl_adaptive_optimizer.py:196-200 | the fields read only from a dict document |
| RLAdaptive.Restored | src/qai/rl_adaptive_optimizer.py:192-204 | corrected _load_state restores only from a dict document |
| RLAdaptive.PartialLoadOverfills | src/qai/rl_adaptive_optimizer.py:197-204 | as written, a bad third item leaves two samples in a memory of capacity 1 and the learning rate taken from a rejected file; the corrected load leaves everything as it was |
| RLAdaptive.SaveLoadRoundTrip | src/qai/rl_adaptive_optimizer.py:183-204 | saving and loading restores the rate, epsilon, gamma and the memory up to the same truncation any load applies, for a payload whose numbers are doubles |
| RLAdaptive.RestoredSaved | src/qai/rl_adaptive_optimizer.py:183-204 | the payload save_state writes restores the tuning, the memory truncated as any load truncates it |
| RLAdaptive.TargetRate | src/qai/rl_adaptive_optimizer.py:206-211 | the target rate is at least min_lr, and at most max_lr when the bounds are ordered |
| RLAdaptive.SmoothedBetween | src/qai/rl_adaptive_optimizer.py:213-215 | a smoothing factor in [0, 1] lands between the current and the target rate, strictly closer to a different target when below 1 |
| RLAdaptive.PositiveRewardsRaise | src/qai/rl_adaptive_optimizer.py:206-215 | a positive mean reward puts the target above an initial rate below the maximum, and smoothing then raises a rate at or below the initial one |
| RLAdaptive.EventEntry | src/qai/rl_adaptive_optimizer.py:220-225 | the payload's keys override; module, event and session_id are there unless the payload overrides them |
| RLAdaptive.TradeFeatures | src/qai/rl_adaptive_optimizer.py:171-174 | three features ending with the pnl (default 0), with no move when the trade has no exit |
| RLAdaptive.RLAdaptiveOptimizer.LearningRate | src/qai/rl_adaptive_optimizer.py:144-145 | the rate reported is the base optimizer's, the learning_rate save_state writes |
| RLAdaptive.RLAdaptiveOptimizer.Suggest | src/qai/rl_adaptive_optimizer.py:177-178 | suggest is the base optimizer's dead-band decision |
| RLAdaptive.RLAdaptiveOptimizer.Update | src/qai/rl_adaptive_optimizer.py:147-168 | one more step; memory, capacity and statistics follow append/summary/adapt_capacity; the base optimizer trains with the smoothed target rate; one adaptive_update entry is logged; the state is saved exactly on every tenth step |
| RLAdaptive.RLAdaptiveOptimizer.Train | src/qai/rl_adaptive_optimizer.py:152-164 | the smoothed target becomes the learning rate for this training step, and the metrics report it with the prediction |
| RLAdaptive.RLAdaptiveOptimizer.Conclude | src/qai/rl_adaptive_optimizer.py:157-167 | the step count grows by one, the event is logged and the state saved on every tenth step |
| RLAdaptive.RLAdaptiveOptimizer.ObserveTrade | src/qai/rl_adaptive_optimizer.py:170-175 | exactly update on the trade's features (entry, exit move, pnl) rewarded with its pnl: the same returned metrics, resized memory, smoothed learning rate, trained weights, decayed epsilon, adaptive_update audit line and every-tenth-step save; the trade becomes the newest memory sample when the capacities are positive |
| RLAdaptive.RLAdaptiveOptimizer.SaveState | src/qai/rl_adaptive_optimizer.py:183-190 | the file holds the indent=2 dump of the current rate, epsilon, gamma and memory snapshot |
| RLAdaptive.RLAdaptiveOptimizer.LoadState | src/qai/rl_adaptive_optimizer.py:192-204 | corrected _load_state: the state becomes Restored(...) when the file parses and every field converts, and stays as it was otherwise |
| RLAdaptive.RLAdaptiveOptimizer.LogEvent | src/qai/rl_adaptive_optimizer.py:217-231 | with an audit log exactly one signed line of the event entry is appended; without one nothing |
| RLAdaptive.Create | src/qai/rl_adaptive_optimizer.py:91-141 | ValueError iff input_size <= 0; a missing or empty memory and a missing base optimizer are replaced by defaults, the initial rate is read before loading; the learning rate, epsilon, gamma and memory are then what the corrected _load_state restores from the state file, or the constructed ones when it restores nothing; and one adaptive_init entry is logged on success |
| RLContinuous.ExperienceJson | src/qai/rl_continuous.py:19-23 | to_dict holds exactly the state list and the reward |
| RLContinuous.ReplayJson | src/qai/rl_continuous.py:177-178 | one to_dict per experience, in buffer order |
| RLContinuous.FromEnd | src/qai/rl_continuous.py:134-143 | Python's `s[-n:]`: a suffix of the list, the last n items for positive n, all of it for 0, all but the first -n for negative n |
| RLContinuous.TruncatedSuffix | src/qai/rl_continuous.py:132-134 | truncation keeps a chronological suffix, at most max_buffer long when that is positive, the whole buffer when it fits or max_buffer is 0 |
| RLContinuous.NewestKept | src/qai/rl_continuous.py:121-134 | with a positive limit the newest experience always survives truncation |
| RLContinuous.TradeFeatures | src/qai/rl_continuous.py:125-129 | three features: entry, exit - entry and pnl |
| RLContinuous.Number | src/qai/rl_continuous.py:102 | float() accepts JSON numbers and refuses everything else |
| RLContinuous.ExperienceOf | src/qai/rl_continuous.py:102 | an item converts only when it is a dict holding both "state" and "reward" |
| RLContinuous.Experiences | src/qai/rl_continuous.py:102 | the comprehension converts every item, in order, or raises |
| RLContinuous.LoadedReplay | src/qai/rl_continuous.py:99-104 | no replay file leaves the buffer as it was |
| RLContinuous.StateFields | src/qai/rl_continuous.py:91-93 | fields come only from a dict; missing keys keep the current values |
| RLContinuous.LoadedState | src/qai/rl_continuous.py:89-98 | no state file restores nothing |
| RLContinuous.ExperienceRoundTrip | src/qai/rl_continuous.py:19-102 | to_dict followed by the load conversion gives the experience back |
| RLContinuous.ExperiencesRoundTrip | src/qai/rl_continuous.py:102-178 | the snapshot of a buffer converts back to the same buffer |
| RLContinuous.SaveLoadRoundTrip | src/qai/rl_continuous.py:88-116 | save_state then _load_state restores epsilon, the weights and the replay buffer whatever the agent held before, when all of them are doubles |
| RLContinuous.StateRoundTrip | src/qai/rl_continuous.py:88-112 | the state file save_state writes loads back as its epsilon and weights, when they are doubles |
| RLContinuous.ReplayRoundTrip | src/qai/rl_continuous.py:99-116 | the replay file save_state writes loads back as the buffer, when its numbers are doubles |
| RLContinuous.CorruptFiles | src/qai/rl_continuous.py:96-104 | a corrupt state file leaves epsilon and the weights alone; a corrupt replay file empties the buffer |
| RLContinuous.ReplayedAppend | src/qai/rl_continuous.py:144-146 | training on two batches in turn equals training on their concatenation |
| RLContinuous.ReplayedLength | src/qai/rl_continuous.py:144-146 | training never lengthens the weights |
| RLContinuous.DecayedTimesBounds | src/qai/rl_continuous.py:144-147 | after at least one step epsilon is at or above the floor, and never above where it started (or the floor) |
| RLContinuous.ReportJson | src/qai/rl_continuous.py:141-149 | the metrics always hold the update count, and hold epsilon exactly when training happened |
| RLContinuous.RLContinuousAgent.constructor | src/qai/rl_continuous.py:55-68 | the fields as given, an empty buffer and the RLState copied from the optimizer |
| RLContinuous.RLContinuousAgent.Truncate | src/qai/rl_continuous.py:132-134 | the buffer becomes Truncated(old buffer, max_buffer); nothing else changes |
| RLContinuous.RLContinuousAgent.AppendExperience | src/qai/rl_continuous.py:121-123 | the buffer becomes Truncated(old buffer + [experience]); nothing else changes |
| RLContinuous.RLContinuousAgent.ObserveTrade | src/qai/rl_continuous.py:125-130 | the trade's experience is appended and truncated, is the newest one kept for a positive limit, and nothing is trained |
| RLContinuous.RLContinuousAgent.Train | src/qai/rl_continuous.py:139-149 | an empty buffer reports no updates and changes nothing; otherwise the last batch_size experiences train the optimizer oldest first, epsilon decays once per update, the RLState copies the optimizer and the buffer is left alone |
| RLContinuous.RLContinuousAgent.SaveState | src/qai/rl_continuous.py:107-116 | the files hold the indent=2 dumps of the optimizer's epsilon and weights and of the replay snapshot |
| RLContinuous.RLContinuousAgent.EndEpisode | src/qai/rl_continuous.py:151-167 | training on the default batch (epsilon decayed once per update), both files saved with the optimizer's epsilon and weights, and one continuous_update entry logged exactly when auditing is on, a log exists and an update happened |
| RLContinuous.RLContinuousAgent.Conclude | src/qai/rl_continuous.py:153-167 | the state file holds the optimizer's epsilon and weights and the replay file the buffer, and the audit entry is appended only when asked for and something was trained |
| RLContinuous.RLContinuousAgent.LoadState | src/qai/rl_continuous.py:88-105 | the RLState and the optimizer take the restored epsilon and weights or keep theirs; the buffer becomes the truncated loaded replay |
| RLContinuous.RLContinuousAgent.AttachOptimizer | src/qai/rl_continuous.py:169-172 | the new optimizer takes the stored weights unless they are empty, and always the stored epsilon |
| RLContinuous.Create | src/qai/rl_continuous.py:35-83 | ValueError iff input_size <= 0; otherwise the given or a fresh optimizer; the RLState's and the optimizer's epsilon and weights are the state file's when it loads and the optimizer's initial ones otherwise; the buffer is the replay file's, truncated and bounded; and one continuous_init entry logged after the optimizer's own init entry when one was created |
| MetricsAdaptive.KpisJson | src/qai/metrics_adaptive.py:24-29 | to_dict holds exactly stability, volatility and adaptive_score |
| MetricsAdaptive.AverageStability | src/qai/metrics_adaptive.py:52-57 | 0 for an empty window |
| MetricsAdaptive.EquityVolatility | src/qai/metrics_adaptive.py:59-68 | 0 with fewer than two equity samples |
| MetricsAdaptive.KpisOf | src/qai/metrics_adaptive.py:46-50 | compute combines the window's mean stability and the equity's volatility |
| MetricsAdaptive.StabilityBounds | src/qai/metrics_adaptive.py:52-57 | values within bounds around 0 average within those bounds |
| MetricsAdaptive.VolatilityNonNegative | src/qai/metrics_adaptive.py:59-68 | the volatility is never negative |
| MetricsAdaptive.SteadyEquityCalm | src/qai/metrics_adaptive.py:59-68 | an equity curve with equal steps has a zero variance |
| MetricsAdaptive.ScoreBounded | src/qai/metrics_adaptive.py:46-50 | the adaptive score is no larger than the stability in size and has its sign |
| MetricsAdaptive.AdaptiveMetrics.constructor | src/qai/metrics_adaptive.py:35-38 | empty stability deque and equity list with the given window |
| MetricsAdaptive.AdaptiveMetrics.UpdateStability | src/qai/metrics_adaptive.py:40-41 | the deque becomes the last `window` values of old + [value]; the value is the newest for a positive window; equity unchanged |
| MetricsAdaptive.AdaptiveMetrics.RecordEquity | src/qai/metrics_adaptive.py:43-44 | the sample is appended to the equity list; the deque is unchanged |
| MetricsAdaptive.AdaptiveMetrics.LogUpdate | src/qai/metrics_adaptive.py:70-89 | returns compute()'s KPIs and appends exactly one signed adaptive_update entry carrying them |
| MetricsAdaptive.Create | src/qai/metrics_adaptive.py:35-38 | deque(maxlen=window) raises iff the window is negative; otherwise an empty tracker |
| DistributedValidator.ToDict | src/qai/distributed_validator.py:27-35 | node_id, status and payload always; "hash" exactly when there is one |
| DistributedValidator.FailedNodes | src/qai/distributed_validator.py:44 | the failed ids, never more than the results |
| DistributedValidator.SuccessfulNodes | src/qai/distributed_validator.py:132 | the successful and the failed ids together are as many as the results |
| DistributedValidator.Evaluate | src/qai/distributed_validator.py:41-57 | the hash dict, its distinct values, the failed ids; consistent iff at most one distinct hash and no failure; mismatched ids are the dict's keys only when hashes differ |
| DistributedValidator.HashMapKeys | src/qai/distributed_validator.py:42 | an id is a key of the hash dict iff some result with that id has a hash |
| DistributedValidator.HashedIdsKeys | src/qai/distributed_validator.py:49 | the mismatched ids are exactly the dict's keys, each once |
| DistributedValidator.LastHashWins | src/qai/distributed_validator.py:42 | with duplicate ids the last hash for an id is the one kept |
| DistributedValidator.HashOfNode | src/qai/distributed_validator.py:42 | with unique ids every hash is its node's value in the dict |
| DistributedValidator.FailedMembers | src/qai/distributed_validator.py:44 | an id is listed as failed iff some result with that id did not succeed |
| DistributedValidator.NodesPartitioned | src/qai/distributed_validator.py:44-132 | each result's id is listed as successful or failed by its status, and the lists together have one entry per result |
| DistributedValidator.OrderIndependent | src/qai/distributed_validator.py:41-102 | with unique ids the verdict is the same for any completion order |
| DistributedValidator.NodeIdOf | src/qai/distributed_validator.py:96 | a missing node_id becomes node-{index} |
| DistributedValidator.NodeOf | src/qai/distributed_validator.py:104-112 | success iff the callable returned; a success carries the payload and its digest, an error carries {"error": message} and no hash |
| DistributedValidator.Completed | src/qai/distributed_validator.py:102-113 | one result per completed task, in completion order |
| DistributedValidator.SameResults | src/qai/distributed_validator.py:102-113 | whatever the completion order, the batch holds the same results, one per task |
| DistributedValidator.CompletedMembers | src/qai/distributed_validator.py:95-113 | the results are exactly the results of the tasks |
| DistributedValidator.AuditEntry | src/qai/distributed_validator.py:150-158 | the payload's keys override module, event and session_id; event is qai.distributed/{event} unless overridden |
| DistributedValidator.ResultLines | src/qai/distributed_validator.py:114-122 | at most one entry per result |
| DistributedValidator.ResultLinesAppend | src/qai/distributed_validator.py:113-122 | each new result adds exactly its own validation_node_result entry after the earlier ones |
| DistributedValidator.SummaryPartitions | src/qai/distributed_validator.py:126-134 | the summary's successful and failed ids partition the results |
| DistributedValidator.DistributedValidator.constructor | src/qai/distributed_validator.py:63-77 | no results yet, the given log, session and key |
| DistributedValidator.DistributedValidator.Audit | src/qai/distributed_validator.py:150-164 | one signed AuditEntry line when there is an audit log, nothing otherwise; it raises (and writes nothing) iff there is a log and the payload's "session" is not a dict |
| DistributedValidator.AuditEntryRaises | src/qai/distributed_validator.py:153-164 | signing _audit's entry fails iff the caller's payload has a "session" that is not a dict, since _audit's own keys never include "session" |
| DistributedValidator.DistributedValidator.RunValidationBatch | src/qai/distributed_validator.py:79-124 | the results are Completed(tasks, order); no tasks log nothing; otherwise one init entry and then one entry per result in completion order |
| DistributedValidator.DistributedValidator.RecordAll | src/qai/distributed_validator.py:102-122 | the as_completed loop records every task's result and logs it |
| DistributedValidator.DistributedValidator.Complete | src/qai/distributed_validator.py:102-122 | one iteration extends the results and the log by the next completed task |
| DistributedValidator.DistributedValidator.Record | src/qai/distributed_validator.py:112-122 | one result appended and its entry logged after the earlier ones |
| DistributedValidator.DistributedValidator.EmitSignedEvent | src/qai/distributed_validator.py:138-145 | a missing payload is logged as {}; with an audit log, a payload whose "session" is not a dict raises AttributeError and appends nothing |
| DistributedValidator.DistributedValidator.ConsolidateResults | src/qai/distributed_validator.py:126-136 | the summary is Evaluate plus node_count and successful_nodes, logged as one validation_complete entry |
| Simulator.StrategyFor | src/qai/simulator.py:71-75 | the session's own strategy, else the factory's, else a ValueError exactly when both are missing |
| Simulator.RunOf | src/qai/simulator.py:71-85 | without a strategy in the spec or a factory, the ValueError "No strategy provided for session <id>"; a backtest only runs with one of them |
| Simulator.Lookup | src/qai/simulator.py:89-93 | `dict.get` with a default |
| Simulator.FoldRuns | src/qai/simulator.py:67-95 | a completed loop has one run per session |
| Simulator.SessionLines | src/qai/simulator.py:77-85 | one group of audit lines per session |
| Simulator.Results | src/qai/simulator.py:67-86 | one outcome per session |
| Simulator.FoldMeaning | src/qai/simulator.py:67-95 | the loop completes iff every session runs, with the runs in order; otherwise the exception is the first raising session's |
| Simulator.NetReturn | src/qai/simulator.py:91-93 | a summary has a net return iff it holds the key |
| Simulator.Column | src/qai/simulator.py:89-90 | one value per summary, 0 where the key is missing |
| Simulator.TallySums | src/qai/simulator.py:58-90 | total_trades and the return sum are the sums over the summaries |
| Simulator.TallyBest | src/qai/simulator.py:60-93 | the best session is the first with the greatest net_return, and there is none iff no summary has a net_return |
| Simulator.CollectMeaning | src/qai/simulator.py:57-88 | the keys are the session ids and each holds the last session with that id |
| Simulator.Parsed | src/qai/simulator.py:172-179 | at most one entry per line |
| Simulator.ParsedLine | src/qai/simulator.py:173-179 | a line gives at most one entry |
| Simulator.ParsedAppend | src/qai/simulator.py:172-179 | parsing distributes over concatenated lines |
| Simulator.NewEntriesAreAppended | src/qai/simulator.py:168-180 | with no line boundary inside a line, the entries sliced after the initial ones are exactly those of the appended lines |
| Simulator.VerifyNew | src/qai/simulator.py:132-134 | no exception iff verify_audit_stream succeeds with no failures |
| Simulator.Ids | src/qai/simulator.py:68 | the session ids in order |
| Simulator.Summaries | src/qai/simulator.py:86 | one summary per run |
| Simulator.AfterRunsReport | src/qai/simulator.py:97-140 | a returned report is the one built from the runs |
| Simulator.FinishReport | src/qai/simulator.py:116-140 | the audit step after the loop returns the report unchanged when it does not raise |
| Simulator.SummaryOfMetrics | src/qai/backtester.py:37-45 | a run's summary counts its trades and carries its net_return |
| Simulator.RunSummary | src/qai/simulator.py:77-86 | every completed backtest has a net_return, and its summary reports it and its trade count |
| Simulator.AggregateJson | src/qai/simulator.py:98-104 | the aggregate dict holds total_trades as an int, equal to the summed trade count whenever that sum is whole |
| Simulator.SimEntry | src/qai/simulator.py:116-122 | the audit payload carries the multi_session_backtest event and the aggregate dict |
| Simulator.CountColumn | src/qai/simulator.py:89 | summing summaries whose total_trades is their run's trade count gives the number of trades all runs closed |
| Simulator.TotalTradesCounted | src/qai/simulator.py:58-104 | when every session runs, the logged aggregate's total_trades is JInt of the number of trades all sessions closed, as Python's int sum |
| Simulator.ReportMeaning | src/qai/simulator.py:97-104 | sessions counts distinct ids; total_trades and the average come from the sums over every summary; the best session is the first with the greatest net_return, its return reported unless its id is empty |
| Simulator.ResultsMeaning | src/qai/simulator.py:57-140 | one report entry per distinct id, holding that id's last run |
| Simulator.FoldSticks | src/qai/simulator.py:67-95 | once a session raises, later sessions change neither the outcome nor the audit log |
| Simulator.StoresHolds | src/qai/simulator.py:88-140 | the dict the loop keeps is the report's sessions |
| Simulator.AddSession | src/qai/simulator.py:89-93 | one session's summary updates the totals as Add does |
| Simulator.ReadAuditEntries | src/qai/simulator.py:168-180 | the entries are ReadEntries of the log's lines |
| Simulator.ParseLine | src/qai/simulator.py:173-179 | one line read as ParsedLine says |
| Simulator.RunLoop | src/qai/simulator.py:67-95 | corrected loop: succeeds iff every session runs; the dict, the totals and the audit lines are those of FoldRuns/Tally/Collect/FoldLines |
| Simulator.RunSessions | src/qai/simulator.py:45-140 | corrected run_sessions, with hmac_key forwarded to the backtester: the result and the audit log are Outcome's, whose multi_session_backtest entry carries total_trades as an int |
| Simulator.RunAll | src/qai/simulator.py:57-140 | run_sessions on at least one session: the result and the log are AfterRuns', the multi_session_backtest entry holding the aggregate with an int total_trades |
| Simulator.Conclude | src/qai/simulator.py:116-134 | appends the multi_session_backtest entry (SimEntry of the aggregate, total_trades an int) and raises exactly as Finish says |
| Simulator.Turn | src/qai/simulator.py:67-95 | one loop turn extends the fold, the audit lines, the dict and the totals, or stops with the session's exception |
| Simulator.Record | src/qai/simulator.py:88-93 | the result stored under the id and the totals updated |
| Simulator.RunOne | src/qai/simulator.py:68-86 | the strategy, the backtest and its summary, or the exception; the audit lines of a completed run |
| Simulator.RunsSummaries | src/qai/simulator.py:77-93 | every completed run's summary carries its net return and its trade count |
| Simulator.OutcomeAsWritten | src/qai/simulator.py:54-85 | as written, run_sessions never returns: no sessions, a missing strategy, or Backtester.run refusing the extra keywords |
| Simulator.KeywordsRaise | src/qai/simulator.py:77-85 | one flat session over no bars: the corrected run reports, the code as written raises TypeError |
| Simulator.KeyedRunVerifies | src/qai/simulator.py:77-140 | with an audit log and an hmac_key forwarded to the backtester, every session running means run_sessions returns the report built from the runs: every entry appended during the call verifies under the key, for strategies that write no audit entries of their own (earlier log lines and new lines without line boundaries, logged numbers doubles) |
| Simulator.AfterRunsVerifies | src/qai/simulator.py:116-140 | the keyed end of the call, once every session has run and its line reads back: the report is returned |
| Simulator.FinishVerifies | src/qai/simulator.py:116-134 | the simulator's signed line appended after lines that read back as keyed entries passes the re-verification |
| Simulator.AppendedVerifies | src/qai/simulator.py:132-134 | lines appended after boundary-free lines, each reading back as a verifying entry, give verify_audit_stream no failure |
| Simulator.SessionsRead | src/qai/backtester.py:139-155 | with every session run, the backtester's keyed lines read back, in order, as the entries it signed |
| Simulator.SessionLineReads | src/qai/backtester.py:147-155 | one session's keyed line reads back as its signed entry, which verifies under the key |
| Simulator.ReadBackVerifies | src/qai/logging_utils.py:57-65 | a line append_signed_audit writes under a key is one line that reads back as the signed entry, which verifies under that key |
| Simulator.ParsedDumped | src/qai/simulator.py:172-179 | _read_audit_entries reads a dumped entry back as that entry |
| Simulator.ParsedEach | src/qai/simulator.py:172-179 | lines each read back as one entry give exactly those entries |
| Simulator.FoldLinesRead | src/qai/simulator.py:67-85 | when every session runs and appends one line that reads back, the loop's lines read back in order |
| Strategies.NewThresholdCross | src/qai/strategies.py:26-28 | accepted iff lower < upper, otherwise a ValueError |
| Strategies.Price | src/qai/strategies.py:31 | the close, or the open when the close is missing or zero; none iff neither gives a value |
| Strategies.CrossSignal | src/qai/strategies.py:34-38 | -1 iff the price is at or above upper, 1 iff at or below lower, else 0 |
| Strategies.Cross | src/qai/strategies.py:30-38 | a ValueError iff the bar has no price; otherwise the crossing signal |
| Strategies.CrossAntitone | src/qai/strategies.py:34-38 | a higher price never gives a more bullish signal |
| Strategies.CrossRunsOnValidBars | src/qai/strategies.py:30-38 | on bars with open and close prices the strategy never raises and stays in -1..1 |
| Strategies.NewPredictorThreshold | src/qai/strategies.py:52-54 | accepted iff lower < upper, otherwise a ValueError |
| Strategies.DefaultBandAccepted | src/qai/strategies.py:46-47 | the default band is accepted |
| Strategies.Features | src/qai/strategies.py:56-64 | the features succeed iff present and of the predictor's input size |
| Strategies.BandSignal | src/qai/strategies.py:77-81 | 1 iff the prediction is at or above upper, -1 iff at or below lower, else 0 |
| Strategies.Predicted | src/qai/strategies.py:66-81 | succeeds iff the features do, giving the band signal of the prediction |
| Strategies.BandMonotone | src/qai/strategies.py:77-81 | a higher prediction never gives a more bearish signal |
| Scoring.Correct | src/qai/scoring.py:30 | no more agreeing positions than positions, and all of them iff every direction agrees |
| Scoring.AccuracyScore | src/qai/scoring.py:20-31 | in [0, 1]; 0 for mismatched lengths or no predictions |
| Scoring.PerfectAccuracy | src/qai/scoring.py:30-31 | the score is 1 iff every direction agrees |
| Scoring.AccuracySymmetric | src/qai/scoring.py:30 | swapping predictions and actual values leaves the score unchanged |
| Scoring.Moves | src/qai/scoring.py:41 | a single prediction counts as one zero move, so the moves are never empty |
| Scoring.StabilityIndex | src/qai/scoring.py:34-45 | 0 for no predictions, otherwise in (0, 1] |
| Scoring.StabilityOfVolatility | src/qai/scoring.py:41-45 | over two or more predictions the index is 1 / (1 + the volatility AdaptiveMetrics computes for the same series) |
| Scoring.SteadyPredictions | src/qai/scoring.py:41-45 | predictions moving by a constant step have no spread |
| Scoring.Direction | src/qai/scoring.py:57 | the direction is 1 or -1 |
| Scoring.AbsSum | src/qai/scoring.py:58 | the total absolute reward is never negative |
| Scoring.SignedReward | src/qai/scoring.py:57 | the signed reward never exceeds the total absolute reward in size |
| Scoring.RewardFactor | src/qai/scoring.py:48-59 | in [-1, 1]; 0 for mismatched lengths, no predictions or all-zero rewards |
| Scoring.AllRight | src/qai/scoring.py:57 | calling every move's direction right earns the full absolute reward |
| Scoring.PerfectReward | src/qai/scoring.py:57-59 | calling every direction right gives a reward factor of 1 |
| Scoring.Evaluate | src/qai/scoring.py:65-76 | the three scores in range; pnl defaults to the actual values |
| Scoring.PerfectCalls | src/qai/scoring.py:65-76 | with pnl defaulted, every direction right gives accuracy 1 and reward 1 |
| DeployValidator.Load | src/qai/deploy_validator.py:164-171 | a given dict is used as is with no path; a stored manifest must parse to a dict and carries its path |
| DeployValidator.ArtifactItems | src/qai/deploy_validator.py:71-78 | a list's items are iterated; anything else either iterates nothing or raises |
| DeployValidator.Missing | src/qai/deploy_validator.py:107-110 | exactly the required checks not marked truthy, in the required order |
| DeployValidator.MissingIssues | src/qai/deploy_validator.py:111-119 | one issue per missing check, naming it |
| DeployValidator.Judge | src/qai/deploy_validator.py:78-120 | checked iff the path is given and exists; a missing path gives one issue; a checksum mismatch gives exactly the checksum issue; otherwise one issue per missing required check |
| DeployValidator.Verdicts | src/qai/deploy_validator.py:77-120 | one verdict per artifact in order, or the first exception |
| DeployValidator.VerdictsFailEarly | src/qai/deploy_validator.py:77-120 | an exception part-way through is the whole loop's |
| DeployValidator.TalliedMeaning | src/qai/deploy_validator.py:73-120 | an artifact is listed as checked or rolled back iff its verdict says so; no issues iff no verdict has one |
| DeployValidator.ReportOf | src/qai/deploy_validator.py:122-130 | passed iff there are no issues; the rollback plan is sorted and holds exactly the rolled-back names |
| DeployValidator.ValidationMeaning | src/qai/deploy_validator.py:62-130 | checked iff the path exists, rolled back iff an issue, passed iff no artifact has one, and a sorted duplicate-free rollback plan |
| DeployValidator.ReportMeaning | src/qai/deploy_validator.py:77-130 | the report's lists in terms of the artifacts themselves |
| DeployValidator.RollbackPlanCanonical | src/qai/deploy_validator.py:128 | the rollback plan does not depend on the order failures were met in |
| DeployValidator.IssueTexts | src/qai/deploy_validator.py:39 | one "artifact: message" text per issue |
| DeployValidator.RaiseOnFailure | src/qai/deploy_validator.py:37-40 | RuntimeError iff the report did not pass, listing every issue |
| DeployValidator.Target | src/qai/deploy_validator.py:156 | the target tag is never empty |
| DeployValidator.DeployValidator.constructor | src/qai/deploy_validator.py:46-57 | the given log, session, key and required checks |
| DeployValidator.DeployValidator.Validate | src/qai/deploy_validator.py:62-137 | the report, the RuntimeError when asked to raise on a failed validation, and one signed success entry exactly when the validation passed |
| DeployValidator.DeployValidator.Collect | src/qai/deploy_validator.py:73-120 | the loop accumulates Tallied(Verdicts(...)) or stops at the first exception |
| DeployValidator.DeployValidator.BuildRollbackPlan | src/qai/deploy_validator.py:139-159 | release, baseline and one restore entry per rolled-back artifact in order, targeting the baseline tag or previous-stable |
| DeployValidator.ValidateArtifacts | src/qai/deploy_validator.py:199-214 | the report of a validator built from the arguments, never raising on failure, with its success entry |
| SecurityValidator.Keys | src/qai/security_validator.py:29 | the row's key set: every key of the row and nothing else |
| SecurityValidator.Extra | src/qai/security_validator.py:29 | exactly the row's keys outside the allow-list |
| SecurityValidator.FieldIssues | src/qai/security_validator.py:33-36 | at most one issue per field |
| SecurityValidator.ExtraIssues | src/qai/security_validator.py:28-31 | one error iff the allow-list is non-empty and the row has fields outside it |
| SecurityValidator.Count | src/qai/security_validator.py:25-37 | a severity count never exceeds the issues |
| SecurityValidator.CountAppend | src/qai/security_validator.py:25-37 | counts add up over concatenated issue lists |
| SecurityValidator.FieldsIssuesCount | src/qai/security_validator.py:32-36 | one warning per None, one error per number above 1e6 in size, nothing else |
| SecurityValidator.RowIssuesCount | src/qai/security_validator.py:28-36 | per row: one error for unexpected fields under a non-empty allow-list, one warning per None, one error per large number |
| SecurityValidator.DatasetIssuesCount | src/qai/security_validator.py:25-37 | over the dataset, the warnings count the None values and the errors count rows with unexpected fields plus large numbers |
| SecurityValidator.UnrestrictedNoFieldErrors | src/qai/security_validator.py:28 | a missing or empty allow-list never reports field names |
| SecurityValidator.ValidateDataset | src/qai/security_validator.py:25-37 | the issues are DatasetIssues: rows in order, fields in their order |
| SecurityValidator.CheckFields | src/qai/security_validator.py:32-36 | the inner loop gives exactly FieldsIssues of the row |
| SecurityValidator.Lower | src/qai/security_validator.py:41 | lower-casing keeps the length and maps A-Z to a-z |
| SecurityValidator.Contains | src/qai/security_validator.py:41 | substring test: true iff the text occurs at some position |
| SecurityValidator.Compliant | src/qai/security_validator.py:39-43 | compliant iff no string value of any row contains "password" in any case |
| SecurityValidator.FlaggedIgnoresCase | src/qai/security_validator.py:41 | a value and its lower-cased form are flagged alike |
| SecurityValidator.ReportJson | src/qai/security_validator.py:55-58 | issues as dicts in order, and the compliance flag |
| SecurityValidator.AuditReport | src/qai/security_validator.py:45-71 | the report of validate_dataset and check_compliance, logged as one signed entry only when an audit log is given |
| SignalSchema.MaybeInt | src/bridge/signal_schema.py:111-121 | None or "" is absent; a non-negative integer is kept; a result is never negative |
| SignalSchema.EnsureIsoTs | src/bridge/signal_schema.py:55-71 | a missing or empty ts is the clock's; a given one is kept iff it is an ISO string, else a ValueError |
| SignalSchema.CheckHead | src/bridge/signal_schema.py:82-100 | accepted heads have version "1", a non-empty string symbol, side BUY or SELL and a positive volume read with float() |
| SignalSchema.CheckPrice | src/bridge/signal_schema.py:102-109 | None or "" is absent; a number is kept |
| SignalSchema.CheckTail | src/bridge/signal_schema.py:102-133 | accepted tails have non-negative sl_pts and tp_pts and a clock or ISO timestamp |
| SignalSchema.Validate | src/bridge/signal_schema.py:74-146 | a non-dict is refused; every accepted signal meets schema v1, with a truthy id when the uuid source gives one |
| SignalSchema.SignalJson | src/bridge/signal_schema.py:50-52 | asdict: exactly the ten fields, None as null |
| SignalSchema.Loads | src/bridge/signal_schema.py:149-155 | a JSON error becomes "invalid json: ..."; otherwise the dict is validated |
| SignalSchema.Revalidate | src/bridge/signal_schema.py:74-146 | a validated signal's own dict validates to the same signal |
| SignalSchema.StorableJson | src/bridge/signal_schema.py:50-52 | the dict of a signal whose numbers are doubles is one json.dumps writes and json.loads reads back |
| SignalSchema.Stable | src/bridge/signal_schema.py:74-146 | a schema-conforming signal with its own ts and id validates to itself under any clock and uuid |
| SignalSchema.HeadOfFields | src/bridge/signal_schema.py:82-100 | on well-typed head fields the head is accepted iff symbol, side and volume meet the schema |
| SignalSchema.TailOfFields | src/bridge/signal_schema.py:102-127 | on well-typed optional fields the tail is accepted iff the points are non-negative and ts is empty or ISO; an empty ts becomes the clock's |
| SignalSchema.ValidateFresh | src/bridge/signal_schema.py:74-146 | a well-typed dict without id or meta is accepted exactly when the schema allows, gaining a fresh id and, for an empty ts, the clock's |
| SignalSchema.ValidateOfChecks | src/bridge/signal_schema.py:129-146 | a dict without id or meta whose head and tail pass gets a fresh id and no meta |
| SignalSchema.RoundTrip | src/bridge/signal_schema.py:149-160 | loads(dumps(s)) gives back every validated signal whose numbers are doubles |
| SignalSchema.Dumps | src/bridge/signal_schema.py:50-52 | to_json's compact dump with the default ensure_ascii, which json.loads reads back as the signal's dict when its numbers are doubles |
| SignalSchema.VolumeRequired | src/bridge/signal_schema.py:94-98 | a missing or non-numeric volume is refused with "'volume' must be a number" |
| SignalSchema.SideChecked | src/bridge/signal_schema.py:90-92 | a side other than BUY or SELL is refused |
| SignalSchema.Defaults | src/bridge/signal_schema.py:126-129 | a valid signal without ts or id gets the clock's ts and a fresh id |
| Mt5Bridge.DefaultName | src/bridge/mt5_bridge.py:63-67 | the default name starts with the symbol (slashes replaced by "_"), "_", the side and "_" |
| Mt5Bridge.NameStaysInFolder | src/bridge/mt5_bridge.py:65-67 | a "/" in the symbol never puts the default name in a sub-directory |
| Mt5Bridge.TextValues | src/bridge/mt5_bridge.py:75-81 | seven values, absent ones as empty strings |
| Mt5Bridge.KeyLines | src/bridge/mt5_bridge.py:73-83 | one `key=value` line per key, in order |
| Mt5Bridge.TextLines | src/bridge/mt5_bridge.py:73-83 | exactly seven lines in the legacy text format |
| Mt5Bridge.Payload | src/bridge/mt5_bridge.py:87-97 | the eight schema fields, None as null, without id and meta |
| Mt5Bridge.JsonBody | src/bridge/mt5_bridge.py:100-101 | fails exactly when the schema refuses the payload |
| Mt5Bridge.JsonBodyAccepts | src/bridge/mt5_bridge.py:87-101 | the JSON format accepts exactly the schema-acceptable signals, and the body is to_json's compact, ASCII-escaped dump of their fields with the given timestamp and a fresh id |
| Mt5Bridge.JsonFileLoads | src/bridge/mt5_bridge.py:87-101 | a JSON file the writer produced loads back as the signal it stored, its volume and price being doubles |
| Mt5Bridge.Render | src/bridge/mt5_bridge.py:60-101 | a bad format is refused first; text always renders; json renders iff acceptable; the name is the given one or the default |
| Mt5Bridge.WriteSignal | src/bridge/mt5_bridge.py:50-128 | the folder exists afterwards; a refused signal leaves its files as they were; otherwise exactly the named file is written with the body (for JSON, the compact ASCII-escaped dump to_json writes) |
| BridgeSimulator.Entry | src/bridge/simulator.py:31-34 | a line contributes nothing iff it has no "="; otherwise the stripped parts around its first "=" |
| BridgeSimulator.Entries | src/bridge/simulator.py:30-34 | one contribution per line |
| BridgeSimulator.CollectKeys | src/bridge/simulator.py:28-34 | a key is in the dict iff some line sets it |
| BridgeSimulator.CollectValue | src/bridge/simulator.py:34 | a key holds the value of the last line setting it |
| BridgeSimulator.ParseTextSignal | src/bridge/simulator.py:27-35 | the dict is Fields of the text's splitlines() |
| BridgeSimulator.GlobsDisjoint | src/bridge/simulator.py:73 | no name matches both globs |
| BridgeSimulator.Pending | src/bridge/simulator.py:73-76 | exactly the listed names matching a glob, each once, all in the folder itself |
| BridgeSimulator.PendingOrder | src/bridge/simulator.py:73-76 | every .sig.json file comes before every .sig file, each group sorted |
| BridgeSimulator.Destination | src/bridge/simulator.py:70-103 | a file goes to a sub-directory path |
| BridgeSimulator.DestinationInjective | src/bridge/simulator.py:96-103 | distinct files go to distinct destinations |
| BridgeSimulator.RecordOf | src/bridge/simulator.py:79-113 | a signal iff the file validates, with a simulated fill at the price or 0.0; otherwise the error; archived/ after success and failed/ after an error |
| BridgeSimulator.Outcome | src/bridge/simulator.py:80-85 | a validated signal has side BUY or SELL, a positive volume and a non-empty symbol; a .sig.json file whose text json.loads rejects fails with that error |
| BridgeSimulator.Records | src/bridge/simulator.py:73-113 | one record per pending file, in order, each for its own path and holding a signal iff the file validates |
| BridgeSimulator.Moves | src/bridge/simulator.py:96-105 | one move per record, from its path to its destination |
| BridgeSimulator.MovedKeeps | src/bridge/simulator.py:78-113 | a file of the folder that is not moved stays as it was |
| BridgeSimulator.MovedRemoves | src/bridge/simulator.py:52-105 | every moved file has left the folder |
| BridgeSimulator.MovedLands | src/bridge/simulator.py:52-105 | with distinct destinations each moved file sits at its destination with its text |
| BridgeSimulator.PassMoves | src/bridge/simulator.py:78-113 | a pass over distinct files of the folder moves them to distinct sub-directory paths |
| BridgeSimulator.ProcessOnce | src/bridge/simulator.py:56-115 | a missing folder gives no records and no change; otherwise one record per pending file in order, and the files moved accordingly |
| BridgeSimulator.ProcessFile | src/bridge/simulator.py:78-113 | one turn records the next file and moves it |
| BridgeSimulator.PassMeaning | src/bridge/simulator.py:56-115 | after a pass every taken file sits with its text at its record's destination, and every other file of the folder is untouched |
| BridgeSimulator.MovedMeaning | src/bridge/simulator.py:52-105 | moves to distinct destinations remove, land and keep as PassMeaning says |
| BridgeSimulator.EntryOf | src/bridge/simulator.py:31-34 | a `key=value` line with a plain key gives back the key and the value |
| BridgeSimulator.TextFileFields | src/bridge/simulator.py:27-35 | parsing a text file the writer produced gives back each field as written |
| BridgeSimulator.KeyEntries | src/bridge/simulator.py:33-34 | one entry per key, carrying its value |
| BridgeSimulator.TextLinesRead | src/bridge/simulator.py:30-34 | the writer's lines come back from the line split, each giving its key and value |
| BridgeSimulator.LinesRead | src/bridge/simulator.py:30-34 | `key=value` lines joined by newlines read back as their keys and values |
| BridgeSimulator.CollectSeven | src/bridge/simulator.py:28-34 | the seven text keys fill the dict with exactly their values |
| BridgeSimulator.TextFileValidates | src/bridge/simulator.py:43-45 | the dict parsed from a writer's text file validates to the writer's signal (volume and price doubles) |
| BridgeSimulator.PriceOfText | src/bridge/signal_schema.py:102-109 | an optional price that is a double, written as text, reads back as itself |
| BridgeSimulator.MaybeIntOfText | src/bridge/signal_schema.py:111-121 | an optional count written as text reads back as itself |
| BridgeSimulator.TextFileRead | src/bridge/simulator.py:80-85 | a writer's text file read by the simulator validates to the writer's signal, with the reader's id and, for an empty ts, the reader's clock (volume and price doubles) |
| BridgeSimulator.JsonFileRead | src/bridge/simulator.py:80-85 | a writer's JSON file read by the simulator validates to exactly the signal the writer stored (volume and price doubles) |
| BridgeSimulator.DefaultNamesMatched | src/bridge/simulator.py:73 | the writer's default names are picked up by the globs for their format |
| BridgeServer.ClientIp | core/bridge_server.py:101-107 | a given X-Forwarded-For yields a stripped element free of commas; otherwise the peer host or "unknown" |
| BridgeServer.FirstHop | core/bridge_server.py:103-106 | a proxy chain yields its first hop, stripped |
| BridgeServer.Octet | core/bridge_server.py:113 | a parsed octet is below 256 |
| BridgeServer.ParseIPv4 | core/bridge_server.py:113 | a parsed address has four octets |
| BridgeServer.NetsByOctets | core/bridge_server.py:62-116 | an address lies in some allow-listed network iff its octets are LAN octets |
| BridgeServer.NetOf | core/bridge_server.py:62-68 | membership in each of the five networks, spelled out in octets |
| BridgeServer.HighOctets | core/bridge_server.py:115 | the leading 8, 12 and 24 bits of an address, in octets |
| BridgeServer.OctetOfDigits | core/bridge_server.py:113 | str(n) of an octet parses back as n |
| BridgeServer.ParseDotted | core/bridge_server.py:113 | the dotted text of an address parses back as that address |
| BridgeServer.LanAddresses | core/bridge_server.py:110-119 | a dotted address is LAN iff its octets are in the allow-list |
| BridgeServer.IsLan | core/bridge_server.py:110-119 | an address is LAN only if it parses as a dotted IPv4 address |
| BridgeServer.UnknownNotLan | core/bridge_server.py:107-119 | the "unknown" fallback is not LAN |
| BridgeServer.EmptyNotLan | core/bridge_server.py:118-119 | an empty address is not LAN |
| BridgeServer.LeadingZeroRefused | core/bridge_server.py:113-119 | 127.0.0.01 does not parse, so it is not LAN |
| BridgeServer.VerifyHmac | core/bridge_server.py:122-142 | false without a secret; TypeError iff either digest is non-ASCII; otherwise true iff the signature equals HMAC(secret, token|ts|body) |
| BridgeServer.SignedRequestVerifies | core/bridge_server.py:122-142 | a request signed with the secret over its own token, timestamp and body verifies |
| BridgeServer.OtherBodyRejected | core/bridge_server.py:132-142 | a signature for one body does not verify another |
| BridgeServer.Remove | core/bridge_server.py:179 | `del d[k]` removes only that key's item, keeping the others |
| BridgeServer.RemoveDistinct | core/bridge_server.py:179 | deleting a present key shrinks the dict by one and keeps keys distinct |
| BridgeServer.RemoveAll | core/bridge_server.py:178-179 | the deletion loop keeps only items that were there |
| BridgeServer.RemoveAllSize | core/bridge_server.py:178-179 | deleting distinct present keys removes exactly their items |
| BridgeServer.InsertPermutes | core/bridge_server.py:176 | insertion adds exactly one item |
| BridgeServer.InsertSorted | core/bridge_server.py:176 | insertion keeps the order by timestamp |
| BridgeServer.SortByTs | core/bridge_server.py:176 | sorted by timestamp and a permutation of the items |
| BridgeServer.Victims | core/bridge_server.py:177-178 | len // 5 items are chosen |
| BridgeServer.SortDistinct | core/bridge_server.py:176 | sorting keeps the keys distinct |
| BridgeServer.EvictSize | core/bridge_server.py:174-179 | the cleanup deletes len // 5 items, exactly the victims, keeping the keys distinct |
| BridgeServer.OldestEvicted | core/bridge_server.py:176-179 | every deleted item is at least as old as every kept one |
| BridgeServer.Admit | core/bridge_server.py:145-181 | accepted iff the timestamp parses, is within 300 s and its key is new; a refusal leaves the cache alone; acceptance adds the key, keeps keys distinct and keeps the cache within 10000 |
| BridgeServer.ReplayRejected | core/bridge_server.py:165-171 | a request accepted while the cache has room is refused when replayed |
| BridgeServer.ReplayCache.constructor | core/bridge_server.py:83 | the cache starts empty |
| BridgeServer.ReplayCache.Check | core/bridge_server.py:145-181 | the result and the new cache are Admit's; the cache stays valid |
| BridgeServer.ReplayCache.Cleanup | core/bridge_server.py:173-179 | the cache after the loop of `del`s over the oldest fifth is Evict of the cache before it |
| BridgeServer.Gate | core/bridge_server.py:189-217 | a LAN client with the right token passes; the request goes on to the replay check iff the token is right, the client is not LAN and both HMAC headers are given |
| BridgeServer.Auth | core/bridge_server.py:184-232 | the gate's outcome leaves the cache alone; otherwise the cache is Admit's |
| BridgeServer.AllowedIff | core/bridge_server.py:184-232 | a request passes iff it carries the configured non-empty token and either comes from the LAN or is fresh and correctly signed |
| BridgeServer.NoTokenNoEntry | core/bridge_server.py:198-204 | without a configured token nothing passes |
| BridgeServer.NoSecretLanOnly | core/bridge_server.py:207-230 | without a secret no request from outside the LAN passes |
| BridgeServer.BadSignatureCached | core/bridge_server.py:219-230 | a wrongly signed fresh request is refused with 403 but occupies a cache slot |
| BridgeServer.ReplayRefused | core/bridge_server.py:219-224 | a repeated request is refused as a replay with 409, even when correctly signed |
| BridgeServer.RequireAuth | core/bridge_server.py:184-232 | the outcome and the new cache are Auth's |
| BridgeServer.OptionalFloat | core/bridge_server.py:320 | None when missing or empty; otherwise float() of it or a ValueError |
| BridgeServer.OptionalInt | core/bridge_server.py:321-322 | None when missing or empty; otherwise int() of it or a ValueError |
| BridgeServer.Legacy | core/bridge_server.py:315-324 | succeeds iff every conversion does; version "1", text fields as read or empty, volume as a float or 0, and the optional fields |
| BridgeServer.ParseLegacySig | core/bridge_server.py:304-324 | the dict is Legacy of the fields read from the text lines |
| BridgeServer.NoEntriesDefaults | core/bridge_server.py:315-324 | a file without "=" lines gives the defaults |
| BridgeServer.EmptyVolumeRefused | core/bridge_server.py:319-320 | an empty price reads as None but an empty volume raises |
| BridgeServer.LegacyReadsWriter | core/bridge_server.py:304-324 | the server reads back what the text writer wrote, with the numbers converted back (volume and price doubles) |
| BridgeServer.LegacyOfFields | core/bridge_server.py:315-324 | the writer's fields as text convert to the expected dict (volume and price doubles) |
| BridgeServer.PriceRead | core/bridge_server.py:320 | a price that is a double, written as text, reads back as itself |
| BridgeServer.CountRead | core/bridge_server.py:321-322 | a count written as text reads back as itself |
| Datastore.Safe | src/qai/datastore.py:23-65 | the same length as the name, each character kept or replaced by "_" |
| Datastore.SafeIdempotent | src/qai/datastore.py:23-65 | sanitised names only hold kept characters, a name is its own sanitisation iff it only holds kept characters, and sanitising twice is sanitising once |
| Datastore.SafeCollides | src/qai/datastore.py:23-65 | "a/b" and "a.b" both become "a_b" |
| Datastore.SessionPath | src/qai/datastore.py:20-24 | ValueError iff the session id is empty; otherwise base_dir/<safe>.json |
| Datastore.SummaryPath | src/qai/datastore.py:63-66 | the summary file sits directly under the base directory, named by the given name followed by _summary.json |
| Datastore.PathsMeaning | src/qai/datastore.py:24-66 | summary paths sit directly in base_dir, an empty name included; two names give the same path iff they sanitise alike |
| CheckpointManager.DefaultState | src/utils/checkpoint_manager.py:60-73 | exactly the eleven keys: version 1, the project name, empty lists and None elsewhere |
| CheckpointManager.LoadState | src/utils/checkpoint_manager.py:82-97 | the default state for a missing or corrupt file, otherwise whatever JSON value the file holds |
| CheckpointManager.SaveLoadRoundTrip | src/utils/checkpoint_manager.py:82-108 | loading what save_state wrote gives the state back when its numbers are doubles |
| CheckpointManager.LoadFallsBack | src/utils/checkpoint_manager.py:84-97 | a missing and a corrupt file both load as the default state with empty task and checkpoint lists |
| CheckpointManager.FirstSpace | src/utils/checkpoint_manager.py:49 | the first whitespace position, with no whitespace before it |
| CheckpointManager.SplitOnce | src/utils/checkpoint_manager.py:49 | split(maxsplit=1) gives at most two parts |
| CheckpointManager.Kept | src/utils/checkpoint_manager.py:45 | no more kept lines than lines |
| CheckpointManager.KeptStripped | src/utils/checkpoint_manager.py:45 | kept lines are non-empty and stripped |
| CheckpointManager.Paths | src/utils/checkpoint_manager.py:46-51 | at most one path per line |
| CheckpointManager.ParsePorcelain | src/utils/checkpoint_manager.py:45-52 | the loop collects Paths of the kept lines of stdout |
| CheckpointManager.PathsTrimmed | src/utils/checkpoint_manager.py:47-51 | every path from a stripped line is non-empty and trimmed |
| CheckpointManager.PorcelainTrimmed | src/utils/checkpoint_manager.py:45-51 | every path git reports is non-empty and trimmed |
| CheckpointManager.PathOfStatusLine | src/utils/checkpoint_manager.py:48-51 | a status line `code path` gives back its path |
| CheckpointManager.StatusLines | src/utils/checkpoint_manager.py:48 | one status line per change |
| CheckpointManager.PorcelainRoundTrip | src/utils/checkpoint_manager.py:43-52 | git's porcelain output for a list of changes parses back as their paths, in order |
| CheckpointManager.KeptPaths | src/utils/checkpoint_manager.py:45-51 | stripped non-empty lines are kept, and lines naming paths give those paths |
| CheckpointManager.GitInfo | src/utils/checkpoint_manager.py:32-57 | always the two keys; no commit and no files when git fails to run; a commit iff rev-parse succeeds |
| CheckpointManager.Dedup | src/utils/checkpoint_manager.py:136 | dict.fromkeys: no repeats, the same members |
| CheckpointManager.DedupNoDup | src/utils/checkpoint_manager.py:136 | a list without repeats is unchanged |
| CheckpointManager.DedupPrefix | src/utils/checkpoint_manager.py:136 | first occurrences keep their places when more values follow |
| CheckpointManager.MergeTasks | src/utils/checkpoint_manager.py:134-137 | succeeds iff the stored tasks are a list of hashable values |
| CheckpointManager.TasksMerged | src/utils/checkpoint_manager.py:134-137 | the merged list has no repeats, holds every stored and new task, and keeps repeat-free stored tasks first in their order |
| CheckpointManager.WithTs | src/utils/checkpoint_manager.py:147-148 | a copy with ts set unless it had one, the other keys unchanged |
| CheckpointManager.Stamped | src/utils/checkpoint_manager.py:146-148 | one stamped copy per checkpoint, in order |
| CheckpointManager.Simple | src/utils/checkpoint_manager.py:129-133 | script, arguments (or {}), time and the given sprint set; other keys unchanged |
| CheckpointManager.Merged | src/utils/checkpoint_manager.py:134-137 | without tasks nothing changes; with tasks only completed_tasks changes |
| CheckpointManager.WithGit | src/utils/checkpoint_manager.py:140-142 | git's commit and files are always written; other keys unchanged |
| CheckpointManager.AddCheckpoints | src/utils/checkpoint_manager.py:145-149 | fails iff there are checkpoints and the stored value is not a list; only the checkpoints key changes |
| CheckpointManager.AddCheckpoint | src/utils/checkpoint_manager.py:155-159 | fails iff the state is not a dict or its stored checkpoints value is not a list; otherwise the keys are the old ones plus checkpoints |
| CheckpointManager.RecordScriptRun | src/utils/checkpoint_manager.py:110-152 | the state saved is Recorded(loaded state, run, git, now) |
| CheckpointManager.Recorded | src/utils/checkpoint_manager.py:110-152 | a state that is not a dict fails; a recorded state keeps every old key and holds last_script, last_args, last_run_ts, last_commit and modified_files |
| CheckpointManager.RecordedKeys | src/utils/checkpoint_manager.py:128-149 | the keys of a recorded run: the old ones, those always written, and the sprint, tasks and checkpoints when given |
| CheckpointManager.RecordedFields | src/utils/checkpoint_manager.py:128-142 | the script, arguments, time, sprint when given, and git's commit and files |
| CheckpointManager.RecordedKeeps | src/utils/checkpoint_manager.py:128-149 | every key the run does not write keeps its value |
| CheckpointManager.RecordedFailsIff | src/utils/checkpoint_manager.py:126-149 | fails iff the state is not a dict, the stored tasks do not merge, or checkpoints meet a stored value that is not a list |
| CheckpointManager.CheckpointsAppended | src/utils/checkpoint_manager.py:145-149 | the run's checkpoints follow the stored ones in order, each stamped, keeping a ts it had |
| CheckpointManager.OneCheckpointAdded | src/utils/checkpoint_manager.py:155-159 | add_checkpoint appends exactly one entry with type defaulting to "unknown" and meta to {}, changing nothing else |
| CheckpointManager.FirstCheckpoint | src/utils/checkpoint_manager.py:155-159 | a fresh project's state takes a first checkpoint |
| Pipeline.KeyOf | src/features/pipeline.py:54-60 | the dict key of a symbol: hashable values stay hashable, and None is its own key |
| Pipeline.Minus | src/features/pipeline.py:59 | `price - prev` succeeds iff both are numbers (bools count); the value is the difference, a float iff either side is one |
| Pipeline.TransformPriceDiff | src/features/pipeline.py:49-61 | the loop with its map of last prices yields PriceDiffs of its input |
| Pipeline.ScanStops | src/features/pipeline.py:51-61 | once the transform raises, later records are not read |
| Pipeline.ScanLast | src/features/pipeline.py:50-60 | the map of last prices holds, for every symbol, that symbol's latest price |
| Pipeline.ScanMeaning | src/features/pipeline.py:49-61 | one record out per record in, each a copy with price_diff set to its price minus the symbol's previous price (None for the first), until the first unhashable symbol or failed subtraction, whose error is raised |
| Pipeline.Scan | src/features/pipeline.py:50-61 | at most one record out per record in, and exactly one per record when nothing raises |
| Pipeline.PriceDiffs | src/features/pipeline.py:49-61 | the transform never yields more records than it reads, and yields one per record when nothing raises |
| Pipeline.StepDiff | src/features/pipeline.py:52-60 | one loop step computes the difference the specification describes for that record |
| Pipeline.NoEarlierRecord | src/features/pipeline.py:54-57 | a symbol not seen before has no previous price |
| Pipeline.LatestRecordCounts | src/features/pipeline.py:54-60 | the previous price is that of the symbol's latest record, whatever other symbols came after it |
| Pipeline.FirstOfSymbol | src/features/pipeline.py:56-57 | the first record of each symbol gets price_diff None |
| Pipeline.LaterOfSymbol | src/features/pipeline.py:58-59 | a later record gets its price minus its symbol's previous price |
| Pipeline.PriceDiffsKeep | src/features/pipeline.py:55-61 | each yielded record keeps all its other fields and gains price_diff; without errors every record is yielded and the input's own error passes through |
| Pipeline.FeaturePipeline.constructor | src/features/pipeline.py:33-34 | the pipeline holds the given steps |
| Pipeline.FeaturePipeline.Run | src/features/pipeline.py:36-40 | the records fed through every step in order; no steps gives the input itself |
| Pipeline.RunComposes | src/features/pipeline.py:36-40 | running steps `a + b` is running `a`, then `b` on its output |
| Pipeline.RunAll | src/features/pipeline.py:36-40 | no steps give back the input stream; the only failure is the base FeatureStep raising NotImplementedError |
| Pipeline.RunRaises | src/features/pipeline.py:21-40 | a pipeline raises NotImplementedError exactly when one of its steps is the base Feature |
| Ingest.Schema | src/data/ingest.py:30-32 | exactly the fields timestamp, symbol and price, typed datetime, str and float |
| Ingest.Admit | src/data/ingest.py:53-57 | a record is yielded iff it is not before a given start and not after a given end; comparing a non-datetime timestamp with a given bound raises TypeError |
| Ingest.Fetch | src/data/ingest.py:34-58 | the base loader raises NotImplementedError on call; the in-memory loader never raises before iteration |
| Ingest.Filter | src/data/ingest.py:51-58 | the fetch only raises when a start or end bound is given, since timestamps are compared only against a given bound |
| Ingest.FilterSound | src/data/ingest.py:51-58 | every yielded record lies inside the window, and the yielded records are the loader's own in its order |
| Ingest.FilterComplete | src/data/ingest.py:51-58 | a fetch that runs to its end yields exactly the records inside the window, in the loader's order (the filter of the records by the window) |
| Ingest.FilterRaises | src/data/ingest.py:53-56 | iteration raises TypeError iff a bound is given and some timestamp is not a datetime |
| Ingest.UnboundedFetchAll | src/data/ingest.py:51-58 | without bounds every record is yielded, in order |

## Left out

- File and OS I/O is left out: audit-file appends, state-file writes, temp-file-and-rename writes, `mkdir`, archiving signal files, and renaming a corrupt state file to `.broken`. Files are `Files.TextFile`/`Files.Folder` values holding text, and a write that cannot fail is an assignment.
- The git and resume subprocesses, `input()` and the environment are left out. Their results are parameters.
- Logging, env loading and the FastAPI endpoints are left out: health, next, feedback, the exception handler and startup (core/bridge_server.py:33-94, 331-442). So is `_get_next_signal`'s reading of the queue directory.
- The CLI `main`s are left out, including recover_state.py's unpacking of three values from the four-tuple `verify_audit_log` returns (lines 242 and 274). That code is outside the modelled functions.
- `Datastore.save_run`, `load_run`, `list_runs` and `save_summary` are left out: they are file I/O around the modelled naming. The summary file `run_sessions` saves (src/qai/simulator.py:112) is not written in the model.
- Datastore.Join: `Store.baseDir` is taken as already-normalised text. Python builds `Path(base_dir)` (src/qai/datastore.py:17), whose `str()` drops `.` components and repeated and trailing slashes; `Datastore.SessionPath`, `Datastore.SummaryPath` and `Datastore.PathsMeaning` give Python's path only for such a directory text.
- Strategies.Predicted: the `audit_prediction` entry that PredictorThresholdStrategy appends when it has an audit_log (src/qai/strategies.py:69-76) is left out, with model_predictor.py. Model strategies write no audit entries, so Simulator.KeyedRunVerifies covers only such strategies: a predictor strategy logging to the simulator's log with no key, or another key, appends entries that do not verify under the forwarded key.
- model_predictor.py (the predictor is a function parameter), mt5_client.py, pytorch_trainer.py, the visualizers, dashboards, integrations and evaluation or experiment pipelines are left out.
- The thread pool in `run_validation_batch` is a sequential run in an arbitrary completion order, given as a permutation. Interleaving is not modelled.
- Floating point is left out: rounding, NaN, infinities and signed zeros. Floats are exact reals, and numpy branches are replaced by the pure-Python branch.
- `str(float)`, `repr` and JSON number formatting are oracle functions.
- Datetimes are instants on an integer time line. Mixing naive and aware datetimes (a TypeError in Python) is not modelled.
- Whether a timestamp parses with `fromisoformat` or the `strptime` fallback is a predicate the caller supplies. The parsers themselves are not modelled.
- Successive clock reads within one call are one `now` value.
- The order of keys in dicts that are written out is not modelled. Maps are unordered, except for dataset rows, which keep their order.
- A state file that cannot be read (permissions, encoding) is treated like a missing or corrupt one, whichever the source's `except` makes it.
- HTTP header names are compared as given, not case-insensitively. The request body is text, not bytes.
- Datastore.Safe: `str.isalnum` is modelled for ASCII letters and digits only. Other Unicode letters and digits are replaced by `_` in the model but kept by Python.
- SecurityValidator.Lower: ASCII lower-casing stands in for `str.lower`, which lower-cases every Unicode letter.
- RLContinuous.RLContinuousAgent.LoadState: a state file is applied completely or not at all. Python assigns the file's epsilon and weights to the RLState unconverted, so a non-numeric epsilon is kept as it is. When `list()` then refuses the weights (a number, say), the RLState keeps both new values and the optimizer neither. The model keeps epsilon and the weights as reals and treats such a file as corrupt.
- RLContinuous.StateFields: converts epsilon with float semantics and the weights element by element, and refuses the whole file when either fails. Python stores whatever the file holds and converts nothing but `list(weights)`.
- RLAdaptive.ListOf: `list()` of a non-empty dict gives its keys in insertion order. A decoded dict here has no order, so the model refuses it. Python would load such a state (`RLAdaptive.SampleOf`, `RLContinuous.ExperienceOf`, `RLContinuous.StateFields`) with the keys as the state.
- RLAdaptive.SampleOf: a sample whose "state" is a non-empty dict fails to load in the model (see `RLAdaptive.ListOf`).
- DeployValidator.Judge: the "artifact not found at" message quotes the path text as given. Python prints `str(Path(path))`, which collapses repeated slashes, drops `.` components and drops a trailing slash.
- Text.ParseInt: `int()` on text accepts only ASCII decimal digits in the model, with its sign, surrounding whitespace and single underscores between digits. Python also accepts other Unicode decimal digits (Arabic-Indic, fullwidth). This carries over to `Json.ToInt`, `SignalSchema.MaybeInt` and `BridgeServer.OptionalInt`. Python's limit of 4300 digits on int/str conversion is not modelled either.
- HMAC and SHA-256 are not modelled as functions. Tamper detection (`HmacUtils.TamperedEntryMismatches`) requires the signer to be collision-free under the key on entries whose numbers are doubles (`HmacUtils.CollisionFree`). That is an assumption about HMAC-SHA-256, not something proved.
- JSON round trips are promised only for values whose numbers are finite doubles (`Json.Representable`, `Json.IsDouble`), the values Python can hold. The lemmas that read back what was written require exactly that of the stored values.
- RLContinuous.ExperienceOf: converts every element of a stored "state" to a float and refuses the whole replay file when one does not convert. Python keeps `list(item["state"])` as it is, so `[{"state": [null], "reward": 1}]` loads there with a state of `[None]`, where the model leaves the replay buffer empty.
- RLContinuous.Experiences: inherits `RLContinuous.ExperienceOf`'s conversion of the state elements; a replay file that Python loads with non-numeric state elements is empty in the model.
- BridgeSimulator.ProcessOnce: the clock and the uuid are one `SignalSchema.Context` for the whole pass. Python draws a fresh `uuid.uuid4()` for every file whose signal has no id (src/bridge/signal_schema.py:129), so in the model id-less signals of one pass share an id, where in Python they differ.
- BridgeSimulator.RecordOf: the id of a signal without one is the pass's `ctx.uuid`, not a fresh uuid per file (see `BridgeSimulator.ProcessOnce`).
- CheckpointManager.Dedup: two values are one key when they are equal as `Json` values. `dict.fromkeys` uses Python equality and hashing, under which `1`, `1.0` and `true` are one key (the first kept) and so are `-0.0` and `0`; a stored list holding such values keeps more of them in the model than in Python.
- CheckpointManager.MergeTasks: inherits `CheckpointManager.Dedup`'s structural equality; merged lists agree with Python's whenever no two stored values are Python-equal without being the same JSON value.
- DistributedValidator.DistributedValidator.RunValidationBatch: exceptions raised while the tasks are submitted are not modelled. After the "init" entry is written, a task without a "callable" raises KeyError, non-iterable "args" or non-mapping "kwargs" raise TypeError and a negative `max_workers` raises ValueError (src/qai/distributed_validator.py:93-100), and the batch ends there. The model takes every task as submitted and its outcome as the callable's result or exception.
- RecoverState.ResumeScript: the script path is kept as text: a relative `last_script` becomes `root + "/" + path` and an absolute one stays as given. Python builds `Path(last)` or `project_root / last`, whose `str()` drops `.` components and repeated and trailing slashes, so for such paths the path in `ScriptNotFound` (the "Recorded last_script not found:" text) and in the command can differ from Python's; whether the script exists is the shell oracle's answer for the model's path text.
- RecoverState.ResumeMeaning: states its outcomes for the same unnormalised path text as `RecoverState.ResumeScript`.
- Scoring.AccuracyScore, Scoring.StabilityIndex, Scoring.RewardFactor and Scoring.Evaluate model the pure-Python branch, taken when numpy cannot be imported. With numpy installed the source differs: `not preds` on an array of two or more elements raises ValueError (src/qai/scoring.py:23, 36, 51); on a one-element array it reads that element, so a lone prediction of 0.0 scores 0.0; `np.sign(0)` is 0, so a zero prediction or outcome no longer counts as non-negative in accuracy_score (lines 25-28) and contributes nothing in reward_factor (line 54); and `np.std` of the empty difference of one prediction is nan.

## Findings

| source | as written | input that shows it | evidently intended | confidence | as-written member | corrected member |
|---|---|---|---|---|---|---|
| src/qai/simulator.py:77-85 | `run_sessions` calls `Backtester.run` with `datastore`, `metadata` and `hmac_key` keyword arguments, which `run` (src/qai/backtester.py:58-64) does not declare, so every session with a strategy raises TypeError | one session over no bars with a strategy that always answers 0 | run every session, signing the backtester's entries with the forwarded hmac_key, and aggregate the results | high (not executed) | Simulator.OutcomeAsWritten, Simulator.KeywordsRaise | Simulator.Outcome, Simulator.RunSessions, Simulator.KeyedRunVerifies |
| src/qai/hmac_utils.py:53 | `verify_audit_file` splits the file with `str.splitlines()`, which also breaks at U+2028, U+2029, U+0085 and other separators that `json.dumps(..., ensure_ascii=False)` writes unescaped, so one signed entry is read as two malformed records | the one-line log `{"note": "a<U+2028>b"}` | one record per line the writer appended, split at "\n" | high (not executed) | HmacUtils.LineSeparatorSplitsEntry | HmacUtils.VerifyAuditFileByLine, HmacUtils.WrittenLogVerifies |
| src/qai/rl_adaptive_optimizer.py:192-204 | `_load_state` assigns the fields one after another inside the `try`. A snapshot that fails part way leaves the learning rate from the file and the samples appended so far, without the final truncation to capacity | learning_rate 0.3 and memory [sample, sample, {"reward": null}] with capacity 1 | apply a state file completely or not at all | medium (not executed) | RLAdaptive.RestoredAsWritten, RLAdaptive.PartialLoadOverfills | RLAdaptive.Restored, RLAdaptive.RLAdaptiveOptimizer.LoadState |
