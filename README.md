# Tracking monitor heartbeat cycle, in Dafny

This project models the core of the tracking monitor, a Go service that checks whether each
tracking-query crawler is still alive. Every few minutes one check cycle (`doCheck`) runs:

1. It builds one heartbeat probe per active crawler.
2. It pushes the batch to a job queue and pulls the results back from a cache.
3. It gives each result a status and a timing.
4. It pairs each result with the crawler that has the same carrier code and writes one row to
   the crawler health log for each pair.

The model also covers start-up: the early returns of `main`, and `loadConfig`, which picks the
configuration file and checks the database DSN.

Files:

- `wrappers.dfy` (module `Wrappers`): `Option` for Go's nil, and `Result` for Go's `(value, error)` pairs.
- `gostrings.dfy` (module `GoStrings`): Go's `strings.TrimSpace`, `strings.Contains` and
  `unicode.IsSpace`, as far as the monitor uses them.
- `check-agent.dfy` (module `CheckAgent`): the cycle.
  - `BuildProbes` is the first loop.
  - `FindCrawlerInfo` is the `findCrawlerInfo_` closure.
  - `HealthLogStore` is the health-log table, as a class whose `rows` field grows by one row on each `SaveHealthLog`.
  - `DoCheck` is the whole cycle. Its second loop writes to the store.
  - The specification functions `FirstCrawlerFrom`, `HealthLogFor`, `HealthLogs` and `MatchedPositions` describe what a
    cycle writes. The lemmas about them say what the rows mean.
- `main.dfy` (module `Config`): `LoadConfig` and `LoadConfigFromFile` work on a `Configuration`
  object that holds the DSN. `ResolveConfigPath` says which path is loaded. `MainSteps` is the
  order of `main`'s steps and early returns.

Collaborators whose code is not part of this model are inputs. `CheckAgent.Collaborators`
holds four functions:

- `newSeqNo(k)`: the answer of the k-th `NewSeqNo` call.
- `isSuccess`: the agent's `IsSuccess`.
- `isZeroTime`: `IsZeroTime`.
- `now(i)`: the `time.Now()` reading taken while the i-th pulled result is processed.

`DoCheck` also takes:

- the crawler snapshot that `QueryAllCrawlerInfos` returned;
- the clock reading `reqTime`;
- the push answer (the keys, or `None` for an error);
- the pull answer (the results, or `None` for an error).

`Config.FileSystem` stands in for the file system and the decoder. It holds `filepath.Abs`,
`os.Stat(..).IsDir()`, and "open and decode the file". All times are integer milliseconds.

Facts about the code that the model keeps:

- The status written is 1 when the agent reports success, and 0 otherwise.
- A row holds no result note and no raw response body.
- A failed pull is a panic (`Panicked(PullFailed)`). A failed push is a silent stop (`PushRejected`).
- Results are matched to crawlers by carrier code, and the first crawler with the code wins.
  A later crawler that has the same carrier code as an earlier one never gets a row
  (`ShadowedCrawlerGetsNoRow`).

## Model

| member | source | states |
|---|---|---|
| `CheckAgent.BuildProbes` | check-agent.go:31-48 | Builds one probe per crawler in crawler order. Each probe has that crawler's carrier code, its heartbeat number as tracking number, language EN, the one shared request time, and the sequence number from its own `NewSeqNo` call. There is no batch exactly when some `NewSeqNo` call fails (the panic). |
| `CheckAgent.ProbeSeqNosDistinct` | check-agent.go:36-46 | Sequence numbers in a batch are pairwise distinct whenever the generator never repeats an answer. |
| `CheckAgent.FirstCrawlerFrom` | check-agent.go:21-29 | Gives the position of the first crawler at or after `from` whose carrier code equals the code, or None exactly when no crawler from there on has it. |
| `CheckAgent.FindCrawlerInfo` | check-agent.go:21-29 | The early-return linear search returns the first crawler of the snapshot with the carrier code, or nil (None) exactly when none has it. |
| `CheckAgent.ResultStatus` | check-agent.go:59-62 | The status is 0 or 1, and it is 1 exactly when `IsSuccess` holds of the agent code. |
| `CheckAgent.EndTime` | check-agent.go:64-70 | The end time is the agent's end time when that is not the zero time, and the clock reading otherwise. |
| `CheckAgent.Timing` | check-agent.go:72 | The timing is `endTime - reqTime` in milliseconds whenever that fits a `time.Duration`. Beyond that it saturates at the duration limits. It is never negative when the end is not before the request. |
| `CheckAgent.HealthLogFor` | check-agent.go:58-82 | Builds the row for one matched result (the arguments of `SaveHealthLog`); what each field holds is stated by `HealthLogForFields`. |
| `CheckAgent.HealthLogForFields` | check-agent.go:59-82 | A row holds the crawler's id and the result's own tracking number. Its status is 1 exactly on agent success. Its time stamp is the end time. Its timing runs from the result's request time to that same time stamp. |
| `CheckAgent.MatchedPositions` | check-agent.go:74-85 | Lists the positions of the pulled results that some crawler owns: in increasing order, each once, and all of them. |
| `CheckAgent.HealthLogs` | check-agent.go:58-86 | The rows `SaveHealthLog` receives over the first n pulled results. `DoCheck`'s contract is stated in these terms; `HealthLogsPerMatch` says what the rows are. |
| `CheckAgent.HealthLogsPerMatch` | check-agent.go:74-85 | The rows written are exactly one per matched result, in pulled order. Each row is for the first crawler with that carrier code. Unmatched results give no row. |
| `CheckAgent.HealthLogsAtMostPulled` | check-agent.go:74-85 | A cycle writes at most as many rows as it pulled results. |
| `CheckAgent.UnmatchedResultsWriteNothing` | check-agent.go:83-85 | Results whose carrier codes no crawler has give no rows. |
| `CheckAgent.ShadowedCrawlerGetsNoRow` | check-agent.go:21-29 | If crawler ids are distinct, a crawler whose carrier code an earlier crawler already has never appears in any row. |
| `CheckAgent.TwoCrawlerCycle` | check-agent.go:58-85 | Two crawlers, one result each (a success for A, a failure for B), give two rows in that order: A with status 1, B with status 0. |
| `CheckAgent.HealthLogStore.SaveHealthLog` | db/agent-health-log.go:12-22 | One call appends exactly one row with the given crawler id, tracking number, timing, status and time stamp. |
| `CheckAgent.DoCheck` | check-agent.go:15-89 | A failed sequence number panics before any push. Otherwise the probe batch is pushed once, at the highest priority. A rejected push stops the cycle with no pull and no rows. After an accepted push, the returned keys are pulled at the highest priority, and a failed pull panics with no rows. A finished cycle appends exactly the rows `HealthLogs` gives for the pulled results, using the snapshot read at cycle start. |
| `GoStrings.IsSpace` | main.go:88 | The white-space set of `unicode.IsSpace`: tab, newline, vertical tab, form feed, carriage return, space, U+0085, U+00A0, and the other White_Space characters U+1680, U+2000-U+200A, U+2028, U+2029, U+202F, U+205F and U+3000. |
| `GoStrings.TrimSpace` | main.go:157 | The trimmed string neither starts nor ends with white space. It is the piece of the input between a leading and a trailing run of white space. |
| `GoStrings.TrimSpaceEmptyIffAllSpace` | main.go:88 | A string trims to the empty string exactly when it is all white space. |
| `GoStrings.TrimSpaceIdempotent` | main.go:157 | Trimming the stored DSN again changes nothing. |
| `GoStrings.Contains` | main.go:158 | `sub` occurs in `s` as a contiguous piece; `ContainsChar` states the one-character case used for '@' and ':'. |
| `GoStrings.ContainsChar` | main.go:158 | `strings.Contains` with a one-character needle is character membership. |
| `Config.JoinDefaultConfigFile` | main.go:148 | The joined path starts with the directory and ends with "/tracking-monitor.json", with nothing in between: the file sits directly inside the directory, sharing its separator when the directory already ends in '/'. |
| `Config.ResolveConfigPath` | main.go:132-149 | An empty path stands for "./tracking-monitor.json". The absolute path is used as it is unless it is a directory, in which case the default file inside it is used. An error of `Abs` or of `Stat` is the result, unchanged. |
| `Config.BlankArgumentUsesDefault` | main.go:133-135 | An argument of white space only, once trimmed (main.go:88), resolves exactly as the default file does. |
| `Config.DsnAcceptable` | main.go:158 | The acceptance test on the trimmed DSN: not empty, contains '@', contains ':'; `DsnAcceptableIff` states its meaning. |
| `Config.DsnAcceptableIff` | main.go:158-160 | The DSN passes exactly when it contains both '@' and ':'. The emptiness test is implied by those two. |
| `Config.LoadConfigFromFile` | main.go:165-183 | An open or decode error is returned and the DSN is unchanged. Otherwise the DSN becomes the one the file sets, or stays as it was when the file sets none. |
| `Config.LoadConfig` | main.go:132-163 | An error of `Abs`, `Stat` or loading is returned unchanged: the file is not loaded (for `Abs` and `Stat`), the DSN is untouched, and the DSN check is not reached. Otherwise the resolved path is the one loaded and the stored DSN is the trimmed DSN. The result is nil exactly when that DSN is acceptable, and the DSN format error otherwise. |
| `Config.MainSteps` | main.go:70-130 | `-version` and `-h` return before any configuration is loaded. Logs are discarded without `-debug`, and this happens before loading. A failed load panics as the last step. Under `-verify`, or after a failed load, there is no pid file, no Redis set-up and no `runForever`. `-verify` prints the configuration as its last step, after a successful load and with no database set-up. Otherwise the database is set up only after a successful load. The configuration print and the database set-up both come after the load. |

## Left out

- `QueryAllCrawlerInfos` and its SQL (db/crawler.go): the crawler snapshot is an input. The database, not this code, decides which crawlers are active.
- `SaveHealthLog`'s insert failure, which panics, is not modelled. The row id it returns is not modelled either, since `doCheck` ignores it.
- `NewSeqNo`, `IsSuccess`, `IsZeroTime`, the queue push and the cache pull are external packages. They are inputs, and the push and pull answers do not depend on the batch or keys passed to them.
- CheckAgent.DoCheck: the queue's and cache's own behaviour (which keys it returns, which results come back) is not modelled.
- Sequence-number uniqueness is the generator's promise. `ProbeSeqNosDistinct` states only that `doCheck` keeps it.
- GoStrings.TrimSpace: Go strings are UTF-8 byte sequences, while the model's strings are sequences of Unicode scalar values. Invalid UTF-8 bytes, which Go's `TrimSpace` never trims, cannot be represented.
- Log and print output: the OK/ERROR lines and the `!!!!` line for unmatched carrier codes.
- `time.Time` has nanosecond precision and a monotonic reading. Here times are whole milliseconds, so `Timing` is the millisecond difference clamped to the `time.Duration` range.
- CheckAgent.Timing: the truncation of sub-millisecond parts is not modelled, because times are whole milliseconds.
- Config.LoadConfig: `filepath.Join` is modelled only for the clean directory paths `filepath.Abs` returns (Unix separators). Cleaning of other paths is not modelled.
- Config.LoadConfigFromFile: the JSON decoder is reduced to "error, or the DSN the file sets". Decoding of the Redis settings is not modelled. A decode error that leaves the configuration partly filled is not modelled either; the model leaves the DSN unchanged, and `main` panics in that case anyway. A file holding just the JSON literal `null` is not modelled: decoding it sets the configuration pointer to nil without an error, and the DSN access at main.go:157 then panics inside `loadConfig` instead of returning an error.
- The scheduler: the timer, the goroutine per cycle and its panic recovery (main.go:201-217), and the signal loop (main.go:185-199). These are concurrency and OS interaction.
- Config.MainSteps: the pid file, database and Redis set-up and `runForever` appear only as steps. Their own failures and effects are not modelled.
- CheckAgent.Timing: the `int(timing)` conversion at check-agent.go:82 is taken as the identity, which holds where Go's `int` is 64 bits. A 32-bit `int` would truncate, and that is not modelled.
- A rolling 48-hour health aggregation and per-status result notes are not part of the code this model covers.
