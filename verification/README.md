# ModulesLogger, modelled in Dafny

A model of `ModulesLogger`, the logger of Hardhat Network's JSON-RPC modules
(`packages/hardhat-core/src/internal/hardhat-network/provider/modules/logger.ts`).
The logger is a small synchronous state machine. It turns blockchain-simulation
events into indented, column-aligned text lines. It has two output paths:

- a buffer of entries (`_logs`), read back by `getLogs` and flushed by `printLogs`;
- direct printing through two injected sinks, `_printLine` and `_replaceLastLine`.

The model is purely functional:

- `LoggerState.State` holds the private fields: `_enabled`, `_logs`, `_titleLength`,
  `_currentIndent`, `_emptyMinedBlocksRangeStart`, `_methodBeingCollapsed` and
  `_methodCollapsedCount`.
- Every method is a function from a state to a new state. Methods that print also
  return the list of sink calls they made, as `Print(line, colour)` and
  `Replace(line, colour)` events.
- `LoggerState.Valid` is the invariant of every reachable state:
  - the indent is an even number ≥ 0;
  - a method is being collapsed exactly when the counter is positive;
  - at most one of the two collapsing runs is open;
  - every buffered title fits the title column.

  The operations are proved to preserve it.
- `Buffer.Appended(s, es)` is the reference definition for the composite
  operations. It says what logging a list of already formatted entries does:
  - the buffer grows by exactly `es`;
  - the title column widens to the widest new title;
  - both collapsing runs close once a plain line is logged.

  `logContractAndFunctionName`, `logConsoleLogMessages`, `_logTxTrace` and the
  per-block loop are each proved equal to `Appended` of an explicit list of
  entries (`ContractEntries`, `ConsoleEntries`, `TxEntries`, `BlockEntries`).
  From that equality follow their exact output, their order and indentation,
  and the preservation of `Valid`.

Modules and files:

| file | module | what |
|---|---|---|
| options.dfy | Options | `Option` |
| text.dfy | Text | spaces, `padEnd`, split/join on a separator, decimal rendering of numbers, with round-trip lemmas |
| format.dfy | Formatting | `_format`, `_indentSingleLine`, and the inverse of `_format` |
| state.dfy | LoggerState | fields, sink events, `Valid`, the constructor, the stop options of `_log`/`_print` |
| buffer.dfy | Buffer | `_log`, `log`, `logEmptyLine`, `logWithTitle`, `clearLogs`, `hasLogs`, `getLogs`, `Appended` |
| scope.dfy | Scope | `_indent` as a scoped raise and lower of the indent, on a return and on a throw |
| printing.dfy | Printing | `_print`, `printEmptyLine`, `printLogs`, `printMethod`, `printMinedBlockNumber`, `logMinedBlockNumber` |
| trace.dfy | Trace | `logContractAndFunctionName`, `logTxTo`/`From`/`Value`, `logError`, `logConsoleLogMessages`, `logEmptyLineBetweenTransactions`, `_logTxTrace`, the per-block transaction loop |

Behaviour of `logger.ts` worth noting, all of it modelled as written:

- `printMethod` starts a new run with
  `_print(method, { color: chalk.green, stopCollapsingMethod: false })` (line 577). The mined-block option keeps its default, so the fresh line closes any
  open mined-block range (`Printing.PrintMethod`).
- Buffered console.log output is headed by the line `console.log:` (line 471).
- With logging disabled, `logConsoleLogMessages` hands each message straight to
  `_printLine` (lines 459-462). The messages are written unindented and neither
  collapsing run is closed (`Trace.LogConsoleLogMessages`).
- `printMinedBlockNumber` opens a range at the first block even when that block is not
  empty. While a range is open, `isEmpty` is not consulted, so a non-empty block also
  extends the "Mined empty block range" line (lines 438-446, `Printing.RangeContinues`).

## Model

| member | source | states |
|---|---|---|
| LoggerState.Init | packages/hardhat-core/src/internal/hardhat-network/provider/modules/logger.ts:53-64 | a fresh logger has an empty buffer, a zero title column and indent, no open run, and is a valid state |
| LoggerState.ApplyStops | packages/hardhat-core/src/internal/hardhat-network/provider/modules/logger.ts:636-646 | each run is closed exactly when its stop option is not `false`; no other field changes; validity is kept |
| LoggerState.StopCollapsingMethod | packages/hardhat-core/src/internal/hardhat-network/provider/modules/logger.ts:730-733 | afterwards no method is being collapsed and the count is 0; a valid state stays valid |
| LoggerState.StartCollapsingMethod | packages/hardhat-core/src/internal/hardhat-network/provider/modules/logger.ts:725-728 | a run of the given method with count 1; valid as soon as no mined-block range is open, which the `_print` after it in `printMethod` brings about |
| Buffer.LogLine | packages/hardhat-core/src/internal/hardhat-network/provider/modules/logger.ts:636-646 | `_log` appends exactly one plain entry, the message formatted at the current indent, after the stop side effects, and nothing else changes |
| Buffer.Log | packages/hardhat-core/src/internal/hardhat-network/provider/modules/logger.ts:74-76 | `log` is appending the one formatted plain entry and keeps validity |
| Buffer.LogEmptyLine | packages/hardhat-core/src/internal/hardhat-network/provider/modules/logger.ts:478-480 | `logEmptyLine` appends one unindented empty entry |
| Buffer.LogWithTitle | packages/hardhat-core/src/internal/hardhat-network/provider/modules/logger.ts:489-499 | the column becomes `max(old, indent + |title|)`; exactly one entry with the indented title and raw message is appended; neither collapsing run is touched |
| Buffer.ClearLogs | packages/hardhat-core/src/internal/hardhat-network/provider/modules/logger.ts:505-507 | the buffer is empty and nothing reads back, but the title column (and every other field) is unchanged |
| Buffer.HasLogs | packages/hardhat-core/src/internal/hardhat-network/provider/modules/logger.ts:509-511 | true exactly when `getLogs` returns at least one line |
| Buffer.RenderTitled | packages/hardhat-core/src/internal/hardhat-network/provider/modules/logger.ts:519-521 | the rendered line is the title, a colon, spaces, and the value starting at column `max(|title|, width) + 2` |
| Buffer.GetLogs | packages/hardhat-core/src/internal/hardhat-network/provider/modules/logger.ts:513-523 | one line per entry in order; plain entries unchanged; in a valid state every titled line starts with its title and has its value at column `titleLength + 2` |
| Buffer.AppendedValid | packages/hardhat-core/src/internal/hardhat-network/provider/modules/logger.ts:493-498 | because the column only ever widens to the largest title, appending any entries keeps every title within the column |
| Buffer.AppendedConcat | packages/hardhat-core/src/internal/hardhat-network/provider/modules/logger.ts:636-646 | logging one list of entries and then another is logging their concatenation |
| Formatting.Format | packages/hardhat-core/src/internal/hardhat-network/provider/modules/logger.ts:599-617 | the empty message is never indented, and at indent 0 the message is unchanged |
| Formatting.FormatLines | packages/hardhat-core/src/internal/hardhat-network/provider/modules/logger.ts:605-610 | the lines of the result are the lines of the message, each prefixed with `indent` spaces |
| Formatting.FormatRoundTrip | packages/hardhat-core/src/internal/hardhat-network/provider/modules/logger.ts:599-617 | removing the indent from every line gives back the original message, so formatting loses nothing |
| Formatting.IndentSingleLine | packages/hardhat-core/src/internal/hardhat-network/provider/modules/logger.ts:632-634 | the title is preceded by exactly `indent` spaces |
| Formatting.FormatSingleLine | packages/hardhat-core/src/internal/hardhat-network/provider/modules/logger.ts:599-617 | on a non-empty one-line message, formatting equals `_indentSingleLine` |
| Scope.Entered | packages/hardhat-core/src/internal/hardhat-network/provider/modules/logger.ts:620-622 | inside the callback the indent is exactly 2 higher when enabled and unchanged otherwise |
| Scope.Leave | packages/hardhat-core/src/internal/hardhat-network/provider/modules/logger.ts:625-629 | the `finally` restores the caller's indent whenever the callback left the indent where it found it, and undoes nothing else |
| Scope.Indent | packages/hardhat-core/src/internal/hardhat-network/provider/modules/logger.ts:619-630 | the callback's exit and sink calls pass through; a balanced callback ends at the caller's indent on a return and on a throw; validity is kept |
| Scope.NestedIndentBalanced | packages/hardhat-core/src/internal/hardhat-network/provider/modules/logger.ts:619-630 | `_indent` around a balanced callback is balanced, so nested scopes restore the indent |
| Printing.PrintLine | packages/hardhat-core/src/internal/hardhat-network/provider/modules/logger.ts:705-715 | `_print` makes exactly one `Print` of the formatted message and changes only the stop fields |
| Printing.PrintEmptyLine | packages/hardhat-core/src/internal/hardhat-network/provider/modules/logger.ts:585-587 | one unindented empty `Print`; the state is exactly the one `_print` leaves (both runs closed, nothing else changed), and validity is kept |
| Printing.PrintLogs | packages/hardhat-core/src/internal/hardhat-network/provider/modules/logger.ts:544-557 | returns true exactly when there were logs; then prints each rendered line in order, formatted, and clears the buffer; otherwise does nothing |
| Printing.ShouldCollapseMethod | packages/hardhat-core/src/internal/hardhat-network/provider/modules/logger.ts:717-723 | in a valid state the counter test adds nothing: a call collapses exactly when it names the method being collapsed and the buffer is empty |
| Printing.PrintMethod | packages/hardhat-core/src/internal/hardhat-network/provider/modules/logger.ts:568-579 | if the same method is being collapsed, nothing is buffered and the count is positive, the count goes up and there is one unindented `Replace("m (count)")`; otherwise the count is 1, there is one indented `Print`, and the range is closed |
| Printing.PrintMethodsCollapseIffRepeated | packages/hardhat-core/src/internal/hardhat-network/provider/modules/logger.ts:717-723 | with an empty buffer, each later call of a run rewrites the line if and only if it repeats the previous name |
| Printing.CollapsingContinues | packages/hardhat-core/src/internal/hardhat-network/provider/modules/logger.ts:568-574 | while a method is collapsed, n further calls replace the line with counts c+1 … c+n |
| Printing.RepeatedMethodCollapses | packages/hardhat-core/src/internal/hardhat-network/provider/modules/logger.ts:568-579 | N calls in a row give one `Print` and N−1 `Replace`s, the last being `"m (N)"` |
| Printing.CountedMethodInjective | packages/hardhat-core/src/internal/hardhat-network/provider/modules/logger.ts:571-574 | the rewritten `"<method> (<count>)"` line determines the count: two counts give the same line only if they are equal |
| Printing.CollapsedLinesDistinct | packages/hardhat-core/src/internal/hardhat-network/provider/modules/logger.ts:568-574 | while a method is collapsed, the successive replacement lines are pairwise different, so each rewrite shows a new count |
| Printing.PrintMinedBlockNumber | packages/hardhat-core/src/internal/hardhat-network/provider/modules/logger.ts:437-448 | with a range open, only the range line is rewritten, whatever `isEmpty` is, and the state is unchanged; otherwise the range opens at this block with one indented `Print` that closes the method run but not the range |
| Printing.RangeContinues | packages/hardhat-core/src/internal/hardhat-network/provider/modules/logger.ts:438-441 | once a range is open, every further block only rewrites the range line, ending at that block |
| Printing.MinedRunCollapses | packages/hardhat-core/src/internal/hardhat-network/provider/modules/logger.ts:437-448 | a run of blocks gives one `Print` for the first and one `Replace` per further block, with the range from the first block |
| Printing.EmptyBlocksFiveToSeven | packages/hardhat-core/src/internal/hardhat-network/provider/modules/logger.ts:437-448 | mining empty blocks 5, 6, 7 gives exactly `Print("Mined empty block #5")` and two `Replace`s, ending with `"Mined empty block range #5 to #7"` |
| Printing.LogMinedBlockNumber | packages/hardhat-core/src/internal/hardhat-network/provider/modules/logger.ts:393-395 | the buffered counterpart is `Appended` of one formatted line: it closes both runs, keeps indent, column and flag, and keeps validity |
| Trace.Selector | packages/hardhat-core/src/internal/hardhat-network/provider/modules/logger.ts:278-280 | the selector is the first `min(4, |calldata|)` bytes of the calldata |
| Trace.ContractEntries | packages/hardhat-core/src/internal/hardhat-network/provider/modules/logger.ts:229-295 | at most two entries; none without a trace; two only for a creation; the only possible plain entry is the non-contract warning |
| Trace.LogContractAndFunctionName | packages/hardhat-core/src/internal/hardhat-network/provider/modules/logger.ts:229-295 | the state is `Appended` of the trace variant's entries, and validity is kept |
| Trace.LogTxTo | packages/hardhat-core/src/internal/hardhat-network/provider/modules/logger.ts:415-421 | nothing for a creation trace, otherwise exactly one `To` title |
| Trace.LogTxFrom | packages/hardhat-core/src/internal/hardhat-network/provider/modules/logger.ts:427-429 | exactly one `From` title |
| Trace.LogTxValue | packages/hardhat-core/src/internal/hardhat-network/provider/modules/logger.ts:423-425 | exactly one `Value` title |
| Trace.LogError | packages/hardhat-core/src/internal/hardhat-network/provider/modules/logger.ts:482-487 | a blank line and the error dump for a Solidity error; nothing at all for any other error |
| Trace.MessageEntriesRoundTrip | packages/hardhat-core/src/internal/hardhat-network/provider/modules/logger.ts:472-474 | one plain entry per message, in order; removing the indent from each gives back the message with its two-space prefix, so nothing of a message is lost |
| Trace.LogMessages | packages/hardhat-core/src/internal/hardhat-network/provider/modules/logger.ts:472-474 | the loop appends exactly the message entries |
| Trace.LogConsoleLogMessages | packages/hardhat-core/src/internal/hardhat-network/provider/modules/logger.ts:454-476 | disabled: one verbatim print per message and no state change; enabled: nothing printed, and the blank line, heading and messages buffered, or nothing for an empty list |
| Trace.LogEmptyLineBetweenTransactions | packages/hardhat-core/src/internal/hardhat-network/provider/modules/logger.ts:335-342 | one blank entry if and only if `i + 1 < n && n > 1`, otherwise no change |
| Trace.SeparatorsPrefix | packages/hardhat-core/src/internal/hardhat-network/provider/modules/logger.ts:335-342 | over indices `0 .. count - 1` the rule adds exactly `count` blanks, or `n - 1` once the last index is reached |
| Trace.SeparatorCount | packages/hardhat-core/src/internal/hardhat-network/provider/modules/logger.ts:335-342 | over a whole block of n transactions the rule adds `max(n - 1, 0)` blank lines |
| Trace.LogTxParties | packages/hardhat-core/src/internal/hardhat-network/provider/modules/logger.ts:682-684 | From, To (except for a creation) and Value, in that order |
| Trace.LogTxGas | packages/hardhat-core/src/internal/hardhat-network/provider/modules/logger.ts:685-695 | the gas line `"<used> of <limit>"`, then the block line only when asked for |
| Trace.LogTxOutcome | packages/hardhat-core/src/internal/hardhat-network/provider/modules/logger.ts:697-701 | the console.log part, then the error part when the transaction failed; prints only when logging is disabled |
| Trace.LogTxHeader | packages/hardhat-core/src/internal/hardhat-network/provider/modules/logger.ts:666-676 | the contract line unless the hash comes first, then the possibly bold hash, at the caller's indent |
| Trace.TxDetails | packages/hardhat-core/src/internal/hardhat-network/provider/modules/logger.ts:678-702 | the callback appends exactly the details at its own indent and prints only the console.log messages |
| Trace.IndentedDetails | packages/hardhat-core/src/internal/hardhat-network/provider/modules/logger.ts:678-702 | after `_indent` the details stand at the raised indent and the caller's indent is back |
| Trace.LogTxTrace | packages/hardhat-core/src/internal/hardhat-network/provider/modules/logger.ts:648-703 | `_logTxTrace`, with its callback run through the `_indent` model, leaves the indent and the enabled flag as it found them |
| Trace.LogTxTraceMatches | packages/hardhat-core/src/internal/hardhat-network/provider/modules/logger.ts:648-703 | `_logTxTrace` appends exactly `TxEntries` (header, then details 2 deeper when asked), prints only console.log output, and restores the indent |
| Trace.Loop | packages/hardhat-core/src/internal/hardhat-network/provider/modules/logger.ts:114-132 | a `for` loop over indices keeps the indent and the enabled flag when each iteration does |
| Trace.LoopAppends | packages/hardhat-core/src/internal/hardhat-network/provider/modules/logger.ts:114-132 | if each iteration appends its list and the separator, the loop appends them all in order |
| Trace.LoopPrints | packages/hardhat-core/src/internal/hardhat-network/provider/modules/logger.ts:114-132 | if each iteration prints a fixed output, the loop prints them all in order |
| Trace.LogBlockTxFrame | packages/hardhat-core/src/internal/hardhat-network/provider/modules/logger.ts:124-131 | one iteration keeps the indent and flag and prints that transaction's console.log output |
| Trace.BlockTxExtends | packages/hardhat-core/src/internal/hardhat-network/provider/modules/logger.ts:124-131 | iteration `i` extends the first `i` transactions' entries to the first `i + 1` |
| Trace.BlockStepKeepsFrame | packages/hardhat-core/src/internal/hardhat-network/provider/modules/logger.ts:114-132 | every iteration keeps the indent and the enabled flag |
| Trace.LogBlockTransactions | packages/hardhat-core/src/internal/hardhat-network/provider/modules/logger.ts:114-132 | the loop over a block's transactions leaves the indent and the enabled flag as they were |
| Trace.LogBlockTransactionsMatches | packages/hardhat-core/src/internal/hardhat-network/provider/modules/logger.ts:114-132 | the loop appends exactly each transaction's entries, in order, each followed by a blank line unless it is the last |
| Trace.LogBlockTransactionsPrints | packages/hardhat-core/src/internal/hardhat-network/provider/modules/logger.ts:114-132 | the loop prints exactly the direct console.log output of the transactions, in order, and nothing else |
| Trace.LogBlockTransactionsValid | packages/hardhat-core/src/internal/hardhat-network/provider/modules/logger.ts:114-132 | logging a whole block keeps a valid state valid |
| Trace.ContractCallExample | packages/hardhat-core/src/internal/hardhat-network/provider/modules/logger.ts:278-294 | a call to `Foo` whose selector resolves to `bar` reads back as `"Contract call: Foo#bar"` |

## Left out

- Terminal I/O: the real sinks (`console.log`, `process.stdout` and the ANSI escape that
  rewrites the last line) are not modelled. Output is the list of sink calls.
- Colour: `chalk` is not modelled. A line carries a `Colour` tag, either `NoColour` or
  `Green`, the only colours the modelled operations use. Red (`printFailedMethod` and
  `printMethodNotSupported`, lines 541 and 582) and yellow (`printMetaMaskWarning`,
  line 564) are not among the tags.
  The bold transaction hash is an input string (`Transaction.boldHash`).
- Engine values are opaque input strings:
  - `bufferToHex` of hashes and addresses;
  - `weiToHumanReadableString` of the value;
  - `util.inspect` of an error.

  `bufferToInt` and `toNumber` become natural numbers.
- `isCreateTrace`/`isPrecompileTrace` and `SolidityError instanceof` are datatype variants.
- `getFunctionFromSelector` is a lookup in a finite map from selectors to functions.
- The sentinel names (`<UnrecognizedContract>`, `<unrecognized-selector>`, `<fallback>`,
  `<receive>`) come from `solidity-stack-trace.ts`, which is not part of this model.
  The constants carry Hardhat's values, and no proof depends on their text.
- The block loop requires `WellFormed`: each of the gas results, the traces and the codes
  has an element for every transaction. These are the reads `results[i]`, `traces[i]`
  and `codes[i]` of the loop (lines 115-118), which must be in range.
- The `assertHardhatInvariant` of `logBlock` (lines 100-103) is not modelled. It throws
  unless there are exactly as many results as codes. The loop model accepts more gas
  results than codes, where `logBlock` would throw before the loop starts.
- Seven public entry points are not modelled as whole operations. Each is a fixed
  sequence of modelled operations, mostly inside one or more `_indent` scopes
  (`Scope.Indent`):
  - `logBlock` (lines 78-135): `logBlockNumber` and `logBlockHash`, each only when
    asked for. Then comes the per-transaction loop (`Trace.LogBlockTransactions`), where
    each iteration is `_logTxTrace` followed by `logEmptyLineBetweenTransactions`.
  - `logIntervalMinedBlock` (lines 197-227): `logBlockHash`, then the same loop.
  - `logMinedBlock` (lines 154-195): `logMinedBlockNumber`
    (`Printing.LogMinedBlockNumber`). For a block without transactions it returns at
    that point (lines 169-171). Otherwise `logBlockHash` follows, then the same loop.
  - `logSingleTransaction` (lines 137-152): one `_logTxTrace` (`Trace.LogTxTrace`).
  - `logCurrentlySentTransaction` (lines 297-333) uses neither the loop nor
    `_logTxTrace`. Its steps are:
    - `log("Currently sent transaction:")` and `logEmptyLine`;
    - `logContractAndFunctionName`;
    - `logWithTitle` of `Transaction`;
    - `logTxFrom`, `logTxTo` and `logTxValue`;
    - `logWithTitle` of `Gas used` and of an unconditional `Block #n` line;
    - `logConsoleLogMessages`;
    - `logError` when there is an error.
  - `logEstimateGasTrace` (lines 344-364) and `logCallTrace` (lines 366-391):
    - `logContractAndFunctionName` with `printNonContractCalled: true`;
    - `logTxFrom`, `logTxTo`, and `logTxValue`, which `logCallTrace` runs only for a
      positive value (lines 380-382);
    - `logConsoleLogMessages`;
    - `logError`, which `logCallTrace` runs only when there is an error.
- `logBlockNumber`, `logBlockHash`, `logMultipleTransactionsWarning`,
  `logMultipleBlocksWarning`, `printMetaMaskWarning`, `printMethodNotSupported`,
  `printFailedMethod`, `printErrorMessage`, `printError`, `printUnknownError` and
  `debug` are not modelled:
  - the two warnings are an indented `_log` followed by `logEmptyLine` (lines 397-413);
  - `printError` is `printEmptyLine` and then an indented `_print`, for a Solidity error
    only (lines 525-532);
  - `printUnknownError` is `printError`, `printEmptyLine` and an indented `_print`
    (lines 589-597);
  - the others are one `_log` or `_print`, some inside `_indent`.

  `LogLine`, `PrintLine`, `PrintEmptyLine`, `LogEmptyLine` and `Scope.Indent` model these
  steps. The red and yellow lines are an exception, because those colours are not
  among the `Colour` tags.
- Buffer.LogWithTitle: lengths are counted in characters (Unicode scalar values), not
  in the UTF-16 code units that JavaScript's `.length` and `padEnd` count (lines 494-495
  and 521). The two differ only for titles with characters outside the Basic
  Multilingual Plane. The titles the logger itself emits are ASCII.
- `isEnabled` and `setEnabled` read and write one field (`SetEnabled` is given without a contract).
- `Trace.LogTxTraceMatches` and the block loop model only a callback that returns.
  `Scope.Indent` covers the throwing exit in general, but no model operation throws.
- Numbers are unbounded: JavaScript's floating-point numbers are not modelled, and
  neither is the precision they lose beyond 2^53 for block numbers or counts.
- The type augmentation module of `hardhat-ethers` and the filter-request schema are
  not part of the logger. Both are left out.
