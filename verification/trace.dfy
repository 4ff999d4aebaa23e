/**
 Rendering a transaction: which contract and function it reached, its hash,
 sender, recipient, value and gas, the console.log messages it emitted and the
 error it raised, in a fixed order and indentation; and the blank separator
 lines between the transactions of a block.

 Values the engine computes (hex strings, human-readable wei amounts, the
 inspected dump of an error, the bold rendering of a hash) are opaque strings
 of the input records.
 */
module Trace {
  import opened Options
  import opened Text
  import opened Formatting
  import opened LoggerState
  import opened Buffer
  import opened Scope

  type Byte = bv8

  /** The kinds of contract function that `logContractAndFunctionName` tells apart. */
  datatype FunctionType = RegularFunction | Fallback | Receive

  datatype ContractFunction = ContractFunction(name: string, kind: FunctionType)

  /** A recognised contract: its name and its functions by 4-byte selector. */
  datatype Contract = Contract(name: string, functions: map<seq<Byte>, ContractFunction>)

  /** The variants of a message trace. `deployedContract` is the address as hex;
      `failed` says whether the creation trace carries an error. */
  datatype MessageTrace =
    | PrecompileTrace(precompile: nat)
    | CreateTrace(bytecode: Option<Contract>, deployedContract: Option<string>, failed: bool)
    | CallTrace(bytecode: Option<Contract>, calldata: seq<Byte>)

  /** An execution error: a Solidity error (with its `util.inspect` dump) or anything else. */
  datatype TxError = SolidityError(inspected: string) | OtherError

  /** What the engine gathered while running one transaction. */
  datatype TraceResult = TraceResult(
    trace: Option<MessageTrace>,
    consoleLogMessages: seq<string>,
    error: Option<TxError>)

  /** A transaction's fields as the logger prints them: hashes and addresses as
      hex, the value as a human-readable amount, the gas limit as a number. */
  datatype Transaction = Transaction(
    hash: string,
    boldHash: string,
    sender: string,
    to: string,
    value: string,
    gasLimit: nat)

  datatype BlockHeader = BlockHeader(number: nat, hash: string)

  datatype TxTraceOptions = TxTraceOptions(
    highlightTxHash: bool,
    startWithTxHash: bool,
    printTxBlockNumber: bool,
    indentAfterTransactionHash: bool)

  /** Sentinel names from the stack-trace module. */
  const UnrecognizedContractName := "<UnrecognizedContract>"
  const UnrecognizedFunctionName := "<unrecognized-selector>"
  const FallbackFunctionName := "<fallback>"
  const ReceiveFunctionName := "<receive>"

  const NonContractWarning := "WARNING: Calling an account which is not a contract"

  /* ---------------------------------------------------------------------- */
  /* contract and function name                                              */
  /* ---------------------------------------------------------------------- */

  /** `calldata.slice(0, 4)`. */
  function Selector(calldata: seq<Byte>): (r: seq<Byte>)
    ensures |r| == (if |calldata| < 4 then |calldata| else 4)
    ensures r == calldata[..|r|]
  {
    if |calldata| <= 4 then calldata else calldata[..4]
  }

  /** `contract.getFunctionFromSelector(selector)`. */
  function FunctionFromSelector(c: Contract, selector: seq<Byte>): Option<ContractFunction>
  {
    if selector in c.functions then Some(c.functions[selector]) else None
  }

  /** The function name `logContractAndFunctionName` prints for a call. */
  function FunctionLabel(c: Contract, calldata: seq<Byte>): string
  {
    match FunctionFromSelector(c, Selector(calldata))
    case None => UnrecognizedFunctionName
    case Some(f) =>
      match f.kind
      case Fallback => FallbackFunctionName
      case Receive => ReceiveFunctionName
      case RegularFunction => f.name
  }

  function ContractName(bytecode: Option<Contract>): string
  {
    match bytecode
    case None => UnrecognizedContractName
    case Some(c) => c.name
  }

  predicate IsCreate(trace: Option<MessageTrace>)
  {
    trace.Some? && trace.value.CreateTrace?
  }

  /** The entries `logContractAndFunctionName` adds, as a list: nothing without
      a trace, one line for a precompile, the contract name (and the deployed
      address when creation succeeded) for a creation, an optional warning for
      a call to an account without code, and `"<contract>#<function>"` for a
      call into code. */
  function ContractEntries(indent: nat, trace: Option<MessageTrace>, code: seq<Byte>, printNonContractCalled: bool): (es: seq<Entry>)
    ensures |es| <= 2
    ensures trace.None? ==> es == []
    ensures |es| == 2 ==> IsCreate(trace)
    ensures forall i :: 0 <= i < |es| && es[i].Plain? ==> es[i] == Plain(Format(indent, NonContractWarning))
  {
    match trace
    case None => []
    case Some(PrecompileTrace(p)) =>
      [Titled(Spaces(indent) + "Precompile call", "<PrecompileContract " + NatToString(p) + ">")]
    case Some(CreateTrace(bytecode, deployed, failed)) =>
      [Titled(Spaces(indent) + "Contract deployment", ContractName(bytecode))]
      + (if deployed.Some? && !failed then [Titled(Spaces(indent) + "Contract address", deployed.value)] else [])
    case Some(CallTrace(bytecode, calldata)) =>
      if |code| == 0 then
        (if printNonContractCalled then [Plain(Format(indent, NonContractWarning))] else [])
      else
        match bytecode
        case None => [Titled(Spaces(indent) + "Contract call", UnrecognizedContractName)]
        case Some(c) => [Titled(Spaces(indent) + "Contract call", c.name + "#" + FunctionLabel(c, calldata))]
  }

  /** `logContractAndFunctionName(trace, code, {printNonContractCalled})`:
      appends exactly the entries `ContractEntries` lists. */
  function LogContractAndFunctionName(s: State, trace: Option<MessageTrace>, code: seq<Byte>, printNonContractCalled: bool): (r: State)
    requires s.indent >= 0
    ensures r == Appended(s, ContractEntries(s.indent, trace, code, printNonContractCalled))
    ensures Valid(s) ==> Valid(r)
  {
    match trace
    case None =>
      AppendedNothing(s);
      s
    case Some(PrecompileTrace(p)) =>
      LogWithTitle(s, "Precompile call", "<PrecompileContract " + NatToString(p) + ">")
    case Some(CreateTrace(bytecode, deployed, failed)) =>
      var first := Titled(Spaces(s.indent) + "Contract deployment", ContractName(bytecode));
      var s1 := LogWithTitle(s, "Contract deployment", ContractName(bytecode));
      if deployed.Some? && !failed then
        AppendedConcat(s, [first], [Titled(Spaces(s.indent) + "Contract address", deployed.value)]);
        LogWithTitle(s1, "Contract address", deployed.value)
      else
        assert [first] + [] == [first];
        s1
    case Some(CallTrace(bytecode, calldata)) =>
      if |code| == 0 then
        if printNonContractCalled then Log(s, NonContractWarning)
        else AppendedNothing(s); s
      else
        match bytecode
        case None => LogWithTitle(s, "Contract call", UnrecognizedContractName)
        case Some(c) => LogWithTitle(s, "Contract call", c.name + "#" + FunctionLabel(c, calldata))
  }

  /** `logTxTo(to, trace)`: the recipient, except for a contract creation. */
  function LogTxTo(s: State, to: string, trace: Option<MessageTrace>): (r: State)
    requires s.indent >= 0
    ensures IsCreate(trace) ==> r == s
    ensures !IsCreate(trace) ==> r == Appended(s, [Titled(Spaces(s.indent) + "To", to)])
    ensures Valid(s) ==> Valid(r)
  {
    if IsCreate(trace) then s else LogWithTitle(s, "To", to)
  }

  /** `logTxFrom(from)`. */
  function LogTxFrom(s: State, from: string): (r: State)
    requires s.indent >= 0
    ensures r == Appended(s, [Titled(Spaces(s.indent) + "From", from)])
    ensures Valid(s) ==> Valid(r)
  {
    LogWithTitle(s, "From", from)
  }

  /** `logTxValue(value)`. */
  function LogTxValue(s: State, value: string): (r: State)
    requires s.indent >= 0
    ensures r == Appended(s, [Titled(Spaces(s.indent) + "Value", value)])
    ensures Valid(s) ==> Valid(r)
  {
    LogWithTitle(s, "Value", value)
  }

  /* ---------------------------------------------------------------------- */
  /* errors and console.log messages                                         */
  /* ---------------------------------------------------------------------- */

  function ErrorEntries(indent: int, err: TxError): seq<Entry>
  {
    match err
    case SolidityError(dump) => [Plain(""), Plain(Format(indent, dump))]
    case OtherError => []
  }

  /** `logError(err)`: a blank line and the error's dump for a Solidity error,
      nothing for any other error. */
  function LogError(s: State, err: TxError): (r: State)
    ensures r == Appended(s, ErrorEntries(s.indent, err))
    ensures err.OtherError? ==> r == s
    ensures Valid(s) ==> Valid(r)
  {
    match err
    case SolidityError(dump) =>
      AppendedConcat(s, [Plain("")], [Plain(Format(s.indent, dump))]);
      Log(LogEmptyLine(s), dump)
    case OtherError =>
      AppendedNothing(s);
      s
  }

  /** One entry per console.log message, each shifted by two spaces and formatted. */
  function MessageEntries(indent: int, messages: seq<string>): seq<Entry>
  {
    seq(|messages|, i requires 0 <= i < |messages| => Plain(Format(indent, "  " + messages[i])))
  }

  /** Nothing of a message is lost in the buffer: removing the indent from
      each buffered line gives back the message with its two-space prefix. */
  lemma MessageEntriesRoundTrip(indent: int, messages: seq<string>)
    ensures |MessageEntries(indent, messages)| == |messages|
    ensures forall i :: 0 <= i < |messages| ==>
      MessageEntries(indent, messages)[i].Plain? &&
      Unformat(indent, MessageEntries(indent, messages)[i].text) == "  " + messages[i]
  {
    forall i | 0 <= i < |messages|
      ensures Unformat(indent, MessageEntries(indent, messages)[i].text) == "  " + messages[i]
    {
      FormatRoundTrip(indent, "  " + messages[i]);
    }
  }

  /** What buffered console.log delivery appends: nothing for no messages,
      otherwise a blank line, the `console.log:` heading and the messages. */
  function ConsoleEntries(indent: int, messages: seq<string>): seq<Entry>
  {
    if messages == [] then []
    else [Plain(""), Plain(Format(indent, "console.log:"))] + MessageEntries(indent, messages)
  }

  /** The verbatim, unformatted prints of direct console.log delivery. */
  function RawPrints(messages: seq<string>): seq<Event>
  {
    seq(|messages|, i requires 0 <= i < |messages| => Print(messages[i], NoColour))
  }

  /** The `for` loop that `_log`s every message with a two-space prefix. */
  function LogMessages(s: State, messages: seq<string>): (r: State)
    ensures r == Appended(s, MessageEntries(s.indent, messages))
    decreases |messages|
  {
    if messages == [] then
      AppendedNothing(s);
      assert MessageEntries(s.indent, messages) == [];
      s
    else
      var first := Plain(Format(s.indent, "  " + messages[0]));
      var s1 := Log(s, "  " + messages[0]);
      var rest := MessageEntries(s.indent, messages[1..]);
      AppendedConcat(s, [first], rest);
      assert MessageEntries(s.indent, messages) == [first] + rest;
      LogMessages(s1, messages[1..])
  }

  /** `logConsoleLogMessages(messages)`. When logging is disabled every message
      is written at once, verbatim, and the state does not change at all (the
      raw sink is called, not `_print`). When enabled, nothing is printed and
      the heading and messages are buffered, or nothing happens for an empty list. */
  function LogConsoleLogMessages(s: State, messages: seq<string>): (r: Step)
    ensures !s.enabled ==> r.st == s && r.out == RawPrints(messages)
    ensures s.enabled ==> r.out == [] && r.st == Appended(s, ConsoleEntries(s.indent, messages))
    ensures s.enabled && messages == [] ==> r.st == s
    ensures Valid(s) ==> Valid(r.st)
  {
    if !s.enabled then Step(s, RawPrints(messages))
    else if messages == [] then
      AppendedNothing(s);
      Step(s, [])
    else
      var s1 := LogEmptyLine(s);
      var s2 := Log(s1, "console.log:");
      var head := [Plain(""), Plain(Format(s.indent, "console.log:"))];
      AppendedConcat(s, [Plain("")], [Plain(Format(s.indent, "console.log:"))]);
      assert [Plain("")] + [Plain(Format(s.indent, "console.log:"))] == head;
      AppendedConcat(s, head, MessageEntries(s.indent, messages));
      Step(LogMessages(s2, messages), [])
  }

  /* ---------------------------------------------------------------------- */
  /* separators between transactions                                         */
  /* ---------------------------------------------------------------------- */

  /** The blank entry `logEmptyLineBetweenTransactions` adds, if any: one
      exactly when another transaction follows. */
  function Separator(index: int, total: int): seq<Entry>
  {
    if index + 1 < total && total > 1 then [Plain("")] else []
  }

  /** `logEmptyLineBetweenTransactions(currentIndex, totalTransactions)`. */
  function LogEmptyLineBetweenTransactions(s: State, currentIndex: int, totalTransactions: int): (r: State)
    ensures r == Appended(s, Separator(currentIndex, totalTransactions))
    ensures Valid(s) ==> Valid(r)
  {
    AppendedNothing(s);
    if Separator(currentIndex, totalTransactions) == [] then s else LogEmptyLine(s)
  }

  function Blanks(count: nat): (es: seq<Entry>)
    ensures |es| == count && forall i :: 0 <= i < count ==> es[i] == Plain("")
  {
    seq(count, _ => Plain(""))
  }

  /** The separator calls for indices `0 .. count - 1` of a block of `total` transactions. */
  function SeparatorsUpTo(s: State, count: nat, total: int): State
  {
    if count == 0 then s
    else LogEmptyLineBetweenTransactions(SeparatorsUpTo(s, count - 1, total), count - 1, total)
  }

  lemma {:induction false} SeparatorsPrefix(s: State, count: nat, total: nat)
    requires count <= total
    ensures SeparatorsUpTo(s, count, total) ==
      Appended(s, Blanks(if count < total || total == 0 then count else total - 1))
  {
    if count == 0 {
      AppendedNothing(s);
      assert Blanks(0) == [];
    } else {
      SeparatorsPrefix(s, count - 1, total);
      var before := Blanks(count - 1);
      if count < total {
        AppendedConcat(s, before, [Plain("")]);
        assert before + [Plain("")] == Blanks(count);
      } else {
        assert count - 1 == total - 1;
      }
    }
  }

  /** Over a whole block of n transactions, the separator rule adds
      max(n - 1, 0) blank lines: none for one transaction, one between two. */
  lemma SeparatorCount(s: State, n: nat)
    ensures SeparatorsUpTo(s, n, n) == Appended(s, Blanks(if n == 0 then 0 else n - 1))
  {
    SeparatorsPrefix(s, n, n);
  }

  /* ---------------------------------------------------------------------- */
  /* one transaction                                                         */
  /* ---------------------------------------------------------------------- */

  function GasLine(gasUsed: nat, gasLimit: nat): string
  {
    NatToString(gasUsed) + " of " + NatToString(gasLimit)
  }

  function ConsoleOut(enabled: bool, messages: seq<string>): seq<Event>
  {
    if enabled then [] else RawPrints(messages)
  }

  /** From, To (except for a creation) and Value, at indent `indent`. */
  function PartyEntries(indent: nat, tx: Transaction, trace: Option<MessageTrace>): seq<Entry>
  {
    [Titled(Spaces(indent) + "From", tx.sender)]
    + (if IsCreate(trace) then [] else [Titled(Spaces(indent) + "To", tx.to)])
    + [Titled(Spaces(indent) + "Value", tx.value)]
  }

  /** `logTxFrom`, `logTxTo` and `logTxValue` in turn. */
  function LogTxParties(s: State, tx: Transaction, trace: Option<MessageTrace>): (r: State)
    requires s.indent >= 0
    ensures r == Appended(s, PartyEntries(s.indent, tx, trace))
  {
    var from := [Titled(Spaces(s.indent) + "From", tx.sender)];
    var to := if IsCreate(trace) then [] else [Titled(Spaces(s.indent) + "To", tx.to)];
    var s1 := LogTxFrom(s, tx.sender);
    var s2 := LogTxTo(s1, tx.to, trace);
    AppendedNothing(s1);
    AppendedConcat(s, from, to);
    AppendedConcat(s, from + to, [Titled(Spaces(s.indent) + "Value", tx.value)]);
    LogTxValue(s2, tx.value)
  }

  /** The gas line, then the block line when asked for, at indent `indent`. */
  function GasEntries(indent: nat, tx: Transaction, block: BlockHeader, gasUsed: nat, printTxBlockNumber: bool): seq<Entry>
  {
    [Titled(Spaces(indent) + "Gas used", GasLine(gasUsed, tx.gasLimit))]
    + (if printTxBlockNumber then [Titled(Spaces(indent) + ("Block #" + NatToString(block.number)), block.hash)] else [])
  }

  /** The `Gas used` title, and `Block #<n>` with the block hash when asked for. */
  function LogTxGas(s: State, tx: Transaction, block: BlockHeader, gasUsed: nat, printTxBlockNumber: bool): (r: State)
    requires s.indent >= 0
    ensures r == Appended(s, GasEntries(s.indent, tx, block, gasUsed, printTxBlockNumber))
  {
    var gas := [Titled(Spaces(s.indent) + "Gas used", GasLine(gasUsed, tx.gasLimit))];
    var s1 := LogWithTitle(s, "Gas used", GasLine(gasUsed, tx.gasLimit));
    if printTxBlockNumber then
      AppendedConcat(s, gas, [Titled(Spaces(s.indent) + ("Block #" + NatToString(block.number)), block.hash)]);
      LogWithTitle(s1, "Block #" + NatToString(block.number), block.hash)
    else
      assert gas + [] == gas;
      s1
  }

  /** The console.log messages (buffered only when enabled), then the error. */
  function OutcomeEntries(indent: int, enabled: bool, res: TraceResult): seq<Entry>
  {
    (if enabled then ConsoleEntries(indent, res.consoleLogMessages) else [])
    + (if res.error.Some? then ErrorEntries(indent, res.error.value) else [])
  }

  /** `logConsoleLogMessages`, then `logError` when the transaction failed. */
  function LogTxOutcome(s: State, res: TraceResult): (r: Step)
    ensures r.st == Appended(s, OutcomeEntries(s.indent, s.enabled, res))
    ensures r.out == ConsoleOut(s.enabled, res.consoleLogMessages)
  {
    var c := LogConsoleLogMessages(s, res.consoleLogMessages);
    var console := if s.enabled then ConsoleEntries(s.indent, res.consoleLogMessages) else [];
    AppendedNothing(s);
    assert c.st == Appended(s, console);
    if res.error.Some? then
      AppendedConcat(s, console, ErrorEntries(s.indent, res.error.value));
      Step(LogError(c.st, res.error.value), c.out)
    else
      assert console + [] == console;
      c
  }

  /** The entries of the part of `_logTxTrace` that runs inside `_indent`, at indent `indent`. */
  function DetailEntries(indent: nat, enabled: bool, tx: Transaction, res: TraceResult, code: seq<Byte>,
                         block: BlockHeader, gasUsed: nat, o: TxTraceOptions): seq<Entry>
  {
    (if o.startWithTxHash then ContractEntries(indent, res.trace, code, false) else [])
    + PartyEntries(indent, tx, res.trace)
    + GasEntries(indent, tx, block, gasUsed, o.printTxBlockNumber)
    + OutcomeEntries(indent, enabled, res)
  }

  /** What `_logTxTrace` buffers before it raises the indent: the contract
      line unless the hash comes first, then the (possibly bold) hash. */
  function HeaderEntries(indent: nat, tx: Transaction, res: TraceResult, code: seq<Byte>, o: TxTraceOptions): seq<Entry>
  {
    (if o.startWithTxHash then [] else ContractEntries(indent, res.trace, code, false))
    + [Titled(Spaces(indent) + "Transaction", if o.highlightTxHash then tx.boldHash else tx.hash)]
  }

  /** Everything `_logTxTrace` buffers, in order: the header at the caller's
      indent, then the details, 2 deeper when `indentAfterTransactionHash`. */
  function TxEntries(indent: nat, enabled: bool, tx: Transaction, res: TraceResult, code: seq<Byte>,
                     block: BlockHeader, gasUsed: nat, o: TxTraceOptions): seq<Entry>
  {
    HeaderEntries(indent, tx, res, code, o)
    + DetailEntries(indent + Delta(o.indentAfterTransactionHash), enabled, tx, res, code, block, gasUsed, o)
  }

  /** The part of `_logTxTrace` before `_indent`. */
  function LogTxHeader(s: State, tx: Transaction, res: TraceResult, code: seq<Byte>, o: TxTraceOptions): (r: State)
    requires s.indent >= 0
    ensures r == Appended(s, HeaderEntries(s.indent, tx, res, code, o))
  {
    var a := if o.startWithTxHash then [] else ContractEntries(s.indent, res.trace, code, false);
    var hash := if o.highlightTxHash then tx.boldHash else tx.hash;
    var s1 := if !o.startWithTxHash then LogContractAndFunctionName(s, res.trace, code, false) else s;
    AppendedNothing(s);
    AppendedConcat(s, a, [Titled(Spaces(s.indent) + "Transaction", hash)]);
    LogWithTitle(s1, "Transaction", hash)
  }

  /** The callback `_logTxTrace` passes to `_indent`: it appends exactly
      `DetailEntries` at its own indent and prints the console.log messages
      when logging is disabled. */
  function TxDetails(s: State, tx: Transaction, res: TraceResult, code: seq<Byte>,
                     block: BlockHeader, gasUsed: nat, o: TxTraceOptions): (r: Step)
    requires s.indent >= 0
    ensures r.st == Appended(s, DetailEntries(s.indent, s.enabled, tx, res, code, block, gasUsed, o))
    ensures r.out == ConsoleOut(s.enabled, res.consoleLogMessages)
  {
    var a := if o.startWithTxHash then ContractEntries(s.indent, res.trace, code, false) else [];
    var b := PartyEntries(s.indent, tx, res.trace);
    var c := GasEntries(s.indent, tx, block, gasUsed, o.printTxBlockNumber);
    var d := OutcomeEntries(s.indent, s.enabled, res);
    var s1 := if o.startWithTxHash then LogContractAndFunctionName(s, res.trace, code, false) else s;
    AppendedNothing(s);
    var s2 := LogTxParties(s1, tx, res.trace);
    AppendedConcat(s, a, b);
    var s3 := LogTxGas(s2, tx, block, gasUsed, o.printTxBlockNumber);
    AppendedConcat(s, a + b, c);
    var out := LogTxOutcome(s3, res);
    AppendedConcat(s, a + b + c, d);
    out
  }

  /** The callback `_logTxTrace` hands to `_indent`; it always returns. */
  function DetailsCallback(tx: Transaction, res: TraceResult, code: seq<Byte>,
                           block: BlockHeader, gasUsed: nat, o: TxTraceOptions): State --> Run
  {
    (x: State) requires x.indent >= 0 => Run(TxDetails(x, tx, res, code, block, gasUsed, o), Returned)
  }

  /** `_logTxTrace(tx, txTrace, code, block, txGasUsed, options)`: the header,
      then the details inside `_indent`. The indent and the enabled flag are
      the same afterwards. */
  function LogTxTrace(s: State, tx: Transaction, res: TraceResult, code: seq<Byte>,
                      block: BlockHeader, gasUsed: nat, o: TxTraceOptions): (r: Step)
    requires s.indent >= 0
    ensures r.st.indent == s.indent && r.st.enabled == s.enabled
  {
    var s1 := LogTxHeader(s, tx, res, code, o);
    Indent(s1, o.indentAfterTransactionHash, DetailsCallback(tx, res, code, block, gasUsed, o)).step
  }

  /** Inside `_indent`, the callback appends `DetailEntries` at the raised
      indent; once the indent is lowered again the result is as if the details
      had been appended at the caller's state. */
  lemma IndentedDetails(s1: State, tx: Transaction, res: TraceResult, code: seq<Byte>,
                        block: BlockHeader, gasUsed: nat, o: TxTraceOptions)
    requires s1.indent >= 0
    ensures
      var r := Indent(s1, o.indentAfterTransactionHash, DetailsCallback(tx, res, code, block, gasUsed, o));
      && r.step.st == Appended(s1, DetailEntries(s1.indent + Delta(o.indentAfterTransactionHash), s1.enabled, tx, res, code, block, gasUsed, o))
      && r.step.out == ConsoleOut(s1.enabled, res.consoleLogMessages)
  {
    var inner := Entered(s1, o.indentAfterTransactionHash);
    AppendedIndent(s1, inner.indent, DetailEntries(inner.indent, s1.enabled, tx, res, code, block, gasUsed, o));
  }

  lemma TxEntriesSplit(indent: nat, enabled: bool, tx: Transaction, res: TraceResult, code: seq<Byte>,
                       block: BlockHeader, gasUsed: nat, o: TxTraceOptions)
    ensures TxEntries(indent, enabled, tx, res, code, block, gasUsed, o) ==
      HeaderEntries(indent, tx, res, code, o)
      + DetailEntries(indent + Delta(o.indentAfterTransactionHash), enabled, tx, res, code, block, gasUsed, o)
  {
  }

  /** `_logTxTrace` appends exactly `TxEntries` for the caller's indent, prints
      only the console.log messages (and only when logging is disabled), and
      gives the indent back. */
  lemma LogTxTraceMatches(s: State, tx: Transaction, res: TraceResult, code: seq<Byte>,
                          block: BlockHeader, gasUsed: nat, o: TxTraceOptions)
    requires s.indent >= 0
    ensures LogTxTrace(s, tx, res, code, block, gasUsed, o).st ==
      Appended(s, TxEntries(s.indent, s.enabled, tx, res, code, block, gasUsed, o))
    ensures LogTxTrace(s, tx, res, code, block, gasUsed, o).out == ConsoleOut(s.enabled, res.consoleLogMessages)
    ensures LogTxTrace(s, tx, res, code, block, gasUsed, o).st.indent == s.indent
  {
    var h := HeaderEntries(s.indent, tx, res, code, o);
    var d := DetailEntries(s.indent + Delta(o.indentAfterTransactionHash), s.enabled, tx, res, code, block, gasUsed, o);
    var s1 := LogTxHeader(s, tx, res, code, o);
    IndentedDetails(s1, tx, res, code, block, gasUsed, o);
    var r := Indent(s1, o.indentAfterTransactionHash, DetailsCallback(tx, res, code, block, gasUsed, o));
    assert LogTxTrace(s, tx, res, code, block, gasUsed, o) == r.step;
    assert r.step.st == Appended(Appended(s, h), d);
    AppendedConcat(s, h, d);
    TxEntriesSplit(s.indent, s.enabled, tx, res, code, block, gasUsed, o);
  }

  /* ---------------------------------------------------------------------- */
  /* the transactions of a block                                             */
  /* ---------------------------------------------------------------------- */

  /** A mined block as the logger receives it: the header, the transactions,
      and per transaction its gas used and its gathered trace. */
  datatype MinedBlockResult = MinedBlockResult(
    header: BlockHeader,
    transactions: seq<Transaction>,
    gasUsed: seq<nat>,
    traces: seq<TraceResult>)

  /** Every transaction has a result, a trace and the code of its recipient. */
  predicate WellFormed(b: MinedBlockResult, codes: seq<seq<Byte>>)
  {
    |b.transactions| <= |b.gasUsed| && |b.transactions| <= |b.traces| && |b.transactions| <= |codes|
  }

  /** The options `_logTxTrace` gets for transaction `tx`: the hash is
      highlighted when it is the one the caller asked for. */
  function OptionsFor(o: TxTraceOptions, txHashToHighlight: Option<string>, tx: Transaction): TxTraceOptions
  {
    o.(highlightTxHash := txHashToHighlight.Some? && txHashToHighlight.value == tx.hash)
  }

  /** Each transaction's own entries, in block order. */
  function BlockTxEntries(indent: nat, enabled: bool, b: MinedBlockResult, codes: seq<seq<Byte>>,
                          txHashToHighlight: Option<string>, o: TxTraceOptions): (r: seq<seq<Entry>>)
    requires WellFormed(b, codes)
    ensures |r| == |b.transactions|
    ensures forall i :: 0 <= i < |r| ==>
      r[i] == TxEntries(indent, enabled, b.transactions[i], b.traces[i], codes[i], b.header, b.gasUsed[i],
                        OptionsFor(o, txHashToHighlight, b.transactions[i]))
  {
    seq(|b.transactions|, i requires 0 <= i < |b.transactions| =>
      TxEntries(indent, enabled, b.transactions[i], b.traces[i], codes[i], b.header, b.gasUsed[i],
                OptionsFor(o, txHashToHighlight, b.transactions[i])))
  }

  /** The first `count` lists of `lists`, each followed by the separator rule. */
  function Interleave(lists: seq<seq<Entry>>, count: nat): seq<Entry>
    requires count <= |lists|
  {
    if count == 0 then [] else Interleave(lists, count - 1) + lists[count - 1] + Separator(count - 1, |lists|)
  }

  /** What the loop over the first `count` transactions buffers: each
      transaction's entries followed by a blank line unless it is the last. */
  function BlockEntries(indent: nat, enabled: bool, b: MinedBlockResult, codes: seq<seq<Byte>>,
                        txHashToHighlight: Option<string>, o: TxTraceOptions, count: nat): seq<Entry>
    requires WellFormed(b, codes) && count <= |b.transactions|
  {
    Interleave(BlockTxEntries(indent, enabled, b, codes, txHashToHighlight, o), count)
  }

  /** The first `count` outputs of `outs`, one after another. */
  function Flatten(outs: seq<seq<Event>>, count: nat): seq<Event>
    requires count <= |outs|
  {
    if count == 0 then [] else Flatten(outs, count - 1) + outs[count - 1]
  }

  /** Each transaction's console.log output on direct delivery, in block order. */
  function BlockTxOuts(enabled: bool, b: MinedBlockResult): (r: seq<seq<Event>>)
    requires |b.transactions| <= |b.traces|
    ensures |r| == |b.transactions|
    ensures forall i :: 0 <= i < |r| ==> r[i] == ConsoleOut(enabled, b.traces[i].consoleLogMessages)
  {
    seq(|b.transactions|, i requires 0 <= i < |b.transactions| => ConsoleOut(enabled, b.traces[i].consoleLogMessages))
  }

  /** What the loop over the first `count` transactions prints. */
  function BlockOut(enabled: bool, b: MinedBlockResult, count: nat): seq<Event>
    requires count <= |b.transactions| <= |b.traces|
  {
    Flatten(BlockTxOuts(enabled, b), count)
  }

  /* ---------------------------------------------------------------------- */
  /* a loop over indices                                                     */
  /* ---------------------------------------------------------------------- */

  /** For each of the first `count` indices, `step` accepts any state with a
      non-negative indent and keeps its indent and its enabled flag. */
  ghost predicate KeepsFrame(step: (State, nat) --> Step, count: nat)
  {
    forall cur: State, i: nat :: cur.indent >= 0 && i < count ==>
      step.requires(cur, i) && step(cur, i).st.indent == cur.indent && step(cur, i).st.enabled == cur.enabled
  }

  /** `for (i = 0; i < count; i++) step(i)`, threading the logger state and
      collecting the sink calls in order. */
  function Loop(s: State, step: (State, nat) --> Step, count: nat): (r: Step)
    requires s.indent >= 0 && KeepsFrame(step, count)
    ensures r.st.indent == s.indent && r.st.enabled == s.enabled
  {
    if count == 0 then Step(s, [])
    else
      var before := Loop(s, step, count - 1);
      var next := step(before.st, count - 1);
      Step(next.st, before.out + next.out)
  }

  /** If iteration `i` turns a state holding the first `i` lists appended into
      one holding the first `i + 1`, the loop appends the first `count`. */
  lemma {:induction false} LoopAppends(s: State, step: (State, nat) --> Step, lists: seq<seq<Entry>>, count: nat)
    requires s.indent >= 0 && KeepsFrame(step, count) && count <= |lists|
    requires forall cur: State, i: nat :: cur.indent >= 0 && i < count && cur == Appended(s, Interleave(lists, i)) ==>
      step(cur, i).st == Appended(s, Interleave(lists, i + 1))
    ensures Loop(s, step, count).st == Appended(s, Interleave(lists, count))
  {
    if count == 0 {
      AppendedNothing(s);
    } else {
      LoopAppends(s, step, lists, count - 1);
      var before := Loop(s, step, count - 1);
      assert step(before.st, count - 1).st == Appended(s, Interleave(lists, count - 1 + 1));
    }
  }

  /** If iteration `i` prints `outs[i]` whatever the state, the loop prints
      the first `count` outputs in order. */
  lemma {:induction false} LoopPrints(s: State, step: (State, nat) --> Step, outs: seq<seq<Event>>, count: nat)
    requires s.indent >= 0 && KeepsFrame(step, count) && count <= |outs|
    requires forall cur: State, i: nat :: cur.indent >= 0 && cur.enabled == s.enabled && i < count ==>
      step(cur, i).out == outs[i]
    ensures Loop(s, step, count).out == Flatten(outs, count)
  {
    if count > 0 {
      LoopPrints(s, step, outs, count - 1);
      var before := Loop(s, step, count - 1);
      assert step(before.st, count - 1).out == outs[count - 1];
    }
  }

  /* ---------------------------------------------------------------------- */
  /* the loop over a block's transactions                                    */
  /* ---------------------------------------------------------------------- */

  /** One iteration of the loop over a block's transactions: `_logTxTrace`
      for transaction `i`, then the separator rule. */
  function LogBlockTx(cur: State, b: MinedBlockResult, codes: seq<seq<Byte>>,
                      txHashToHighlight: Option<string>, o: TxTraceOptions, i: nat): Step
    requires cur.indent >= 0
    requires WellFormed(b, codes) && i < |b.transactions|
  {
    var tx := b.transactions[i];
    var t := LogTxTrace(cur, tx, b.traces[i], codes[i], b.header, b.gasUsed[i], OptionsFor(o, txHashToHighlight, tx));
    Step(LogEmptyLineBetweenTransactions(t.st, i, |b.transactions|), t.out)
  }

  /** The loop body as a step of `Loop`. */
  function BlockStep(b: MinedBlockResult, codes: seq<seq<Byte>>,
                     txHashToHighlight: Option<string>, o: TxTraceOptions): (State, nat) --> Step
    requires WellFormed(b, codes)
  {
    (cur: State, i: nat) requires cur.indent >= 0 && i < |b.transactions| =>
      LogBlockTx(cur, b, codes, txHashToHighlight, o, i)
  }

  /** Iteration `i` keeps the indent and the enabled flag and prints
      transaction `i`'s console.log output. */
  lemma LogBlockTxFrame(cur: State, b: MinedBlockResult, codes: seq<seq<Byte>>,
                        txHashToHighlight: Option<string>, o: TxTraceOptions, i: nat)
    requires cur.indent >= 0
    requires WellFormed(b, codes) && i < |b.transactions|
    ensures LogBlockTx(cur, b, codes, txHashToHighlight, o, i).st.indent == cur.indent
    ensures LogBlockTx(cur, b, codes, txHashToHighlight, o, i).st.enabled == cur.enabled
    ensures LogBlockTx(cur, b, codes, txHashToHighlight, o, i).out ==
      ConsoleOut(cur.enabled, b.traces[i].consoleLogMessages)
  {
    var tx := b.transactions[i];
    LogTxTraceMatches(cur, tx, b.traces[i], codes[i], b.header, b.gasUsed[i], OptionsFor(o, txHashToHighlight, tx));
  }

  /** Iteration `i` extends the entries of the first `i` transactions to
      those of the first `i + 1`. */
  lemma BlockTxExtends(s: State, cur: State, b: MinedBlockResult, codes: seq<seq<Byte>>,
                       txHashToHighlight: Option<string>, o: TxTraceOptions, i: nat)
    requires s.indent >= 0
    requires WellFormed(b, codes) && i < |b.transactions|
    requires cur == Appended(s, Interleave(BlockTxEntries(s.indent, s.enabled, b, codes, txHashToHighlight, o), i))
    ensures LogBlockTx(cur, b, codes, txHashToHighlight, o, i).st ==
      Appended(s, Interleave(BlockTxEntries(s.indent, s.enabled, b, codes, txHashToHighlight, o), i + 1))
  {
    var tx := b.transactions[i];
    var opts := OptionsFor(o, txHashToHighlight, tx);
    var t := LogTxTrace(cur, tx, b.traces[i], codes[i], b.header, b.gasUsed[i], opts);
    LogTxTraceMatches(cur, tx, b.traces[i], codes[i], b.header, b.gasUsed[i], opts);
    var u := LogEmptyLineBetweenTransactions(t.st, i, |b.transactions|);
    var lists := BlockTxEntries(s.indent, s.enabled, b, codes, txHashToHighlight, o);
    AppendedChain(s, cur, t.st, u, Interleave(lists, i), lists[i], Separator(i, |lists|));
  }

  /** The loop body keeps the frame `Loop` needs. */
  lemma BlockStepKeepsFrame(b: MinedBlockResult, codes: seq<seq<Byte>>,
                            txHashToHighlight: Option<string>, o: TxTraceOptions)
    requires WellFormed(b, codes)
    ensures KeepsFrame(BlockStep(b, codes, txHashToHighlight, o), |b.transactions|)
  {
    var step := BlockStep(b, codes, txHashToHighlight, o);
    forall cur: State, i: nat | cur.indent >= 0 && i < |b.transactions|
      ensures step.requires(cur, i) && step(cur, i).st.indent == cur.indent && step(cur, i).st.enabled == cur.enabled
    {
      LogBlockTxFrame(cur, b, codes, txHashToHighlight, o, i);
    }
  }

  /** The loop shared by `logBlock`, `logMinedBlock` and `logIntervalMinedBlock`,
      over its first `count` iterations. The indent is the same after each iteration. */
  function LogBlockTransactions(s: State, b: MinedBlockResult, codes: seq<seq<Byte>>,
                                txHashToHighlight: Option<string>, o: TxTraceOptions, count: nat): (r: Step)
    requires s.indent >= 0
    requires WellFormed(b, codes) && count <= |b.transactions|
    ensures r.st.indent == s.indent && r.st.enabled == s.enabled
  {
    BlockStepKeepsFrame(b, codes, txHashToHighlight, o);
    Loop(s, BlockStep(b, codes, txHashToHighlight, o), count)
  }

  /** The whole loop appends exactly `BlockEntries`. */
  lemma LogBlockTransactionsMatches(s: State, b: MinedBlockResult, codes: seq<seq<Byte>>,
                                    txHashToHighlight: Option<string>, o: TxTraceOptions, count: nat)
    requires s.indent >= 0
    requires WellFormed(b, codes) && count <= |b.transactions|
    ensures LogBlockTransactions(s, b, codes, txHashToHighlight, o, count).st ==
      Appended(s, BlockEntries(s.indent, s.enabled, b, codes, txHashToHighlight, o, count))
  {
    var step := BlockStep(b, codes, txHashToHighlight, o);
    var lists := BlockTxEntries(s.indent, s.enabled, b, codes, txHashToHighlight, o);
    BlockStepKeepsFrame(b, codes, txHashToHighlight, o);
    forall cur: State, i: nat | cur.indent >= 0 && i < count && cur == Appended(s, Interleave(lists, i))
      ensures step(cur, i).st == Appended(s, Interleave(lists, i + 1))
    {
      BlockTxExtends(s, cur, b, codes, txHashToHighlight, o, i);
    }
    LoopAppends(s, step, lists, count);
  }

  /** The whole loop prints exactly the console.log messages of direct
      delivery, in transaction order, and nothing else. */
  lemma LogBlockTransactionsPrints(s: State, b: MinedBlockResult, codes: seq<seq<Byte>>,
                                   txHashToHighlight: Option<string>, o: TxTraceOptions, count: nat)
    requires s.indent >= 0
    requires WellFormed(b, codes) && count <= |b.transactions|
    ensures LogBlockTransactions(s, b, codes, txHashToHighlight, o, count).out == BlockOut(s.enabled, b, count)
  {
    var step := BlockStep(b, codes, txHashToHighlight, o);
    var outs := BlockTxOuts(s.enabled, b);
    BlockStepKeepsFrame(b, codes, txHashToHighlight, o);
    forall cur: State, i: nat | cur.indent >= 0 && cur.enabled == s.enabled && i < count
      ensures step(cur, i).out == outs[i]
    {
      LogBlockTxFrame(cur, b, codes, txHashToHighlight, o, i);
    }
    LoopPrints(s, step, outs, count);
  }

  /** Logging a whole block's transactions keeps a reachable state reachable. */
  lemma LogBlockTransactionsValid(s: State, b: MinedBlockResult, codes: seq<seq<Byte>>,
                                  txHashToHighlight: Option<string>, o: TxTraceOptions)
    requires Valid(s) && WellFormed(b, codes)
    ensures Valid(LogBlockTransactions(s, b, codes, txHashToHighlight, o, |b.transactions|).st)
  {
    LogBlockTransactionsMatches(s, b, codes, txHashToHighlight, o, |b.transactions|);
    AppendedValid(s, BlockEntries(s.indent, s.enabled, b, codes, txHashToHighlight, o, |b.transactions|));
  }

  /* ---------------------------------------------------------------------- */
  /* a worked example                                                        */
  /* ---------------------------------------------------------------------- */

  /** A call into a known contract `Foo` whose selector resolves to `bar`,
      logged by a fresh logger, reads back as `"Contract call: Foo#bar"`. */
  lemma ContractCallExample(enabled: bool, code: seq<Byte>)
    requires |code| > 0
    ensures
      var foo := Contract("Foo", map[[1, 2, 3, 4] := ContractFunction("bar", RegularFunction)]);
      var trace := Some(CallTrace(Some(foo), [1, 2, 3, 4, 9]));
      GetLogs(LogContractAndFunctionName(Init(enabled), trace, code, false)) == ["Contract call: Foo#bar"]
  {
    var foo := Contract("Foo", map[[1, 2, 3, 4] := ContractFunction("bar", RegularFunction)]);
    var calldata: seq<Byte> := [1, 2, 3, 4, 9];
    var trace := Some(CallTrace(Some(foo), calldata));
    assert Selector(calldata) == [1, 2, 3, 4];
    assert FunctionLabel(foo, calldata) == "bar";
    assert Spaces(0) == "";
    var e := Titled("Contract call", "Foo#bar");
    assert Spaces(0) + "Contract call" == "Contract call";
    assert foo.name + "#" + FunctionLabel(foo, calldata) == "Foo#bar";
    assert ContractEntries(0, trace, code, false) == [e];
    var s0 := Init(enabled);
    var s := LogContractAndFunctionName(s0, trace, code, false);
    AppendedSingle(s0, e);
    assert s.logs == [e] && s.titleLength == 13;
    assert PadEnd("Contract call:", 14) == "Contract call:";
    assert RenderTitled("Contract call", "Foo#bar", 13) == "Contract call: Foo#bar";
  }
}
