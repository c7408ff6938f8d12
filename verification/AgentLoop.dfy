/**
 * The agent's tool loop, packages/agent-core/src/loop.ts and policy.ts, for every behaviour of the
 * model provider and of the tools.
 */
module AgentLoop {
  import opened Wrappers
  import opened JsonText
  import opened LowerCase

  // ---------- authorising a tool call ----------

  function AllowedToolNames(): seq<string> {
    ["get_wallet_positions", "get_change_details", "get_exposure", "run_impact_simulation",
     "list_available_rescue_assets", "optimize_repayment", "optimize_add_collateral", "get_verified_strategies",
     "compare_verified_strategies"]
  }

  datatype ToolCall = ToolCall(id: string, name: string, rawArguments: string)

  /** One argument in the parsed JSON. */
  datatype Argument = Absent | Str(s: string) | OtherValue

  datatype Arguments = NotAnObject | Arguments(wallet: Argument, proposalId: Argument)

  /** What the schema keeps. */
  datatype Args = Args(wallet: Option<string>, proposalId: Option<string>)

  datatype AuthorizedToolCall = AuthorizedToolCall(name: string, args: Args)

  predicate IsHex(c: char) {
    '0' <= c <= '9' || 'a' <= c <= 'f' || 'A' <= c <= 'F'
  }

  predicate IsAddress(s: string) {
    |s| == 42 && s[..2] == "0x" && forall i :: 2 <= i < 42 ==> IsHex(s[i])
  }

  predicate IsNumeric(s: string) {
    s != "" && forall i :: 0 <= i < |s| ==> IsDigit(s[i])
  }

  /** The schema of each tool: unknown members are dropped. */
  function ParseArgs(name: string, a: Arguments): Option<Args> {
    if a.NotAnObject? then None
    else if name == "get_verified_strategies" then Some(Args(None, None))
    else if name == "get_change_details" then
      match a.proposalId
      case Absent => Some(Args(None, None))
      case Str(s) => if IsNumeric(s) then Some(Args(None, Some(s))) else None
      case OtherValue => None
    else
      match a.wallet
      case Absent => Some(Args(None, None))
      case Str(s) => if IsAddress(s) then Some(Args(Some(s), None)) else None
      case OtherValue => None
  }

  /** getAddress compares addresses without regard to case. */
  predicate SameAddress(a: string, b: string) {
    Lower(a) == Lower(b)
  }

  /** parse is JSON.parse on the raw arguments, with blank arguments read as an empty object. */
  function AuthorizeToolCall(call: ToolCall, parse: string -> Option<Arguments>, sessionWallet: string)
    : Result<AuthorizedToolCall>
  {
    if call.name !in AllowedToolNames() then Err("GROQ_INVALID_TOOL_CALL")
    else
      var parsed := parse(call.rawArguments);
      if parsed.None? then Err("GROQ_INVALID_TOOL_CALL")
      else
        var args := ParseArgs(call.name, parsed.value);
        if args.None? then Err("GROQ_INVALID_TOOL_CALL")
        else if args.value.wallet.Some? && !SameAddress(args.value.wallet.value, sessionWallet) then
          Err("GROQ_INVALID_TOOL_CALL")
        else if call.name == "get_change_details" && args.value.proposalId.Some? && args.value.proposalId.value != "176"
        then Err("UNSUPPORTED_PROTOCOL_CHANGE")
        else Ok(AuthorizedToolCall(call.name, args.value))
  }

  /** What execute may be called with. */
  predicate Permitted(a: AuthorizedToolCall, sessionWallet: string) {
    && a.name in AllowedToolNames()
    && (a.args.wallet.Some? ==> Lower(a.args.wallet.value) == Lower(sessionWallet))
    && (a.name == "get_change_details" ==> a.args.proposalId.None? || a.args.proposalId.value == "176")
  }

  const HEX_DIGITS := "0123456789abcdefABCDEF"

  /** A 20-byte address in hexadecimal digits of either case. */
  ghost predicate AddressText(s: string) {
    |s| == 42 && s[0] == '0' && s[1] == 'x' && forall i :: 2 <= i < 42 ==> s[i] in HEX_DIGITS
  }

  lemma HexDigit(c: char)
    ensures IsHex(c) <==> c in HEX_DIGITS
  {
    if '0' <= c <= '9' {
      assert HEX_DIGITS[c as int - '0' as int] == c;
    } else if 'a' <= c <= 'f' {
      assert HEX_DIGITS[10 + c as int - 'a' as int] == c;
    } else if 'A' <= c <= 'F' {
      assert HEX_DIGITS[16 + c as int - 'A' as int] == c;
    }
  }

  lemma AddressIff(s: string)
    ensures IsAddress(s) <==> AddressText(s)
  {
    hide IsHex;
    if |s| == 42 {
      assert s[..2] == "0x" <==> s[0] == '0' && s[1] == 'x';
      forall i | 2 <= i < 42
        ensures IsHex(s[i]) <==> s[i] in HEX_DIGITS
      {
        HexDigit(s[i]);
      }
    }
  }

  /** The arguments a tool takes: an object, with the proposal 176 or the session's wallet, if it names one at all. */
  ghost predicate Acceptable(name: string, a: Arguments, sessionWallet: string) {
    && a.Arguments?
    && (name == "get_change_details" ==>
          a.proposalId.Absent? || a.proposalId == Str("176"))
    && (name != "get_change_details" && name != "get_verified_strategies" ==>
          a.wallet.Absent?
          || (a.wallet.Str? && AddressText(a.wallet.s) && Lower(a.wallet.s) == Lower(sessionWallet)))
  }

  /** A call is authorised exactly when its name is allowlisted and its arguments parse and are acceptable. */
  lemma AuthorizedIff(call: ToolCall, parse: string -> Option<Arguments>, sessionWallet: string)
    ensures AuthorizeToolCall(call, parse, sessionWallet).Ok?
       <==> && call.name in {"get_wallet_positions", "get_change_details", "get_exposure", "run_impact_simulation",
                             "list_available_rescue_assets", "optimize_repayment", "optimize_add_collateral",
                             "get_verified_strategies", "compare_verified_strategies"}
            && parse(call.rawArguments).Some?
            && Acceptable(call.name, parse(call.rawArguments).value, sessionWallet)
    ensures AuthorizeToolCall(call, parse, sessionWallet).Ok? ==>
              var authorized := AuthorizeToolCall(call, parse, sessionWallet).value;
              var a := parse(call.rawArguments).value;
              && authorized.name == call.name
              && authorized.args.proposalId
                 == (if call.name == "get_change_details" && a.proposalId.Str? then Some("176") else None)
              && authorized.args.wallet
                 == (if call.name != "get_change_details" && call.name != "get_verified_strategies" && a.wallet.Str?
                     then Some(a.wallet.s) else None)
  {
    hide IsAddress, AddressText, Lower;
    var parsed := parse(call.rawArguments);
    if parsed.Some? && parsed.value.Arguments? && parsed.value.wallet.Str? {
      AddressIff(parsed.value.wallet.s);
    }
    assert IsNumeric("176");
  }

  lemma AuthorizedIsPermitted(call: ToolCall, parse: string -> Option<Arguments>, sessionWallet: string)
    requires AuthorizeToolCall(call, parse, sessionWallet).Ok?
    ensures Permitted(AuthorizeToolCall(call, parse, sessionWallet).value, sessionWallet)
    ensures AuthorizeToolCall(call, parse, sessionWallet).value.name == call.name
  {
  }

  // ---------- fingerprints ----------

  function ArgsTree(args: Args): Tree {
    TObj((if args.wallet.Some? then [Member("wallet", TStr(args.wallet.value))] else [])
         + (if args.proposalId.Some? then [Member("proposalId", TStr(args.proposalId.value))] else []))
  }

  /** callFingerprint on parsed arguments. */
  function CallFingerprint(a: AuthorizedToolCall): string {
    a.name + ":" + Print(ArgsTree(a.args))
  }

  /** callFingerprint on the raw argument text, as it is counted when a call is rejected. */
  function RawFingerprint(call: ToolCall): string {
    call.name + ":" + Quote(call.rawArguments)
  }

  lemma {:induction false} MembersEnd(members: seq<Member>, first: bool)
    ensures PrintMembers(members, first) != []
    ensures PrintMembers(members, first)[|PrintMembers(members, first)| - 1] == '}'
  {
    if members != [] {
      MembersEnd(members[1..], false);
    }
  }

  /** An authorised call never has the fingerprint of a rejected one: the repeat block never fires. */
  lemma FingerprintsDiffer(a: AuthorizedToolCall, call: ToolCall)
    ensures CallFingerprint(a) != RawFingerprint(call)
  {
    MembersEnd(ArgsTree(a.args).members, true);
    var x, y := CallFingerprint(a), RawFingerprint(call);
    assert x[|x| - 1] == '}';
    assert y[|y| - 1] == '\"';
  }

  // ---------- messages ----------

  datatype Message =
    | System
    | User
    | Assistant(toolCalls: seq<ToolCall>)
    | Tool(id: string, name: string, ok: bool)

  /** One answer to each of the calls, in order. */
  ghost predicate Block(calls: seq<ToolCall>, answers: seq<Message>) {
    |answers| == |calls| && forall i :: 0 <= i < |answers| ==> answers[i].Tool? && answers[i].id == calls[i].id
  }

  /** After the two opening messages: each assistant message is followed by the answers to its calls. */
  ghost predicate Answered(messages: seq<Message>)
    decreases |messages|
  {
    messages == []
    || (&& messages[0].Assistant?
        && |messages[0].toolCalls| < |messages|
        && Block(messages[0].toolCalls, messages[1..1 + |messages[0].toolCalls|])
        && Answered(messages[1 + |messages[0].toolCalls|..]))
  }

  function CountAnswers(messages: seq<Message>): nat {
    if messages == [] then 0
    else CountAnswers(messages[..|messages| - 1]) + if messages[|messages| - 1].Tool? then 1 else 0
  }

  /** Every tool call of the conversation, in order. */
  function CallsOf(messages: seq<Message>): seq<ToolCall> {
    if messages == [] then []
    else
      var last := messages[|messages| - 1];
      CallsOf(messages[..|messages| - 1]) + if last.Assistant? then last.toolCalls else []
  }

  lemma {:induction false} CountsJoin(a: seq<Message>, b: seq<Message>)
    ensures CountAnswers(a + b) == CountAnswers(a) + CountAnswers(b)
    ensures CallsOf(a + b) == CallsOf(a) + CallsOf(b)
  {
    if b == [] {
      assert a + b == a;
    } else {
      var n := |b| - 1;
      assert (a + b)[..|a| + n] == a + b[..n];
      CountsJoin(a, b[..n]);
    }
  }

  lemma {:induction false} CountTools(messages: seq<Message>)
    requires forall i :: 0 <= i < |messages| ==> messages[i].Tool?
    ensures CountAnswers(messages) == |messages| && CallsOf(messages) == []
  {
    if messages != [] {
      CountTools(messages[..|messages| - 1]);
    }
  }

  lemma CountOne(m: Message)
    ensures CountAnswers([m]) == (if m.Tool? then 1 else 0)
    ensures CallsOf([m]) == (if m.Assistant? then m.toolCalls else [])
  {
    assert [m][..0] == [];
  }

  lemma BlockCounts(calls: seq<ToolCall>, answers: seq<Message>)
    requires forall i :: 0 <= i < |answers| ==> answers[i].Tool?
    ensures CountAnswers([Assistant(calls)] + answers) == |answers|
    ensures CallsOf([Assistant(calls)] + answers) == calls
  {
    CountsJoin([Assistant(calls)], answers);
    CountOne(Assistant(calls));
    CountTools(answers);
  }

  /** In an answered conversation there are as many answers as calls. */
  lemma {:induction false} AnsweredCounts(messages: seq<Message>)
    requires Answered(messages)
    ensures CountAnswers(messages) == |CallsOf(messages)|
    decreases |messages|
  {
    hide CountAnswers, CallsOf;
    if messages != [] {
      var n := |messages[0].toolCalls|;
      var answers, rest := messages[1..1 + n], messages[1 + n..];
      assert messages == ([Assistant(messages[0].toolCalls)] + answers) + rest;
      CountsJoin([Assistant(messages[0].toolCalls)] + answers, rest);
      BlockCounts(messages[0].toolCalls, answers);
      AnsweredCounts(rest);
    } else {
      EmptyCounts();
    }
  }

  lemma EmptyCounts()
    ensures CountAnswers([]) == 0 && CallsOf([]) == []
  {
  }

  /** The first block of an answered conversation, and the rest of it. */
  lemma AnsweredHead(calls: seq<ToolCall>, answers: seq<Message>, rest: seq<Message>)
    requires Block(calls, answers) && Answered(rest)
    ensures Answered(([Assistant(calls)] + answers) + rest)
  {
    hide Answered;
    var all := ([Assistant(calls)] + answers) + rest;
    assert all[1..1 + |calls|] == answers && all[1 + |calls|..] == rest;
    AnsweredCons(all);
  }

  lemma AnsweredCons(messages: seq<Message>)
    requires messages != [] && messages[0].Assistant? && |messages[0].toolCalls| < |messages|
    requires Block(messages[0].toolCalls, messages[1..1 + |messages[0].toolCalls|])
    requires Answered(messages[1 + |messages[0].toolCalls|..])
    ensures Answered(messages)
  {
  }

  lemma AnsweredSplit(messages: seq<Message>) returns (calls: seq<ToolCall>, first: seq<Message>, rest: seq<Message>)
    requires Answered(messages) && messages != []
    ensures messages == ([Assistant(calls)] + first) + rest && |rest| < |messages|
    ensures Block(calls, first) && Answered(rest)
  {
    calls := messages[0].toolCalls;
    first, rest := messages[1..1 + |calls|], messages[1 + |calls|..];
  }

  lemma {:induction false} AnsweredGrows(messages: seq<Message>, calls: seq<ToolCall>, answers: seq<Message>)
    requires Answered(messages) && Block(calls, answers)
    ensures Answered(messages + ([Assistant(calls)] + answers))
    decreases |messages|
  {
    hide Block, Answered;
    var block := [Assistant(calls)] + answers;
    if messages == [] {
      NothingAnswered();
      AnsweredHead(calls, answers, []);
      assert block + [] == messages + block;
    } else {
      var headCalls, first, rest := AnsweredSplit(messages);
      AnsweredGrows(rest, calls, answers);
      AnsweredHead(headCalls, first, rest + block);
      assert ([Assistant(headCalls)] + first) + (rest + block) == messages + block;
    }
  }

  lemma NothingAnswered()
    ensures Answered([])
  {
  }

  // ---------- one run ----------

  datatype TraceType =
    | OBSERVATION | TOOL_CALL | TOOL_RESULT | TOOL_REJECTED | DECISION_SUMMARY | FINAL_SELECTION | MODEL_FALLBACK
    | FAILED

  /** transient is an error the loop may retry with the fallback model. */
  datatype ProviderAnswer =
    | Responds(toolCalls: seq<ToolCall>, content: string)
    | Fails(transient: bool, unavailable: bool)

  /** A tool returns null, returns a value, returns a value that cannot be printed, or throws. */
  datatype ToolOutcome = ReturnsNull | ReturnsValue | ReturnsUnprintable | Throws

  /** Everything outside: the answers of the n-th provider call and of the n-th tool execution, and the clock. */
  datatype Environment = Environment(
    provider: nat -> ProviderAnswer, tools: nat -> ToolOutcome, late: nat -> bool,
    parse: string -> Option<Arguments>, sanitize: string -> string)

  datatype Config = Config(
    plannerModel: string, fallbackModel: string, maxSteps: nat, maxInvalidCalls: nat, sessionWallet: string)

  /** A provider call: its model, the conversation it gets, and how many tools had been executed by then. */
  datatype Request = Request(model: string, messages: seq<Message>, executedBefore: nat)

  datatype Execution = Execution(call: AuthorizedToolCall, outcome: ToolOutcome)

  datatype Log = Log(
    messages: seq<Message>, requests: seq<Request>, executed: seq<Execution>, toolNames: seq<string>,
    traces: seq<TraceType>, rejections: nat, invalidCounts: map<string, nat>)

  datatype AgentResult = Completed(userSummary: string) | AgentFailed(reason: string)

  predicate IsStrategyTool(name: string) {
    name == "optimize_repayment" || name == "optimize_add_collateral" || name == "compare_verified_strategies"
  }

  /** recordStrategyTrace reads members of a strategy tool's result, and throws on null after the answer is sent. */
  predicate AnsweredTwice(e: Execution) {
    && e.call.name in {"optimize_repayment", "optimize_add_collateral", "compare_verified_strategies"}
    && e.outcome.ReturnsNull?
  }

  function CountTwice(executed: seq<Execution>): nat {
    if executed == [] then 0
    else CountTwice(executed[..|executed| - 1]) + if AnsweredTwice(executed[|executed| - 1]) then 1 else 0
  }

  // ---------- what holds throughout ----------

  /** The calls that were rejected are counted by their raw fingerprints. */
  ghost predicate CountsRaw(invalidCounts: map<string, nat>) {
    forall fp :: fp in invalidCounts ==> exists call :: fp == RawFingerprint(call)
  }

  ghost predicate AllPermitted(executed: seq<Execution>, sessionWallet: string) {
    forall i :: 0 <= i < |executed| ==> Permitted(executed[i].call, sessionWallet)
  }

  /** The tool calls of the provider's first n answers, in order. */
  function Responded(env: Environment, n: nat): seq<ToolCall> {
    if n == 0 then []
    else Responded(env, n - 1) + if env.provider(n - 1).Responds? then env.provider(n - 1).toolCalls else []
  }

  /** The tools that run for these calls: one execution for each call that is authorised. */
  function Executions(cfg: Config, env: Environment, calls: seq<ToolCall>): seq<Execution> {
    if calls == [] then []
    else
      var n := |calls| - 1;
      Executed(cfg, env, Executions(cfg, env, calls[..n]), calls[n])
  }

  /** An authorised call runs, and gets the next tool outcome. */
  function Executed(cfg: Config, env: Environment, earlier: seq<Execution>, call: ToolCall): seq<Execution> {
    match AuthorizeToolCall(call, env.parse, cfg.sessionWallet)
    case Err(_) => earlier
    case Ok(a) => earlier + [Execution(a, env.tools(|earlier|))]
  }

  function Names(calls: seq<ToolCall>): (names: seq<string>)
    ensures |names| == |calls|
  {
    seq(|calls|, i requires 0 <= i < |calls| => calls[i].name)
  }

  /** The tools that were asked for and that ran are those of the conversation. */
  ghost predicate ExecutedOk(cfg: Config, env: Environment, log: Log) {
    log.executed == Executions(cfg, env, CallsOf(log.messages)) && log.toolNames == Names(CallsOf(log.messages))
  }

  /** The executions whose result was given to the model. */
  function Given(executed: seq<Execution>): nat {
    if executed == [] then 0
    else
      var outcome := executed[|executed| - 1].outcome;
      Given(executed[..|executed| - 1]) + if outcome.ReturnsNull? || outcome.ReturnsValue? then 1 else 0
  }

  /**
   * One trace for each call, each result and each rejection; a call is rejected unless its result was
   * given, and also when it is answered twice.
   */
  ghost predicate Counted(log: Log) {
    && multiset(log.traces)[TOOL_CALL] == |log.toolNames|
    && multiset(log.traces)[TOOL_RESULT] == Given(log.executed)
    && multiset(log.traces)[TOOL_REJECTED] == log.rejections
    && log.rejections == |log.toolNames| - Given(log.executed) + CountTwice(log.executed)
  }

  /** The fallback model has answered after a call that failed. */
  predicate FellBack(env: Environment, n: nat) {
    n >= 2 && (FellBack(env, n - 1) || (env.provider(n - 2).Fails? && env.provider(n - 1).Responds?))
  }

  /** The traces of a run: one that opens it, one for the switch of model, and those that close it. */
  ghost predicate ReportedAs(env: Environment, log: Log, result: AgentResult) {
    var ending := if result.Completed? then [DECISION_SUMMARY, FINAL_SELECTION] else [TraceType.FAILED];
    && |ending| <= |log.traces|
    && var front := log.traces[..|log.traces| - |ending|];
       && log.traces == front + ending && [OBSERVATION] <= front
       && TraceType.FAILED !in front && DECISION_SUMMARY !in front && FINAL_SELECTION !in front
       && (MODEL_FALLBACK in front <==> FellBack(env, |log.requests|))
  }

  /** How many of the provider's first n answers were failures. */
  function Failures(env: Environment, n: nat): (failures: nat)
    ensures failures <= n
  {
    if n == 0 then 0 else Failures(env, n - 1) + if env.provider(n - 1).Fails? then 1 else 0
  }

  /** The steps that the first n provider calls belong to: a call after a failed one is of the same step. */
  function StepsAsked(env: Environment, n: nat): nat {
    if n == 0 then 0 else n - Failures(env, n - 1)
  }

  /**
   * The planner is asked until a call of it fails, and the fallback from then on. Only a transient
   * failure of another model than the fallback is asked again, with the same conversation.
   */
  ghost predicate AskOk(cfg: Config, env: Environment, requests: seq<Request>, k: nat)
    requires k < |requests|
  {
    && requests[k].model == (if Failures(env, k) == 0 then cfg.plannerModel else cfg.fallbackModel)
    && (k > 0 && env.provider(k - 1).Fails? ==>
          && env.provider(k - 1).transient && requests[k - 1].model != cfg.fallbackModel
          && requests[k].messages == requests[k - 1].messages)
  }

  ghost predicate AsksOk(cfg: Config, env: Environment, requests: seq<Request>) {
    forall k :: 0 <= k < |requests| ==> AskOk(cfg, env, requests, k)
  }

  function LastAnswer(env: Environment, n: nat): ProviderAnswer {
    if n == 0 then Responds([], "") else env.provider(n - 1)
  }

  /** The last answer asked for tools, or nothing was asked, and there is room for another rejection. */
  predicate GoesOn(cfg: Config, env: Environment, log: Log) {
    var n := |log.requests|;
    && (n == 0 || (env.provider(n - 1).Responds? && env.provider(n - 1).toolCalls != []))
    && log.rejections < cfg.maxInvalidCalls
  }

  /** How a run ends, by the last answer of the provider, the clock and the number of steps. */
  ghost predicate EndsAs(cfg: Config, env: Environment, log: Log, result: AgentResult) {
    var n := |log.requests|;
    var last := LastAnswer(env, n);
    var steps := StepsAsked(env, n);
    && AsksOk(cfg, env, log.requests)
    && (result.Completed? <==> n > 0 && last.Responds? && last.toolCalls == [])
    && (result.Completed? ==>
          result.userSummary == if env.sanitize(last.content) != "" then env.sanitize(last.content)
                                else "The agent finished without a user-safe summary.")
    && (result == AgentFailed("GROQ_UNAVAILABLE") <==> n > 0 && last.Fails? && last.unavailable)
    && (result == AgentFailed("BOTH_MODELS_FAILED") <==> n > 0 && last.Fails? && !last.unavailable)
    && (result == AgentFailed("TOO_MANY_INVALID_TOOL_CALLS") <==> log.rejections == cfg.maxInvalidCalls)
    && (result == AgentFailed("AGENT_TIMEOUT") <==> GoesOn(cfg, env, log) && steps < cfg.maxSteps && env.late(steps))
    && (result == AgentFailed("MAX_STEPS_REACHED") <==> GoesOn(cfg, env, log) && steps == cfg.maxSteps)
    && (result.AgentFailed? ==>
          result.reason in ["GROQ_UNAVAILABLE", "BOTH_MODELS_FAILED", "TOO_MANY_INVALID_TOOL_CALLS", "AGENT_TIMEOUT",
                            "MAX_STEPS_REACHED"])
    && steps <= cfg.maxSteps && (forall j :: 0 <= j < steps ==> !env.late(j))
    && (n > 0 && last.Fails? ==> !last.transient || log.requests[n - 1].model == cfg.fallbackModel)
  }

  /** The tools that ran by the end are those of the provider's calls, up to the one that ended the run. */
  ghost predicate ToolsOk(cfg: Config, env: Environment, log: Log, all: bool) {
    var calls := Responded(env, |log.requests|);
    exists n :: 0 <= n <= |calls| && (all ==> n == |calls|)
      && log.executed == Executions(cfg, env, calls[..n]) && log.toolNames == Names(calls[..n])
  }

  /**
   * A request holds every tool call the provider has made so far, in order, and sees each of them
   * answered exactly once, unless a strategy tool had returned null.
   */
  ghost predicate RequestsOk(cfg: Config, env: Environment, log: Log) {
    forall k :: 0 <= k < |log.requests| ==>
      && CallsOf(log.requests[k].messages) == Responded(env, k)
      && log.requests[k].executedBefore <= |log.executed|
      && log.executed[..log.requests[k].executedBefore] == Executions(cfg, env, Responded(env, k))
      && (Answered(log.requests[k].messages) <==> CountTwice(log.executed[..log.requests[k].executedBefore]) == 0)
  }

  ghost predicate MessagesOk(log: Log) {
    && CountAnswers(log.messages) == |CallsOf(log.messages)| + CountTwice(log.executed)
    && (CountTwice(log.executed) == 0 ==> Answered(log.messages))
  }

  ghost predicate LogOk(cfg: Config, env: Environment, log: Log) {
    && CountsRaw(log.invalidCounts)
    && AllPermitted(log.executed, cfg.sessionWallet)
    && RequestsOk(cfg, env, log)
  }

  /** One switch of model at most, from the planner to the fallback. */
  ghost predicate OneSwitch(cfg: Config, requests: seq<Request>) {
    exists i :: 0 <= i <= |requests|
      && OnlyModel(requests[..i], cfg.plannerModel) && OnlyModel(requests[i..], cfg.fallbackModel)
  }

  ghost predicate OnlyModel(requests: seq<Request>, model: string) {
    forall k :: 0 <= k < |requests| ==> requests[k].model == model
  }

  // ---------- one tool call ----------

  function Reject(log: Log, call: ToolCall): Log {
    var fp := RawFingerprint(call);
    var seen := if fp in log.invalidCounts then log.invalidCounts[fp] else 0;
    log.(rejections := log.rejections + 1, invalidCounts := log.invalidCounts[fp := seen + 1],
         traces := log.traces + [TOOL_REJECTED], messages := log.messages + [Tool(call.id, call.name, false)])
  }

  /** What a step of the loop leaves alone or only extends. */
  ghost predicate LogGrows(before: Log, after: Log) {
    && after.requests == before.requests
    && before.executed <= after.executed
  }

  predicate OnlyToolTraces(before: seq<TraceType>, after: seq<TraceType>) {
    && before <= after
    && forall t :: t in after[|before|..] ==> t in {TOOL_CALL, TOOL_RESULT, TOOL_REJECTED}
  }

  lemma {:induction false} CountTwicePrefix(executed: seq<Execution>, more: seq<Execution>)
    requires executed <= more
    ensures CountTwice(executed) <= CountTwice(more)
    decreases |more|
  {
    if executed != more {
      CountTwicePrefix(executed, more[..|more| - 1]);
    }
  }

  lemma RequestsStayOk(cfg: Config, env: Environment, before: Log, after: Log)
    requires RequestsOk(cfg, env, before) && LogGrows(before, after)
    ensures RequestsOk(cfg, env, after)
  {
    hide Answered, CallsOf, Responded, Executions;
    forall k | 0 <= k < |after.requests|
      ensures CallsOf(after.requests[k].messages) == Responded(env, k)
      ensures after.requests[k].executedBefore <= |after.executed|
      ensures after.executed[..after.requests[k].executedBefore] == Executions(cfg, env, Responded(env, k))
      ensures Answered(after.requests[k].messages)
         <==> CountTwice(after.executed[..after.requests[k].executedBefore]) == 0
    {
      var n := before.requests[k].executedBefore;
      assert after.executed[..n] == before.executed[..n];
    }
  }

  /** What is traced for one call, by what ran for it. */
  function TracesOfCall(ran: seq<Execution>): seq<TraceType> {
    if ran == [] || ran[0].outcome.Throws? || ran[0].outcome.ReturnsUnprintable? then [TOOL_CALL, TOOL_REJECTED]
    else if AnsweredTwice(ran[0]) then [TOOL_CALL, TOOL_RESULT, TOOL_REJECTED]
    else [TOOL_CALL, TOOL_RESULT]
  }

  /** How often a call is rejected. */
  function RejectionsOfCall(ran: seq<Execution>): nat {
    if TracesOfCall(ran) == [TOOL_CALL, TOOL_RESULT] then 0 else 1
  }

  lemma JoinedCount(before: seq<TraceType>, more: seq<TraceType>, t: TraceType)
    ensures multiset(before + more)[t] == multiset(before)[t] + multiset(more)[t]
  {
    assert multiset(before + more) == multiset(before) + multiset(more);
  }

  lemma CountsOfCall(ran: seq<Execution>)
    ensures var traces := multiset(TracesOfCall(ran));
            && traces[TOOL_CALL] == 1
            && traces[TOOL_RESULT] == (if ran == [] || ran[0].outcome.Throws? || ran[0].outcome.ReturnsUnprintable?
                                       then 0 else 1)
            && traces[TOOL_REJECTED] == RejectionsOfCall(ran)
  {
  }

  lemma GivenOneMore(executed: seq<Execution>, ran: seq<Execution>)
    requires |ran| <= 1
    ensures Given(executed + ran) == Given(executed) + (if ran == [] || ran[0].outcome.Throws?
                                                           || ran[0].outcome.ReturnsUnprintable? then 0 else 1)
    ensures CountTwice(executed + ran) == CountTwice(executed) + (if ran != [] && AnsweredTwice(ran[0]) then 1 else 0)
  {
    if ran == [] {
      assert executed + ran == executed;
    } else {
      assert (executed + ran)[..|executed + ran| - 1] == executed;
    }
  }

  /** The step that one call makes in the counts. */
  lemma CallCounted(log: Log, after: Log, ran: seq<Execution>)
    requires Counted(log) && |after.toolNames| == |log.toolNames| + 1
    requires |ran| <= 1 && after.executed == log.executed + ran && after.traces == log.traces + TracesOfCall(ran)
    requires after.rejections == log.rejections + RejectionsOfCall(ran)
    ensures Counted(after)
  {
    hide Given, CountTwice;
    CountsOfCall(ran);
    GivenOneMore(log.executed, ran);
    JoinedCount(log.traces, TracesOfCall(ran), TOOL_CALL);
    JoinedCount(log.traces, TracesOfCall(ran), TOOL_RESULT);
    JoinedCount(log.traces, TracesOfCall(ran), TOOL_REJECTED);
  }

  lemma CallTraced(log: Log, after: Log, ran: seq<Execution>)
    requires after.traces == log.traces + TracesOfCall(ran)
    ensures OnlyToolTraces(log.traces, after.traces)
  {
    assert after.traces[|log.traces|..] == TracesOfCall(ran);
  }

  method HandleCall(cfg: Config, env: Environment, log: Log, call: ToolCall) returns (after: Log)
    requires LogOk(cfg, env, log)
    ensures LogOk(cfg, env, after) && LogGrows(log, after)
    ensures log.messages <= after.messages
    ensures forall i :: |log.messages| <= i < |after.messages| ==>
              after.messages[i].Tool? && after.messages[i].id == call.id
    ensures |after.messages| - |log.messages| == 1 + CountTwice(after.executed) - CountTwice(log.executed)
    ensures after.rejections == log.rejections + RejectionsOfCall(after.executed[|log.executed|..])
    ensures |after.executed| <= |log.executed| + 1
    ensures after.toolNames == log.toolNames + [call.name]
    ensures after.traces == log.traces + TracesOfCall(after.executed[|log.executed|..])
    ensures after.executed == Executed(cfg, env, log.executed, call)
    ensures after.messages[|log.messages|].ok <==>
              |after.executed| > |log.executed|
              && (after.executed[|log.executed|].outcome.ReturnsNull?
                  || after.executed[|log.executed|].outcome.ReturnsValue?)
    ensures after.rejections == log.rejections
       <==> |after.messages| == |log.messages| + 1 && after.messages[|log.messages|].ok
  {
    hide Answered, RequestsOk, AuthorizeToolCall, CallFingerprint, RawFingerprint, Permitted, CountTwice, Given;
    after := log.(toolNames := log.toolNames + [call.name], traces := log.traces + [TOOL_CALL]);
    var authorized := AuthorizeToolCall(call, env.parse, cfg.sessionWallet);
    if authorized.Err? {
      after := Reject(after, call);
      RequestsStayOk(cfg, env, log, after);
      assert after.executed[|log.executed|..] == [];
      return;
    }
    AuthorizedIsPermitted(call, env.parse, cfg.sessionWallet);
    var fp := CallFingerprint(authorized.value);
    if fp in after.invalidCounts && after.invalidCounts[fp] >= 2 {
      var other :| fp == RawFingerprint(other);
      FingerprintsDiffer(authorized.value, other);
      assert false;
    }
    var outcome := env.tools(|after.executed|);
    after := after.(executed := after.executed + [Execution(authorized.value, outcome)]);
    assert after.executed[..|log.executed|] == log.executed;
    if outcome.Throws? || outcome.ReturnsUnprintable? {
      after := Reject(after, call);
    } else {
      after := after.(messages := after.messages + [Tool(call.id, call.name, true)],
                      traces := after.traces + [TOOL_RESULT]);
      if IsStrategyTool(call.name) && outcome.ReturnsNull? {
        after := Reject(after, call);
      }
    }
    assert after.executed[|log.executed|..] == [Execution(authorized.value, outcome)];
    GivenOneMore(log.executed, [Execution(authorized.value, outcome)]);
    RequestsStayOk(cfg, env, log, after);
  }

  /** The calls of one response, in order; the run fails once there are too many rejections. */
  method HandleCalls(cfg: Config, env: Environment, log: Log, calls: seq<ToolCall>) returns (after: Log, failed: bool)
    requires LogOk(cfg, env, log) && MessagesOk(log) && ExecutedOk(cfg, env, log)
    requires log.rejections < cfg.maxInvalidCalls && Counted(log)
    ensures LogOk(cfg, env, after) && LogGrows(log, after)
    ensures !failed ==> MessagesOk(after) && after.rejections < cfg.maxInvalidCalls
    ensures !failed ==> ExecutedOk(cfg, env, after) && CallsOf(after.messages) == CallsOf(log.messages) + calls
    ensures failed ==> after.rejections == cfg.maxInvalidCalls
    ensures failed ==>
              exists n :: 0 < n <= |calls|
                && after.executed == Executions(cfg, env, CallsOf(log.messages) + calls[..n])
                && after.toolNames == Names(CallsOf(log.messages) + calls[..n])
    ensures Counted(after) && OnlyToolTraces(log.traces, after.traces)
  {
    hide LogOk, Answered, CountTwice, CountAnswers, CallsOf, Block, Executions, OnlyToolTraces, Names;
    hide Counted, TracesOfCall;
    var front := log.messages;
    after := log.(messages := front + [Assistant(calls)]);
    ghost var answers: seq<Message> := [];
    StartBlock(cfg, env, log, after);
    SameCounts(log, after);
    assert CallsOf(front) + calls[..0] == CallsOf(front);
    NothingTraced(log.traces);
    for i := 0 to |calls|
      invariant LogOk(cfg, env, after) && LogGrows(log, after) && after.rejections < cfg.maxInvalidCalls
      invariant after.executed == Executions(cfg, env, CallsOf(front) + calls[..i])
      invariant after.toolNames == Names(CallsOf(front) + calls[..i])
      invariant Counted(after) && OnlyToolTraces(log.traces, after.traces)
      invariant after.messages == front + ([Assistant(calls)] + answers)
      invariant forall k :: 0 <= k < |answers| ==> answers[k].Tool?
      invariant |answers| == i + CountTwice(after.executed) - CountTwice(log.executed)
      invariant CountTwice(after.executed) >= CountTwice(log.executed)
      invariant CountTwice(after.executed) == CountTwice(log.executed) ==> Block(calls[..i], answers)
    {
      var before := after;
      after := HandleCall(cfg, env, before, calls[i]);
      CountTwicePrefix(before.executed, after.executed);
      ExecutionsStep(cfg, env, CallsOf(front), calls, i);
      NamesStep(CallsOf(front), calls, i);
      ghost var ran := after.executed[|before.executed|..];
      assert after.executed == before.executed + ran;
      CallCounted(before, after, ran);
      CallTraced(before, after, ran);
      MoreToolTraces(log.traces, before.traces, after.traces);
      ghost var more := after.messages[|before.messages|..];
      BlockGrows(calls, i, answers, more);
      answers := answers + more;
      assert after.messages == front + ([Assistant(calls)] + answers);
      if after.rejections >= cfg.maxInvalidCalls {
        return after, true;
      }
    }
    assert calls[..|calls|] == calls;
    EndBlock(log, after, calls, answers);
    failed := false;
  }

  lemma StartBlock(cfg: Config, env: Environment, log: Log, after: Log)
    requires LogOk(cfg, env, log) && after.requests == log.requests && after.executed == log.executed
    requires after.invalidCounts == log.invalidCounts
    ensures LogOk(cfg, env, after) && LogGrows(log, after) && Block([], [])
  {
    RequestsStayOk(cfg, env, log, after);
  }

  lemma ExecutionsStep(cfg: Config, env: Environment, earlier: seq<ToolCall>, calls: seq<ToolCall>, i: nat)
    requires i < |calls|
    ensures Executions(cfg, env, earlier + calls[..i + 1])
         == Executed(cfg, env, Executions(cfg, env, earlier + calls[..i]), calls[i])
  {
    var all := earlier + calls[..i + 1];
    assert all[..|all| - 1] == earlier + calls[..i] && all[|all| - 1] == calls[i];
  }

  lemma NamesStep(earlier: seq<ToolCall>, calls: seq<ToolCall>, i: nat)
    requires i < |calls|
    ensures Names(earlier + calls[..i + 1]) == Names(earlier + calls[..i]) + [calls[i].name]
  {
    assert earlier + calls[..i + 1] == (earlier + calls[..i]) + [calls[i]];
  }

  lemma SameCounts(log: Log, after: Log)
    requires Counted(log) && after.traces == log.traces && after.toolNames == log.toolNames
    requires after.rejections == log.rejections && after.executed == log.executed
    ensures Counted(after)
  {
  }

  lemma NothingTraced(traces: seq<TraceType>)
    ensures OnlyToolTraces(traces, traces)
  {
  }

  lemma MoreToolTraces(a: seq<TraceType>, b: seq<TraceType>, c: seq<TraceType>)
    requires OnlyToolTraces(a, b) && OnlyToolTraces(b, c)
    ensures OnlyToolTraces(a, c)
  {
    assert c[|a|..] == b[|a|..] + c[|b|..];
  }

  lemma BlockGrows(calls: seq<ToolCall>, i: nat, answers: seq<Message>, more: seq<Message>)
    requires i < |calls| && forall k :: 0 <= k < |more| ==> more[k].Tool? && more[k].id == calls[i].id
    ensures Block(calls[..i], answers) && |more| == 1 ==> Block(calls[..i + 1], answers + more)
  {
  }

  lemma EndBlock(log: Log, after: Log, calls: seq<ToolCall>, answers: seq<Message>)
    requires MessagesOk(log) && log.executed <= after.executed
    requires after.messages == log.messages + ([Assistant(calls)] + answers)
    requires forall k :: 0 <= k < |answers| ==> answers[k].Tool?
    requires |answers| == |calls| + CountTwice(after.executed) - CountTwice(log.executed)
    requires CountTwice(after.executed) == CountTwice(log.executed) ==> Block(calls, answers)
    ensures MessagesOk(after) && CallsOf(after.messages) == CallsOf(log.messages) + calls
  {
    hide Answered, CountTwice, CountAnswers, CallsOf, Block;
    CountsJoin(log.messages, [Assistant(calls)] + answers);
    BlockCounts(calls, answers);
    CountTwicePrefix(log.executed, after.executed);
    if CountTwice(after.executed) == 0 {
      AnsweredGrows(log.messages, calls, answers);
    }
  }

  // ---------- the provider ----------

  function Asked(log: Log, model: string): Log {
    log.(requests := log.requests + [Request(model, log.messages, |log.executed|)])
  }

  lemma AskedOk(cfg: Config, env: Environment, log: Log, model: string)
    requires LogOk(cfg, env, log) && MessagesOk(log) && ExecutedOk(cfg, env, log)
    requires CallsOf(log.messages) == Responded(env, |log.requests|)
    ensures LogOk(cfg, env, Asked(log, model))
  {
    hide Answered, CountTwice, CountAnswers, CallsOf, Responded, Executions;
    if Answered(log.messages) {
      AnsweredCounts(log.messages);
    }
    assert log.executed[..|log.executed|] == log.executed;
  }

  /** completeWithFallback: at most one more call, to the fallback model. */
  method CompleteWithFallback(cfg: Config, env: Environment, log: Log, model: string, usedFallback: bool)
    returns (after: Log, answer: ProviderAnswer, switched: bool)
    requires LogOk(cfg, env, log) && MessagesOk(log) && ExecutedOk(cfg, env, log)
    requires CallsOf(log.messages) == Responded(env, |log.requests|)
    ensures LogOk(cfg, env, after) && MessagesOk(after) && after.rejections == log.rejections
    ensures after.executed == log.executed && after.messages == log.messages
    ensures after.toolNames == log.toolNames && after.traces == log.traces
    ensures CallsOf(after.messages) + (if answer.Responds? then answer.toolCalls else [])
         == Responded(env, |after.requests|)
    ensures after.requests == log.requests + [Request(model, log.messages, |log.executed|)]
         || (!usedFallback && model != cfg.fallbackModel
             && after.requests == log.requests + [Request(model, log.messages, |log.executed|),
                                                  Request(cfg.fallbackModel, log.messages, |log.executed|)])
    ensures answer == env.provider(|after.requests| - 1)
    ensures var first := env.provider(|log.requests|);
            |after.requests| == |log.requests| + 2
            <==> first.Fails? && first.transient && !usedFallback && model != cfg.fallbackModel
    ensures switched <==> |after.requests| == |log.requests| + 2 && answer.Responds?
  {
    hide LogOk, CallsOf, Executions;
    assert CallsOf(log.messages) + [] == CallsOf(log.messages);
    AskedOk(cfg, env, log, model);
    after := Asked(log, model);
    answer := env.provider(|log.requests|);
    switched := false;
    if answer.Fails? && answer.transient && !usedFallback && cfg.fallbackModel != model {
      AskedOk(cfg, env, after, cfg.fallbackModel);
      answer := env.provider(|after.requests|);
      after := Asked(after, cfg.fallbackModel);
      switched := answer.Responds?;
    }
  }

  /** The models asked so far: the planner only, or the fallback from one call on. */
  ghost predicate ModelsOk(cfg: Config, requests: seq<Request>, model: string, usedFallback: bool) {
    if usedFallback then model == cfg.fallbackModel && OneSwitch(cfg, requests)
    else model == cfg.plannerModel && OnlyModel(requests, cfg.plannerModel)
  }

  lemma OnlyPlannerIsOneSwitch(cfg: Config, requests: seq<Request>)
    requires OnlyModel(requests, cfg.plannerModel)
    ensures OneSwitch(cfg, requests)
  {
    assert requests[..|requests|] == requests && requests[|requests|..] == [];
  }

  lemma NextRequest(cfg: Config, requests: seq<Request>, model: string, usedFallback: bool, r: Request)
    requires ModelsOk(cfg, requests, model, usedFallback) && r.model == model
    ensures ModelsOk(cfg, requests + [r], model, usedFallback)
  {
    if usedFallback {
      var i :| 0 <= i <= |requests|
        && OnlyModel(requests[..i], cfg.plannerModel) && OnlyModel(requests[i..], cfg.fallbackModel);
      assert (requests + [r])[..i] == requests[..i] && (requests + [r])[i..] == requests[i..] + [r];
    }
  }

  lemma SwitchRequest(cfg: Config, requests: seq<Request>, r: Request, f: Request)
    requires OnlyModel(requests, cfg.plannerModel) && r.model == cfg.plannerModel && f.model == cfg.fallbackModel
    ensures OneSwitch(cfg, requests + [r, f])
  {
    var all := requests + [r, f];
    assert all[..|requests| + 1] == requests + [r] && all[|requests| + 1..] == [f];
  }

  // ---------- the loop ----------

  lemma AllToolsRan(cfg: Config, env: Environment, log: Log)
    requires ExecutedOk(cfg, env, log) && CallsOf(log.messages) == Responded(env, |log.requests|)
    ensures ToolsOk(cfg, env, log, true)
  {
    var calls := Responded(env, |log.requests|);
    assert calls[..|calls|] == calls;
  }

  lemma SomeToolsRan(cfg: Config, env: Environment, log: Log, earlier: seq<ToolCall>, calls: seq<ToolCall>, n: nat)
    requires earlier + calls == Responded(env, |log.requests|) && n <= |calls|
    requires log.executed == Executions(cfg, env, earlier + calls[..n]) && log.toolNames == Names(earlier + calls[..n])
    ensures ToolsOk(cfg, env, log, false)
  {
    hide Executions, Responded;
    var all := Responded(env, |log.requests|);
    assert all[..|earlier| + n] == earlier + calls[..n];
  }

  /** What a run has to show for itself when it ends. */
  ghost predicate RunOk(cfg: Config, env: Environment, log: Log) {
    && OneSwitch(cfg, log.requests)
    && RequestsOk(cfg, env, log)
    && AllPermitted(log.executed, cfg.sessionWallet)
  }

  lemma FreshLogOk(cfg: Config, env: Environment, log: Log)
    requires log.messages == [] && log.requests == [] && log.executed == [] && log.invalidCounts == map[]
    requires log.toolNames == [] && log.traces == [OBSERVATION] && log.rejections == 0
    ensures LogOk(cfg, env, log) && MessagesOk(log) && OnlyModel(log.requests, cfg.plannerModel)
    ensures ExecutedOk(cfg, env, log) && CallsOf(log.messages) == Responded(env, |log.requests|)
  {
  }

  function Traced(log: Log, traces: seq<TraceType>): Log {
    log.(traces := log.traces + traces)
  }

  lemma TracedOk(cfg: Config, env: Environment, log: Log, traces: seq<TraceType>)
    requires LogOk(cfg, env, log)
    ensures LogOk(cfg, env, Traced(log, traces))
    ensures MessagesOk(log) ==> MessagesOk(Traced(log, traces))
  {
    RequestsStayOk(cfg, env, log, Traced(log, traces));
  }

  lemma EndOfRun(cfg: Config, env: Environment, log: Log, traces: seq<TraceType>, model: string, usedFallback: bool)
    requires LogOk(cfg, env, log) && (OneSwitch(cfg, log.requests) || ModelsOk(cfg, log.requests, model, usedFallback))
    ensures RunOk(cfg, env, Traced(log, traces))
  {
    TracedOk(cfg, env, log, traces);
    if !OneSwitch(cfg, log.requests) {
      OnlyPlannerIsOneSwitch(cfg, log.requests);
    }
  }

  /** The models after one provider call: the same, or the fallback from now on. */
  lemma ModelsAfterCall(cfg: Config, before: Log, after: Log, model: string, usedFallback: bool)
    requires ModelsOk(cfg, before.requests, model, usedFallback)
    requires after.requests == before.requests + [Request(model, before.messages, |before.executed|)]
          || (!usedFallback && after.requests
                == before.requests + [Request(model, before.messages, |before.executed|),
                                      Request(cfg.fallbackModel, before.messages, |before.executed|)])
    ensures |after.requests| == |before.requests| + 1 ==> ModelsOk(cfg, after.requests, model, usedFallback)
    ensures |after.requests| == |before.requests| + 2 ==>
              !usedFallback && ModelsOk(cfg, after.requests, cfg.fallbackModel, true)
    ensures OneSwitch(cfg, after.requests)
  {
    if |after.requests| == |before.requests| + 1 {
      NextRequest(cfg, before.requests, model, usedFallback, Request(model, before.messages, |before.executed|));
      if !usedFallback {
        OnlyPlannerIsOneSwitch(cfg, after.requests);
      }
    } else {
      SwitchRequest(cfg, before.requests, Request(model, before.messages, |before.executed|),
                    Request(cfg.fallbackModel, before.messages, |before.executed|));
    }
  }

  /** Between two steps: every step so far was in time and ended with an answer that asked for tools. */
  ghost predicate Running(cfg: Config, env: Environment, log: Log, model: string, usedFallback: bool, step: nat) {
    var n := |log.requests|;
    && AsksOk(cfg, env, log.requests)
    && (n > 0 ==> env.provider(n - 1).Responds? && env.provider(n - 1).toolCalls != [])
    && (usedFallback <==> Failures(env, n) > 0)
    && model == (if usedFallback then cfg.fallbackModel else cfg.plannerModel)
    && n == step + Failures(env, n)
    && forall j :: 0 <= j < step ==> !env.late(j)
  }

  /** After the calls of a step that was in time. */
  ghost predicate Stepped(cfg: Config, env: Environment, log: Log, usedFallback: bool, step: nat) {
    var n := |log.requests|;
    && n > 0 && AsksOk(cfg, env, log.requests) && StepsAsked(env, n) == step + 1
    && (forall j :: 0 <= j < step + 1 ==> !env.late(j))
    && (env.provider(n - 1).Fails? ==>
          !env.provider(n - 1).transient || log.requests[n - 1].model == cfg.fallbackModel)
    && (env.provider(n - 1).Responds? ==> n == step + 1 + Failures(env, n) && (usedFallback <==> Failures(env, n) > 0))
  }

  lemma RunningAtStart(cfg: Config, env: Environment, log: Log)
    requires log.requests == []
    ensures Running(cfg, env, log, cfg.plannerModel, false, 0)
  {
    hide Failures;
    NothingAsked(env);
    var n := |log.requests|;
    assert n == 0 && Failures(env, n) == 0;
  }

  lemma OneMoreAsk(cfg: Config, env: Environment, requests: seq<Request>, r: Request)
    requires AsksOk(cfg, env, requests)
    requires var k := |requests|;
             && r.model == (if Failures(env, k) == 0 then cfg.plannerModel else cfg.fallbackModel)
             && (k > 0 && env.provider(k - 1).Fails? ==>
                   && env.provider(k - 1).transient && requests[k - 1].model != cfg.fallbackModel
                   && r.messages == requests[k - 1].messages)
    ensures AsksOk(cfg, env, requests + [r])
  {
    hide Failures;
    var all := requests + [r];
    forall k | 0 <= k < |all|
      ensures AskOk(cfg, env, all, k)
    {
      if k < |requests| {
        assert AskOk(cfg, env, requests, k);
      }
    }
  }

  /** One step's calls: one of the current model, or a failed one and one of the fallback. */
  lemma AfterAsking(cfg: Config, env: Environment, log: Log, asked: Log, model: string, usedFallback: bool, step: nat)
    requires Running(cfg, env, log, model, usedFallback, step) && !env.late(step)
    requires asked.requests == log.requests + [Request(model, log.messages, |log.executed|)]
    requires var first := env.provider(|log.requests|);
             !(first.Fails? && first.transient && !usedFallback && model != cfg.fallbackModel)
    ensures Stepped(cfg, env, asked, usedFallback, step)
  {
    hide Failures, AsksOk;
    OneMoreAsk(cfg, env, log.requests, Request(model, log.messages, |log.executed|));
    LastOfStep(env, |log.requests|);
  }

  lemma AfterAskingTwice(
      cfg: Config, env: Environment, log: Log, asked: Log, model: string, usedFallback: bool, step: nat)
    requires Running(cfg, env, log, model, usedFallback, step) && !env.late(step)
    requires asked.requests == log.requests + [Request(model, log.messages, |log.executed|),
                                               Request(cfg.fallbackModel, log.messages, |log.executed|)]
    requires var first := env.provider(|log.requests|);
             first.Fails? && first.transient && !usedFallback && model != cfg.fallbackModel
    ensures Stepped(cfg, env, asked, true, step)
  {
    hide Failures, AsksOk;
    var n := |log.requests|;
    var r, f := Request(model, log.messages, |log.executed|), Request(cfg.fallbackModel, log.messages, |log.executed|);
    LastOfStep(env, n);
    LastOfStep(env, n + 1);
    OneMoreAsk(cfg, env, log.requests, r);
    OneMoreAsk(cfg, env, log.requests + [r], f);
    assert log.requests + [r, f] == log.requests + [r] + [f];
  }

  lemma GoesOnRunning(cfg: Config, env: Environment, asked: Log, log: Log, model: string, usedFallback: bool, step: nat)
    requires Stepped(cfg, env, asked, usedFallback, step) && log.requests == asked.requests
    requires LastAnswer(env, |log.requests|).Responds? && LastAnswer(env, |log.requests|).toolCalls != []
    requires model == if usedFallback then cfg.fallbackModel else cfg.plannerModel
    ensures Running(cfg, env, log, model, usedFallback, step + 1)
  {
    hide Failures, AsksOk;
  }

  lemma EndsBetweenSteps(
      cfg: Config, env: Environment, log: Log, after: Log, model: string, usedFallback: bool, step: nat)
    requires Running(cfg, env, log, model, usedFallback, step) && step <= cfg.maxSteps
    requires after.requests == log.requests && after.rejections < cfg.maxInvalidCalls
    ensures step < cfg.maxSteps && env.late(step) ==> EndsAs(cfg, env, after, AgentFailed("AGENT_TIMEOUT"))
    ensures step == cfg.maxSteps ==> EndsAs(cfg, env, after, AgentFailed("MAX_STEPS_REACHED"))
  {
    hide Failures, AsksOk;
    if |log.requests| > 0 {
      LastOfStep(env, |log.requests| - 1);
    } else {
      NothingAsked(env);
    }
  }

  lemma NothingAsked(env: Environment)
    ensures Failures(env, 0) == 0 && StepsAsked(env, 0) == 0
  {
  }

  /** The traces while a run goes on. */
  ghost predicate Reported(env: Environment, log: Log) {
    && [OBSERVATION] <= log.traces
    && TraceType.FAILED !in log.traces && DECISION_SUMMARY !in log.traces && FINAL_SELECTION !in log.traces
    && (MODEL_FALLBACK in log.traces <==> FellBack(env, |log.requests|))
  }

  lemma ReportedAtStart(env: Environment, log: Log)
    requires log.requests == [] && log.traces == [OBSERVATION]
    ensures Reported(env, log)
  {
  }

  /** The switch of model is traced when the second call of a step answers. */
  lemma ReportedAfterCall(env: Environment, log: Log, asked: Log, after: Log)
    requires Reported(env, log) && asked.traces == log.traces
    requires |asked.requests| == |log.requests| + 1 || |asked.requests| == |log.requests| + 2
    requires |log.requests| > 0 ==> env.provider(|log.requests| - 1).Responds?
    requires |asked.requests| == |log.requests| + 2 ==> env.provider(|log.requests|).Fails?
    requires after == if |asked.requests| == |log.requests| + 2 && env.provider(|log.requests| + 1).Responds?
                      then Traced(asked, [MODEL_FALLBACK]) else asked
    ensures Reported(env, after)
  {
    var n := |log.requests|;
    assert FellBack(env, n + 1) <==> FellBack(env, n);
    assert FellBack(env, n + 2) <==> FellBack(env, n + 1)
                                     || (env.provider(n).Fails? && env.provider(n + 1).Responds?);
  }

  lemma ReportedAfterTools(env: Environment, log: Log, after: Log)
    requires Reported(env, log) && OnlyToolTraces(log.traces, after.traces) && after.requests == log.requests
    ensures Reported(env, after)
  {
    assert after.traces == log.traces + after.traces[|log.traces|..];
  }

  lemma ReportedAtEnd(env: Environment, log: Log, result: AgentResult)
    requires Reported(env, log)
    ensures ReportedAs(env, Traced(log, if result.Completed? then [DECISION_SUMMARY, FINAL_SELECTION]
                                        else [TraceType.FAILED]), result)
  {
    var ending := if result.Completed? then [DECISION_SUMMARY, FINAL_SELECTION] else [TraceType.FAILED];
    var traces := log.traces + ending;
    assert traces[..|traces| - |ending|] == log.traces;
  }

  /** The reason for which a run ends with the last answer, if that asks for no tools. */
  function ResultOf(env: Environment, last: ProviderAnswer): AgentResult {
    match last
    case Responds(_, content) =>
      var summary := env.sanitize(content);
      Completed(if summary != "" then summary else "The agent finished without a user-safe summary.")
    case Fails(_, unavailable) => AgentFailed(if unavailable then "GROQ_UNAVAILABLE" else "BOTH_MODELS_FAILED")
  }

  lemma EndsWithAnswer(cfg: Config, env: Environment, asked: Log, after: Log, usedFallback: bool, step: nat)
    requires Stepped(cfg, env, asked, usedFallback, step) && step < cfg.maxSteps
    requires after.requests == asked.requests && after.rejections < cfg.maxInvalidCalls
    requires var last := LastAnswer(env, |asked.requests|); last.Fails? || last.toolCalls == []
    ensures EndsAs(cfg, env, after, ResultOf(env, LastAnswer(env, |asked.requests|)))
  {
    hide Failures, AsksOk;
  }

  lemma EndsOnRejections(cfg: Config, env: Environment, asked: Log, after: Log, usedFallback: bool, step: nat)
    requires Stepped(cfg, env, asked, usedFallback, step) && step < cfg.maxSteps
    requires after.requests == asked.requests && after.rejections == cfg.maxInvalidCalls
    requires var last := LastAnswer(env, |asked.requests|); last.Responds? && last.toolCalls != []
    ensures EndsAs(cfg, env, after, AgentFailed("TOO_MANY_INVALID_TOOL_CALLS"))
  {
    hide Failures, AsksOk;
  }

  lemma LastOfStep(env: Environment, n: nat)
    ensures Failures(env, n + 1) == Failures(env, n) + if env.provider(n).Fails? then 1 else 0
    ensures StepsAsked(env, n + 1) == n + 1 - Failures(env, n)
  {
  }

  // ---------- a whole run ----------

  /**
   * What a run leaves, for every provider, every tool behaviour and every clock: at most one provider
   * call more than there are steps; one switch to the fallback model at most, and none back; every
   * provider call sees each earlier tool call answered exactly once and in order, unless a strategy
   * tool has returned null; the tools that run are those of the authorised calls, in order, and all
   * of them unless the run ends on rejections; they run for allowlisted names and the session's
   * wallet only; rejections stay within the cap; there is one trace for each call, result and
   * rejection. EndsAs says how the run ends: with the summary of an answer without tool calls, or
   * with the reason that applies.
   */
  ghost predicate Outcome(cfg: Config, env: Environment, log: Log, result: AgentResult) {
    var rejected := result == AgentFailed("TOO_MANY_INVALID_TOOL_CALLS");
    && |log.requests| <= cfg.maxSteps + 1
    && OneSwitch(cfg, log.requests)
    && RequestsOk(cfg, env, log)
    && ToolsOk(cfg, env, log, !rejected)
    && AllPermitted(log.executed, cfg.sessionWallet)
    && log.rejections <= cfg.maxInvalidCalls && (log.rejections == cfg.maxInvalidCalls <==> rejected)
    && Counted(log) && ReportedAs(env, log, result)
    && EndsAs(cfg, env, log, result)
    && (result.Completed? ==> result.userSummary != "")
  }

  /** What holds between two steps. */
  ghost predicate Between(cfg: Config, env: Environment, log: Log, model: string, usedFallback: bool, step: nat) {
    && LogOk(cfg, env, log) && MessagesOk(log) && Counted(log) && log.rejections < cfg.maxInvalidCalls
    && ExecutedOk(cfg, env, log) && CallsOf(log.messages) == Responded(env, |log.requests|)
    && ModelsOk(cfg, log.requests, model, usedFallback)
    && step <= cfg.maxSteps && |log.requests| <= step + (if usedFallback then 1 else 0)
    && Running(cfg, env, log, model, usedFallback, step) && Reported(env, log)
  }

  /** What holds once the provider has answered. */
  ghost predicate Answering(
      cfg: Config, env: Environment, log: Log, model: string, usedFallback: bool, step: nat, answer: ProviderAnswer)
  {
    && LogOk(cfg, env, log) && MessagesOk(log) && Counted(log) && log.rejections < cfg.maxInvalidCalls
    && ExecutedOk(cfg, env, log)
    && CallsOf(log.messages) + (if answer.Responds? then answer.toolCalls else []) == Responded(env, |log.requests|)
    && ModelsOk(cfg, log.requests, model, usedFallback)
    && step < cfg.maxSteps && |log.requests| <= step + 1 + (if usedFallback then 1 else 0)
    && Stepped(cfg, env, log, usedFallback, step) && Reported(env, log)
    && |log.requests| > 0 && answer == env.provider(|log.requests| - 1)
  }

  lemma Begins(cfg: Config, env: Environment, log: Log)
    requires log == Log([], [], [], [], [OBSERVATION], 0, map[]) && cfg.maxInvalidCalls > 0
    ensures Between(cfg, env, log, cfg.plannerModel, false, 0)
  {
    hide LogOk, MessagesOk, ModelsOk, Running, Reported;
    FreshLogOk(cfg, env, log);
    StartModels(cfg, log);
    RunningAtStart(cfg, env, log);
    ReportedAtStart(env, log);
  }

  lemma StartModels(cfg: Config, log: Log)
    requires log.requests == []
    ensures ModelsOk(cfg, log.requests, cfg.plannerModel, false)
  {
  }

  lemma CountedTraced(log: Log, traces: seq<TraceType>)
    requires Counted(log) && TOOL_CALL !in traces && TOOL_RESULT !in traces && TOOL_REJECTED !in traces
    ensures Counted(Traced(log, traces))
  {
    JoinedCount(log.traces, traces, TOOL_CALL);
    JoinedCount(log.traces, traces, TOOL_RESULT);
    JoinedCount(log.traces, traces, TOOL_REJECTED);
  }

  function Ending(result: AgentResult): seq<TraceType> {
    if result.Completed? then [DECISION_SUMMARY, FINAL_SELECTION] else [TraceType.FAILED]
  }

  lemma ToolsTraced(cfg: Config, env: Environment, log: Log, traces: seq<TraceType>, all: bool)
    requires ToolsOk(cfg, env, log, all)
    ensures ToolsOk(cfg, env, Traced(log, traces), all)
  {
    hide Executions, Names, Responded;
  }

  /** The last traces complete the outcome. */
  lemma Closes(
      cfg: Config, env: Environment, log: Log, result: AgentResult, model: string, usedFallback: bool)
    requires LogOk(cfg, env, log) && Counted(log) && Reported(env, log)
    requires OneSwitch(cfg, log.requests) || ModelsOk(cfg, log.requests, model, usedFallback)
    requires |log.requests| <= cfg.maxSteps + 1 && log.rejections <= cfg.maxInvalidCalls
    requires var rejected := result == AgentFailed("TOO_MANY_INVALID_TOOL_CALLS");
             ToolsOk(cfg, env, log, !rejected) && (log.rejections == cfg.maxInvalidCalls <==> rejected)
    requires EndsAs(cfg, env, Traced(log, Ending(result)), result)
    requires result.Completed? ==> result.userSummary != ""
    ensures Outcome(cfg, env, Traced(log, Ending(result)), result)
  {
    hide LogOk, Counted, Reported, ReportedAs, OneSwitch, ModelsOk, EndsAs, RequestsOk, AllPermitted, Executions, Names;
    hide ToolsOk;
    EndOfRun(cfg, env, log, Ending(result), model, usedFallback);
    ToolsTraced(cfg, env, log, Ending(result), result != AgentFailed("TOO_MANY_INVALID_TOOL_CALLS"));
    CountedTraced(log, Ending(result));
    ReportedAtEnd(env, log, result);
  }

  lemma StopsBetween(
      cfg: Config, env: Environment, log: Log, result: AgentResult, model: string, usedFallback: bool, step: nat)
    requires Between(cfg, env, log, model, usedFallback, step)
    requires if step < cfg.maxSteps then env.late(step) && result == AgentFailed("AGENT_TIMEOUT")
             else result == AgentFailed("MAX_STEPS_REACHED")
    ensures Outcome(cfg, env, Traced(log, [TraceType.FAILED]), result)
  {
    hide LogOk, MessagesOk, ExecutedOk, ToolsOk, ModelsOk, Running, Reported, EndsAs, Counted;
    hide CallsOf, Responded, Outcome;
    AllToolsRan(cfg, env, log);
    EndsBetweenSteps(cfg, env, log, Traced(log, Ending(result)), model, usedFallback, step);
    Closes(cfg, env, log, result, model, usedFallback);
  }

  /** From between two steps to an answer. */
  lemma Asks(
      cfg: Config, env: Environment, log: Log, asked: Log, answer: ProviderAnswer, model: string, usedFallback: bool,
      step: nat)
    requires Between(cfg, env, log, model, usedFallback, step) && step < cfg.maxSteps && !env.late(step)
    requires LogOk(cfg, env, asked) && MessagesOk(asked) && asked.rejections == log.rejections
    requires asked.executed == log.executed && asked.messages == log.messages
    requires asked.toolNames == log.toolNames && asked.traces == log.traces
    requires CallsOf(asked.messages) + (if answer.Responds? then answer.toolCalls else [])
          == Responded(env, |asked.requests|)
    requires |asked.requests| > 0 && answer == env.provider(|asked.requests| - 1)
    requires var first, twice := env.provider(|log.requests|), |asked.requests| == |log.requests| + 2;
             && (twice <==> first.Fails? && first.transient && !usedFallback && model != cfg.fallbackModel)
             && asked.requests
                == log.requests
                   + if twice then [Request(model, log.messages, |log.executed|),
                                    Request(cfg.fallbackModel, log.messages, |log.executed|)]
                     else [Request(model, log.messages, |log.executed|)]
    ensures var twice := |asked.requests| == |log.requests| + 2;
            Answering(cfg, env, if twice && answer.Responds? then Traced(asked, [MODEL_FALLBACK]) else asked,
                      if twice then cfg.fallbackModel else model, usedFallback || twice, step, answer)
  {
    hide LogOk, MessagesOk, ModelsOk, Running, Stepped, Reported, Counted, CallsOf, Responded, Executions, Names;
    var twice := |asked.requests| == |log.requests| + 2;
    var next := if twice && answer.Responds? then Traced(asked, [MODEL_FALLBACK]) else asked;
    ModelsAfterCall(cfg, log, asked, model, usedFallback);
    if twice {
      AfterAskingTwice(cfg, env, log, next, model, usedFallback, step);
    } else {
      AfterAsking(cfg, env, log, next, model, usedFallback, step);
    }
    AnsweredBefore(cfg, env, log, model, usedFallback, step);
    ReportedAfterCall(env, log, asked, next);
    TracedOk(cfg, env, asked, [MODEL_FALLBACK]);
    SameCounts(log, asked);
    CountedTraced(asked, [MODEL_FALLBACK]);
  }

  lemma AnsweredBefore(cfg: Config, env: Environment, log: Log, model: string, usedFallback: bool, step: nat)
    requires Running(cfg, env, log, model, usedFallback, step)
    ensures |log.requests| > 0 ==> env.provider(|log.requests| - 1).Responds?
  {
    hide Failures, AsksOk;
  }

  lemma StopsWithAnswer(
      cfg: Config, env: Environment, log: Log, model: string, usedFallback: bool, step: nat, answer: ProviderAnswer)
    requires Answering(cfg, env, log, model, usedFallback, step, answer) && (answer.Fails? || answer.toolCalls == [])
    ensures var result := ResultOf(env, answer); Outcome(cfg, env, Traced(log, Ending(result)), result)
  {
    hide LogOk, MessagesOk, ExecutedOk, ToolsOk, ModelsOk, Stepped, Reported, EndsAs, Counted;
    hide CallsOf, Responded, Outcome;
    assert CallsOf(log.messages) + [] == CallsOf(log.messages);
    AllToolsRan(cfg, env, log);
    var result := ResultOf(env, answer);
    EndsWithAnswer(cfg, env, log, Traced(log, Ending(result)), usedFallback, step);
    Closes(cfg, env, log, result, model, usedFallback);
  }

  lemma StopsOnRejections(
      cfg: Config, env: Environment, log: Log, after: Log, model: string, usedFallback: bool, step: nat,
      answer: ProviderAnswer, n: nat)
    requires Answering(cfg, env, log, model, usedFallback, step, answer)
    requires answer.Responds? && 0 < n <= |answer.toolCalls|
    requires LogOk(cfg, env, after) && Counted(after) && after.requests == log.requests
    requires after.rejections == cfg.maxInvalidCalls && OnlyToolTraces(log.traces, after.traces)
    requires after.executed == Executions(cfg, env, CallsOf(log.messages) + answer.toolCalls[..n])
    requires after.toolNames == Names(CallsOf(log.messages) + answer.toolCalls[..n])
    ensures Outcome(cfg, env, Traced(after, [TraceType.FAILED]), AgentFailed("TOO_MANY_INVALID_TOOL_CALLS"))
  {
    hide LogOk, MessagesOk, ExecutedOk, ToolsOk, ModelsOk, Stepped, Reported, EndsAs, Counted;
    hide CallsOf, Responded, Outcome, Executions, Names, OnlyToolTraces;
    var result := AgentFailed("TOO_MANY_INVALID_TOOL_CALLS");
    SomeToolsRan(cfg, env, after, CallsOf(log.messages), answer.toolCalls, n);
    EndsOnRejections(cfg, env, log, Traced(after, Ending(result)), usedFallback, step);
    ReportedAfterTools(env, log, after);
    Closes(cfg, env, after, result, model, usedFallback);
  }

  lemma GoesOnBetween(
      cfg: Config, env: Environment, log: Log, after: Log, model: string, usedFallback: bool, step: nat,
      answer: ProviderAnswer)
    requires Answering(cfg, env, log, model, usedFallback, step, answer)
    requires answer.Responds? && answer.toolCalls != []
    requires LogOk(cfg, env, after) && MessagesOk(after) && Counted(after) && after.requests == log.requests
    requires after.rejections < cfg.maxInvalidCalls && OnlyToolTraces(log.traces, after.traces)
    requires ExecutedOk(cfg, env, after) && CallsOf(after.messages) == CallsOf(log.messages) + answer.toolCalls
    ensures Between(cfg, env, after, model, usedFallback, step + 1)
  {
    hide LogOk, MessagesOk, ExecutedOk, Stepped, Running, Reported, Counted, CallsOf, Responded, OnlyToolTraces;
    hide OneSwitch, OnlyModel;
    ReportedAfterTools(env, log, after);
    GoesOnRunning(cfg, env, log, after, model, usedFallback, step);
  }

  /** runAgent. */
  method RunAgent(cfg: Config, env: Environment) returns (result: AgentResult, log: Log)
    requires cfg.maxInvalidCalls > 0
    ensures Outcome(cfg, env, log, result)
  {
    hide Outcome, Between, Answering, LogOk, MessagesOk, ExecutedOk, Counted, OnlyToolTraces;
    hide Executions, Names, CallsOf, Responded;
    log := Log([], [], [], [], [OBSERVATION], 0, map[]);
    var model, usedFallback := cfg.plannerModel, false;
    Begins(cfg, env, log);
    for step := 0 to cfg.maxSteps
      invariant Between(cfg, env, log, model, usedFallback, step)
    {
      if env.late(step) {
        StopsBetween(cfg, env, log, AgentFailed("AGENT_TIMEOUT"), model, usedFallback, step);
        return AgentFailed("AGENT_TIMEOUT"), Traced(log, [TraceType.FAILED]);
      }
      MayAsk(cfg, env, log, model, usedFallback, step);
      var asked, answer, switched := CompleteWithFallback(cfg, env, log, model, usedFallback);
      Asks(cfg, env, log, asked, answer, model, usedFallback, step);
      ghost var twice := |asked.requests| == |log.requests| + 2;
      if answer.Fails? {
        StopsWithAnswer(cfg, env, asked, if twice then cfg.fallbackModel else model, usedFallback || twice, step,
                        answer);
        return AgentFailed(if answer.unavailable then "GROQ_UNAVAILABLE" else "BOTH_MODELS_FAILED"),
               Traced(asked, [TraceType.FAILED]);
      }
      if switched {
        model, usedFallback := cfg.fallbackModel, true;
        asked := Traced(asked, [MODEL_FALLBACK]);
      }
      if answer.toolCalls == [] {
        StopsWithAnswer(cfg, env, asked, model, usedFallback, step, answer);
        var summary := env.sanitize(answer.content);
        return Completed(if summary != "" then summary else "The agent finished without a user-safe summary."),
               Traced(asked, [DECISION_SUMMARY, FINAL_SELECTION]);
      }
      MayHandle(cfg, env, asked, model, usedFallback, step, answer);
      var failed;
      log, failed := HandleCalls(cfg, env, asked, answer.toolCalls);
      if failed {
        var n :| 0 < n <= |answer.toolCalls|
                 && log.executed == Executions(cfg, env, CallsOf(asked.messages) + answer.toolCalls[..n])
                 && log.toolNames == Names(CallsOf(asked.messages) + answer.toolCalls[..n]);
        StopsOnRejections(cfg, env, asked, log, model, usedFallback, step, answer, n);
        return AgentFailed("TOO_MANY_INVALID_TOOL_CALLS"), Traced(log, [TraceType.FAILED]);
      }
      GoesOnBetween(cfg, env, asked, log, model, usedFallback, step, answer);
    }
    StopsBetween(cfg, env, log, AgentFailed("MAX_STEPS_REACHED"), model, usedFallback, cfg.maxSteps);
    log := Traced(log, [TraceType.FAILED]);
    result := AgentFailed("MAX_STEPS_REACHED");
  }

  lemma MayAsk(cfg: Config, env: Environment, log: Log, model: string, usedFallback: bool, step: nat)
    requires Between(cfg, env, log, model, usedFallback, step)
    ensures LogOk(cfg, env, log) && MessagesOk(log) && ExecutedOk(cfg, env, log)
    ensures CallsOf(log.messages) == Responded(env, |log.requests|)
  {
  }

  lemma MayHandle(
      cfg: Config, env: Environment, log: Log, model: string, usedFallback: bool, step: nat, answer: ProviderAnswer)
    requires Answering(cfg, env, log, model, usedFallback, step, answer)
    ensures LogOk(cfg, env, log) && MessagesOk(log) && ExecutedOk(cfg, env, log) && Counted(log)
    ensures log.rejections < cfg.maxInvalidCalls
  {
  }
}
