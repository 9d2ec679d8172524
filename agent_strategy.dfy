/**
 * `AgentStrategy` (agent/.../AgentStrategy.kt): the agent's control graph, the history
 * compaction that keeps only the newest page snapshot, and the feedback prompt sent when
 * the model answers with plain text instead of a tool call.
 */
module Strategy {
  import opened Wrappers
  import opened Text

  // ---- The control graph ----

  datatype Node = Start | CallLLM | Feedback | ExecuteTool | Compress | SendToolResult | Finish

  /** What the model answered: plain text, or a call of a named tool. */
  datatype Reply = Assistant(content: string) | ToolCall(tool: string, args: string)

  /** What flows along an edge: the user's text, a model reply, or a tool's result. */
  datatype Value = Text(text: string) | Response(reply: Reply) | ToolResult(tool: string, result: string)

  /**
   * The condition of an edge: none, "the reply is plain text", "the reply is a tool
   * call", or "the reply is a call of this tool".
   */
  datatype Guard = Always | OnAssistant | OnToolCall | OnToolNamed(name: string)

  /** `edge(from forwardTo to on... transformed {...})`; `output` is the transformed value. */
  datatype Edge = Edge(from: Node, to: Node, guard: Guard, output: Option<string>)

  datatype Transition = Transition(to: Node, out: Value)

  const ExitTool := "__exit__"
  const ChatFinished := "Chat finished"

  /** The edges of `createStrategy`, in declaration order. */
  const Edges: seq<Edge> := [
    Edge(Start, CallLLM, Always, None),
    Edge(CallLLM, ExecuteTool, OnToolCall, None),
    Edge(CallLLM, Feedback, OnAssistant, None),
    Edge(Feedback, Feedback, OnAssistant, None),
    Edge(Feedback, ExecuteTool, OnToolCall, None),
    Edge(ExecuteTool, Compress, Always, None),
    Edge(Compress, SendToolResult, Always, None),
    Edge(SendToolResult, Finish, OnAssistant, None),
    Edge(SendToolResult, Finish, OnToolNamed(ExitTool), Some(ChatFinished)),
    Edge(SendToolResult, ExecuteTool, OnToolCall, None)
  ]

  predicate GuardHolds(g: Guard, v: Value) {
    match g
    case Always => true
    case OnAssistant => v.Response? && v.reply.Assistant?
    case OnToolCall => v.Response? && v.reply.ToolCall?
    case OnToolNamed(name) => v.Response? && v.reply.ToolCall? && v.reply.tool == name
  }

  predicate Matches(e: Edge, n: Node, v: Value) {
    e.from == n && GuardHolds(e.guard, v)
  }

  /**
   * The value an edge delivers: its transformation if it has one, the text of a plain
   * reply for `onAssistantMessage`, and the value itself otherwise.
   */
  function Passed(e: Edge, v: Value): Value {
    if e.output.Some? then Text(e.output.value)
    else if e.guard.OnAssistant? && v.Response? && v.reply.Assistant? then Text(v.reply.content)
    else v
  }

  /** The first edge at or after index `i` that leaves `n` and accepts `v`. */
  function FirstMatch(es: seq<Edge>, n: Node, v: Value, i: nat): (r: Option<nat>)
    requires i <= |es|
    ensures r.Some? ==> i <= r.value < |es| && Matches(es[r.value], n, v)
    ensures r.Some? ==> forall j | i <= j < r.value :: !Matches(es[j], n, v)
    ensures r.None? ==> forall j | i <= j < |es| :: !Matches(es[j], n, v)
    decreases |es| - i
  {
    if i == |es| then None
    else if Matches(es[i], n, v) then Some(i)
    else FirstMatch(es, n, v, i + 1)
  }

  /** Where the graph goes after node `n` produced `v`: the first matching edge wins. */
  function Step(n: Node, v: Value): Option<Transition> {
    match FirstMatch(Edges, n, v, 0)
    case None => None
    case Some(j) => Some(Transition(Edges[j].to, Passed(Edges[j], v)))
  }

  /** The kind of value each node produces. */
  predicate ProducedBy(n: Node, v: Value) {
    match n
    case Start => v.Text?
    case CallLLM => v.Response?
    case Feedback => v.Response?
    case ExecuteTool => v.ToolResult?
    case Compress => v.ToolResult?
    case SendToolResult => v.Response?
    case Finish => v.Text?
  }

  /** The kind of value each node accepts as input. */
  predicate AcceptedBy(n: Node, v: Value) {
    match n
    case Start => v.Text?
    case CallLLM => v.Text?
    case Feedback => v.Text?
    case ExecuteTool => v.Response? && v.reply.ToolCall?
    case Compress => v.ToolResult?
    case SendToolResult => v.ToolResult?
    case Finish => v.Text?
  }

  /**
   * No node but `Finish` is a dead end, and every edge delivers what its target accepts:
   * only tool calls reach `ExecuteTool`, and only text reaches `Finish`.
   */
  lemma StepTotalAndWellTyped(n: Node, v: Value)
    requires ProducedBy(n, v)
    ensures Step(n, v).Some? <==> n != Finish
    ensures Step(n, v).Some? ==> AcceptedBy(Step(n, v).value.to, Step(n, v).value.out)
  {
    var r := FirstMatch(Edges, n, v, 0);
    match n
    case Start => assert Matches(Edges[0], n, v);
    case CallLLM =>
      if v.reply.ToolCall? { assert Matches(Edges[1], n, v); } else { assert Matches(Edges[2], n, v); }
    case Feedback =>
      if v.reply.ToolCall? { assert Matches(Edges[4], n, v); } else { assert Matches(Edges[3], n, v); }
    case ExecuteTool => assert Matches(Edges[5], n, v);
    case Compress => assert Matches(Edges[6], n, v);
    case SendToolResult =>
      if v.reply.ToolCall? { assert Matches(Edges[9], n, v); } else { assert Matches(Edges[7], n, v); }
    case Finish =>
  }

  /** `nodeStart` always hands the user's input to the model. */
  lemma StartCallsModel(input: string)
    ensures Step(Start, Text(input)) == Some(Transition(CallLLM, Text(input)))
  {
    assert Matches(Edges[0], Start, Text(input));
  }

  /**
   * After the first request and after a feedback request, a tool call goes to the tool
   * executor and plain text goes to the feedback node.
   */
  lemma ModelReplyRouting(n: Node, reply: Reply)
    requires n == CallLLM || n == Feedback
    ensures reply.ToolCall? ==> Step(n, Response(reply)) == Some(Transition(ExecuteTool, Response(reply)))
    ensures reply.Assistant? ==> Step(n, Response(reply)) == Some(Transition(Feedback, Text(reply.content)))
  {
    var v := Response(reply);
    if n == CallLLM {
      if reply.ToolCall? { assert Matches(Edges[1], n, v); } else { assert Matches(Edges[2], n, v); }
    } else {
      if reply.ToolCall? { assert Matches(Edges[4], n, v); } else { assert Matches(Edges[3], n, v); }
    }
  }

  /** Every tool result goes through the compress node before it is sent to the model. */
  lemma ToolResultIsCompressed(tool: string, result: string)
    ensures Step(ExecuteTool, ToolResult(tool, result)) == Some(Transition(Compress, ToolResult(tool, result)))
    ensures Step(Compress, ToolResult(tool, result)) == Some(Transition(SendToolResult, ToolResult(tool, result)))
  {
    assert Matches(Edges[5], ExecuteTool, ToolResult(tool, result));
    assert Matches(Edges[6], Compress, ToolResult(tool, result));
  }

  /**
   * After a tool result was sent: plain text finishes with that text, a call of
   * `__exit__` finishes with "Chat finished", and any other tool call is executed.
   */
  lemma AfterToolResultRouting(reply: Reply)
    ensures reply.Assistant? ==>
              Step(SendToolResult, Response(reply)) == Some(Transition(Finish, Text(reply.content)))
    ensures reply.ToolCall? && reply.tool == ExitTool ==>
              Step(SendToolResult, Response(reply)) == Some(Transition(Finish, Text(ChatFinished)))
    ensures reply.ToolCall? && reply.tool != ExitTool ==>
              Step(SendToolResult, Response(reply)) == Some(Transition(ExecuteTool, Response(reply)))
  {
    var v := Response(reply);
    if reply.Assistant? {
      assert Matches(Edges[7], SendToolResult, v);
    } else if reply.tool == ExitTool {
      assert Matches(Edges[8], SendToolResult, v);
    } else {
      assert !Matches(Edges[8], SendToolResult, v);
      assert Matches(Edges[9], SendToolResult, v);
    }
  }

  /** Both the `__exit__` edge and the generic tool-call edge accept an exit call; the earlier one is taken. */
  lemma ExitEdgeShadowsGeneric(args: string)
    ensures Matches(Edges[8], SendToolResult, Response(ToolCall(ExitTool, args)))
    ensures Matches(Edges[9], SendToolResult, Response(ToolCall(ExitTool, args)))
    ensures Step(SendToolResult, Response(ToolCall(ExitTool, args))).value.to == Finish
  {
    AfterToolResultRouting(ToolCall(ExitTool, args));
  }

  /** `nodeFinish` has no outgoing edge. */
  lemma FinishIsTerminal(v: Value)
    ensures Step(Finish, v) == None
  {
  }

  // ---- The prompt and its compaction ----

  /**
   * A message of the prompt. `Tool` is the library's tool message, whichever side of a
   * tool call it records; only its tool name matters here.
   */
  datatype Message =
    | System(content: string)
    | User(content: string)
    | Assistant(content: string)
    | Tool(tool: string, content: string)

  /** The name of the snapshot tool, `PlaywrightAgentTools::getSnapshot.name`. */
  const SnapshotTool := "getSnapshot"

  const FeedbackLead := "Don't chat with plain text! Call one of the available tools, instead: "

  /** The user message of the feedback node: the lead text, then the tool names joined by ", ". */
  function FeedbackPrompt(toolNames: seq<string>): string {
    FeedbackLead + Join(toolNames, ", ")
  }

  /** The feedback prompt begins with the lead text and names every available tool. */
  lemma FeedbackPromptNamesEveryTool(toolNames: seq<string>, k: nat)
    requires k < |toolNames|
    ensures StartsWith(FeedbackPrompt(toolNames), FeedbackLead)
    ensures Contains(FeedbackPrompt(toolNames), toolNames[k])
  {
    assert FeedbackPrompt(toolNames)[..|FeedbackLead|] == FeedbackLead;
    JoinContainsEach(toolNames, ", ", k);
    ContainsConcat(FeedbackLead, Join(toolNames, ", "), toolNames[k]);
  }

  predicate IsNamed(m: Message, toolName: string) {
    m.Tool? && m.tool == toolName
  }

  /** The tool messages of the named tool, in order. */
  function Named(ms: seq<Message>, toolName: string): seq<Message> {
    if ms == [] then []
    else (if IsNamed(ms[0], toolName) then [ms[0]] else []) + Named(ms[1..], toolName)
  }

  /** Every other message, in order. */
  function Others(ms: seq<Message>, toolName: string): seq<Message> {
    if ms == [] then []
    else (if IsNamed(ms[0], toolName) then [] else [ms[0]]) + Others(ms[1..], toolName)
  }

  /** Drops the first `k` tool messages of the named tool and keeps everything else. */
  function DropFirst(ms: seq<Message>, toolName: string, k: nat): seq<Message> {
    if ms == [] then []
    else if IsNamed(ms[0], toolName) && k > 0 then DropFirst(ms[1..], toolName, k - 1)
    else [ms[0]] + DropFirst(ms[1..], toolName, k)
  }

  /** The prompt after `filterOutSnapshotMessages(toolName)`. */
  function Compacted(ms: seq<Message>, toolName: string): seq<Message> {
    var n := |Named(ms, toolName)|;
    if n <= 2 then ms else DropFirst(ms, toolName, n - 1)
  }

  /** `a` is `b` with some elements left out, the rest in the same order. */
  predicate IsSubsequence(a: seq<Message>, b: seq<Message>) {
    if a == [] then true
    else if b == [] then false
    else (a[0] == b[0] && IsSubsequence(a[1..], b[1..])) || IsSubsequence(a, b[1..])
  }

  lemma {:induction false} DropFirstNamed(ms: seq<Message>, toolName: string, k: nat)
    requires k <= |Named(ms, toolName)|
    ensures Named(DropFirst(ms, toolName, k), toolName) == Named(ms, toolName)[k..]
    ensures |DropFirst(ms, toolName, k)| == |ms| - k
  {
    if ms != [] {
      var rest := ms[1..];
      if IsNamed(ms[0], toolName) && k > 0 {
        DropFirstNamed(rest, toolName, k - 1);
        assert Named(ms, toolName) == [ms[0]] + Named(rest, toolName);
        assert Named(ms, toolName)[k..] == Named(rest, toolName)[k - 1..];
      } else {
        DropFirstNamed(rest, toolName, k);
        var d := [ms[0]] + DropFirst(rest, toolName, k);
        assert d[0] == ms[0] && d[1..] == DropFirst(rest, toolName, k);
        if IsNamed(ms[0], toolName) {
          assert k == 0;
        }
      }
    }
  }

  lemma {:induction false} DropFirstOthers(ms: seq<Message>, toolName: string, k: nat)
    ensures Others(DropFirst(ms, toolName, k), toolName) == Others(ms, toolName)
  {
    if ms != [] {
      if IsNamed(ms[0], toolName) && k > 0 {
        DropFirstOthers(ms[1..], toolName, k - 1);
      } else {
        DropFirstOthers(ms[1..], toolName, k);
        var d := [ms[0]] + DropFirst(ms[1..], toolName, k);
        assert d[0] == ms[0] && d[1..] == DropFirst(ms[1..], toolName, k);
      }
    }
  }

  lemma {:induction false} DropFirstIsSubsequence(ms: seq<Message>, toolName: string, k: nat)
    ensures IsSubsequence(DropFirst(ms, toolName, k), ms)
  {
    if ms != [] {
      if IsNamed(ms[0], toolName) && k > 0 {
        DropFirstIsSubsequence(ms[1..], toolName, k - 1);
        var d := DropFirst(ms[1..], toolName, k - 1);
        if d != [] {
          assert IsSubsequence(d, ms[1..]);
        }
      } else {
        DropFirstIsSubsequence(ms[1..], toolName, k);
        var d := [ms[0]] + DropFirst(ms[1..], toolName, k);
        assert d[0] == ms[0] && d[1..] == DropFirst(ms[1..], toolName, k);
      }
    }
  }

  /** With at most two snapshot messages the prompt is left as it is. */
  lemma CompactedKeepsShortHistory(ms: seq<Message>, toolName: string)
    requires |Named(ms, toolName)| <= 2
    ensures Compacted(ms, toolName) == ms
  {
  }

  /**
   * With more than two, exactly one is left, the newest; the prompt shrinks by the
   * number of dropped snapshot messages.
   */
  lemma CompactedKeepsNewestSnapshot(ms: seq<Message>, toolName: string)
    requires |Named(ms, toolName)| > 2
    ensures Named(Compacted(ms, toolName), toolName) == [Named(ms, toolName)[|Named(ms, toolName)| - 1]]
    ensures |Compacted(ms, toolName)| == |ms| - (|Named(ms, toolName)| - 1)
  {
    DropFirstNamed(ms, toolName, |Named(ms, toolName)| - 1);
  }

  /** Every other message survives, and nothing is reordered. */
  lemma CompactedKeepsOthersInOrder(ms: seq<Message>, toolName: string)
    ensures Others(Compacted(ms, toolName), toolName) == Others(ms, toolName)
    ensures IsSubsequence(Compacted(ms, toolName), ms)
  {
    var n := |Named(ms, toolName)|;
    if n > 2 {
      DropFirstOthers(ms, toolName, n - 1);
      DropFirstIsSubsequence(ms, toolName, n - 1);
    } else {
      IsSubsequenceOfItself(ms);
    }
  }

  lemma {:induction false} IsSubsequenceOfItself(ms: seq<Message>)
    ensures IsSubsequence(ms, ms)
  {
    if ms != [] {
      IsSubsequenceOfItself(ms[1..]);
    }
  }

  /** Compacting twice is compacting once. */
  lemma CompactedIdempotent(ms: seq<Message>, toolName: string)
    ensures Compacted(Compacted(ms, toolName), toolName) == Compacted(ms, toolName)
  {
    if |Named(ms, toolName)| > 2 {
      CompactedKeepsNewestSnapshot(ms, toolName);
    }
  }

  /** The part of the LLM write session the strategy changes: its prompt. */
  class WriteSession {
    var prompt: seq<Message>

    constructor(prompt: seq<Message>)
      ensures this.prompt == prompt
    {
      this.prompt := prompt;
    }

    /**
     * `filterOutSnapshotMessages(toolName)`: when more than two messages of the tool are
     * in the prompt, all but the newest are dropped, counting down as the prompt is read.
     */
    method FilterOutSnapshotMessages(toolName: string)
      modifies this
      ensures prompt == Compacted(old(prompt), toolName)
    {
      var messages := prompt;
      var snapshotMessages := Named(messages, toolName);
      if |snapshotMessages| <= 2 {
        return;
      }
      var remainingToSkip := |snapshotMessages| - 1;
      var kept: seq<Message> := [];
      var i := 0;
      while i < |messages|
        invariant 0 <= i <= |messages|
        invariant 0 <= remainingToSkip
        invariant kept + DropFirst(messages[i..], toolName, remainingToSkip) ==
                  DropFirst(messages, toolName, |snapshotMessages| - 1)
      {
        var m := messages[i];
        assert messages[i..][0] == m && messages[i..][1..] == messages[i + 1..];
        if IsNamed(m, toolName) && remainingToSkip > 0 {
          remainingToSkip := remainingToSkip - 1;
        } else {
          assert kept + ([m] + DropFirst(messages[i + 1..], toolName, remainingToSkip)) ==
                 (kept + [m]) + DropFirst(messages[i + 1..], toolName, remainingToSkip);
          kept := kept + [m];
        }
        i := i + 1;
      }
      assert messages[i..] == [];
      prompt := kept;
    }

    /** The feedback node's prompt update: one user message asking for a tool call. */
    method AddFeedback(toolNames: seq<string>)
      modifies this
      ensures prompt == old(prompt) + [User(FeedbackPrompt(toolNames))]
    {
      prompt := prompt + [User(FeedbackPrompt(toolNames))];
    }

    /** The compress node: the snapshot compaction, then its input passed on unchanged. */
    method CompressHistory<T>(input: T) returns (out: T)
      modifies this
      ensures out == input
      ensures prompt == Compacted(old(prompt), SnapshotTool)
    {
      FilterOutSnapshotMessages(SnapshotTool);
      out := input;
    }
  }
}
