/**
 A worker node of the supervisor/worker conversation graph. A worker hands the
 last message of the conversation to its language-model agent and always
 answers the supervisor with exactly one message, filed as a human message
 under the worker's own name, whether the agent succeeded or failed.
 */
module Workers {
  import opened Results
  import opened Text
  import opened Conversation
  import opened Capabilities

  /** The only node a worker ever routes to. */
  const SupervisorNode: string := "supervisor"

  /** Separator between tool descriptions in a worker's tool summary. */
  const ToolDescriptionSeparator: string := "\n + "

  /** Python's message for indexing the last element of an empty list. */
  const IndexOutOfRange: string := "list index out of range"

  /** The failure notice text before and after the embedded error. */
  const FailedPhrase: string := "execution failed due to the following error:"
  const HintPhrase: string := "Hint: Try to reformulate the task."
  const NoticeHead: string := "\n" + Indent(16) + FailedPhrase + "\n" + Indent(16)
  const NoticeTail: string := "\n" + Indent(16) + HintPhrase + "\n" + Indent(12)

  /** `n` spaces: the indentation a triple-quoted f-string keeps. */
  function Indent(n: nat): (s: string)
    ensures |s| == n
    ensures forall i :: 0 <= i < n ==> s[i] == ' '
  {
    if n == 0 then "" else " " + Indent(n - 1)
  }

  /** The messages a react agent run ends with; the run always yields at least one. */
  type Transcript = s: seq<Message> | |s| > 0 witness [Message(Human, "", None)]

  /**
   The language-model-driven react loop: given the system prompt, the bound
   tools and the request messages it returns the final messages of its run, or
   the text of the error it raised.
   */
  type ReactAgent = (string, seq<ToolSpec>, seq<Message>) -> Result<Transcript, string>

  datatype Worker = Worker(
    agentName: string,
    systemPrompt: string,
    tools: seq<ToolSpec>,
    extractedToolDescription: string,
    agent: ReactAgent)

  /** The tool summary is the ordered join of the tools' descriptions. */
  predicate SummarizesTools(w: Worker) {
    w.extractedToolDescription == Join(Descriptions(w.tools), ToolDescriptionSeparator)
  }

  /** Where the two phrases sit inside the notice's head and tail. */
  lemma NoticePhrases()
    ensures OccursAt(FailedPhrase, NoticeHead, 17)
    ensures OccursAt(HintPhrase, NoticeTail, 17)
  {
    OccursInFrame("\n" + Indent(16), FailedPhrase, "\n");
    OccursInPrefix(FailedPhrase, "\n" + Indent(16) + FailedPhrase + "\n", 17, Indent(16));
    OccursInFrame("\n" + Indent(16), HintPhrase, "\n");
    OccursInPrefix(HintPhrase, "\n" + Indent(16) + HintPhrase + "\n", 17, Indent(12));
  }

  /** The reply a worker emits when its agent raised `error`. */
  function FailureNotice(error: string): (n: string)
    ensures OccursAt(error, n, |NoticeHead|)
    ensures Contains(n, FailedPhrase) && Contains(n, error) && Contains(n, HintPhrase)
  {
    var n := NoticeHead + error + NoticeTail;
    NoticePhrases();
    OccursInFrame(NoticeHead, error, NoticeTail);
    OccursInPrefix(FailedPhrase, NoticeHead, 17, error);
    OccursInPrefix(FailedPhrase, NoticeHead + error, 17, NoticeTail);
    OccursInSuffix(HintPhrase, NoticeTail, 17, NoticeHead + error);
    n
  }

  /** Recovers the error text from a failure notice. */
  function ErrorOfNotice(n: string): Option<string> {
    if |NoticeHead| + |NoticeTail| <= |n|
       && n[..|NoticeHead|] == NoticeHead
       && n[|n| - |NoticeTail|..] == NoticeTail
    then Some(n[|NoticeHead|..|n| - |NoticeTail|])
    else None
  }

  /** The failure notice loses nothing: the error it embeds can be read back. */
  lemma NoticeRoundTrip(error: string)
    ensures ErrorOfNotice(FailureNotice(error)) == Some(error)
  {
    var n := FailureNotice(error);
    assert n[..|NoticeHead|] == NoticeHead;
    assert n[|n| - |NoticeTail|..] == NoticeTail;
    assert n[|NoticeHead|..|n| - |NoticeTail|] == error;
  }

  /** Distinct errors give distinct notices. */
  lemma NoticeInjective(e1: string, e2: string)
    requires FailureNotice(e1) == FailureNotice(e2)
    ensures e1 == e2
  {
    NoticeRoundTrip(e1);
    NoticeRoundTrip(e2);
  }

  /** The request handed to the agent: one user message carrying the last message's content. */
  function Request(state: seq<Message>): Result<seq<Message>, string> {
    if |state| == 0 then Err(IndexOutOfRange)
    else Ok([Message(Human, state[|state| - 1].content, None)])
  }

  /** The content of the worker's reply: the agent's last message, or a notice of what was raised. */
  function ReplyContent(w: Worker, state: seq<Message>): string {
    match Request(state)
    case Err(e) => FailureNotice(e)
    case Ok(request) =>
      match w.agent(w.systemPrompt, w.tools, request)
      case Ok(transcript) => transcript[|transcript| - 1].content
      case Err(e) => FailureNotice(e)
  }

  /**
   One worker turn. It is total: every conversation and every agent outcome
   yields a command that routes back to the supervisor with a single human
   message named after the worker.
   */
  function RunTurn(w: Worker, state: seq<Message>): (c: Command)
    ensures c.goto == SupervisorNode
    ensures |c.update| == 1
    ensures c.update[0].role == Human && c.update[0].name == Some(w.agentName)
    ensures |state| == 0 ==> c.update[0].content == FailureNotice(IndexOutOfRange)
    ensures |state| > 0 ==>
      var request := [Message(Human, state[|state| - 1].content, None)];
      match w.agent(w.systemPrompt, w.tools, request)
      case Ok(transcript) => c.update[0].content == transcript[|transcript| - 1].content
      case Err(e) => c.update[0].content == FailureNotice(e)
  {
    Command(SupervisorNode, [Message(Human, ReplyContent(w, state), Some(w.agentName))])
  }

  /** When the agent raises, the reply reports the error verbatim together with the reformulation hint. */
  lemma FailedTurnReportsError(w: Worker, state: seq<Message>, error: string)
    requires |state| > 0
    requires w.agent(w.systemPrompt, w.tools, [Message(Human, state[|state| - 1].content, None)]) == Err(error)
    ensures var content := RunTurn(w, state).update[0].content;
      && Contains(content, FailedPhrase)
      && Contains(content, error)
      && Contains(content, HintPhrase)
      && ErrorOfNotice(content) == Some(error)
  {
    NoticeRoundTrip(error);
  }

  /**
   Context isolation: the agent only ever sees the content of the last message,
   so two conversations ending in messages of equal content get the same turn,
   whatever came before and whoever sent the last message.
   */
  lemma TurnSeesOnlyLastContent(w: Worker, s1: seq<Message>, s2: seq<Message>)
    requires |s1| > 0 && |s2| > 0
    requires s1[|s1| - 1].content == s2[|s2| - 1].content
    ensures Request(s1) == Request(s2)
    ensures RunTurn(w, s1) == RunTurn(w, s2)
  {
  }

  /** Appending the turn's update extends the conversation by exactly the worker's one message. */
  lemma TurnAppendsOneMessage(w: Worker, state: seq<Message>)
    ensures var next := Apply(state, RunTurn(w, state));
      && |next| == |state| + 1
      && next[..|state|] == state
      && next[|state|].role == Human
      && next[|state|].name == Some(w.agentName)
  {
  }

  /**
   No residual state: after one turn and a new instruction from the supervisor,
   the next turn is the turn the new instruction would get in a fresh conversation.
   */
  lemma NextTurnIgnoresEarlierTurn(w: Worker, state: seq<Message>, instruction: Message)
    ensures var after := Apply(Apply(state, RunTurn(w, state)), Command(w.agentName, [instruction]));
      RunTurn(w, after) == RunTurn(w, [instruction])
  {
    var after := Apply(Apply(state, RunTurn(w, state)), Command(w.agentName, [instruction]));
    TurnSeesOnlyLastContent(w, after, [instruction]);
  }

  /** Star topology: whatever the worker and the conversation, the turn routes to no node but the supervisor. */
  lemma TurnRoutesOnlyToSupervisor(w: Worker, state: seq<Message>, other: string)
    requires other != SupervisorNode
    ensures RunTurn(w, state).goto != other
  {
  }

  /** Each tool description appears, in tool order, in the summary, separated by the separator. */
  lemma ToolSummaryLayout(w: Worker, i: nat)
    requires SummarizesTools(w)
    requires i < |w.tools|
    ensures OccursAt(w.tools[i].description, w.extractedToolDescription,
                     JoinOffset(Descriptions(w.tools), ToolDescriptionSeparator, i))
    ensures i + 1 < |w.tools| ==>
      OccursAt(ToolDescriptionSeparator, w.extractedToolDescription,
               JoinOffset(Descriptions(w.tools), ToolDescriptionSeparator, i) + |w.tools[i].description|)
    ensures |w.extractedToolDescription| ==
      TotalLength(Descriptions(w.tools)) + (|w.tools| - 1) * |ToolDescriptionSeparator|
  {
    JoinPartAt(Descriptions(w.tools), ToolDescriptionSeparator, i);
    if i + 1 < |w.tools| {
      JoinSeparatorAt(Descriptions(w.tools), ToolDescriptionSeparator, i);
    }
    JoinLength(Descriptions(w.tools), ToolDescriptionSeparator);
  }

  /** A worker whose tool set is empty has an empty tool summary. */
  lemma EmptyToolSummary(w: Worker)
    requires SummarizesTools(w)
    requires |w.tools| == 0
    ensures w.extractedToolDescription == ""
  {
  }

  const TodoManagerName: string := "todo_manager"
  const SiteWorkbookManagerName: string := "site_workbook_manager"

  /** Builds a worker from its name, system prompt, tools and language model. */
  function MakeWorker(name: string, prompt: string, tools: seq<ToolSpec>, llm: ReactAgent): (w: Worker)
    ensures w.agentName == name && w.systemPrompt == prompt && w.tools == tools && w.agent == llm
    ensures SummarizesTools(w)
  {
    Worker(name, prompt, tools, Join(Descriptions(tools), ToolDescriptionSeparator), llm)
  }

  /** The to-do worker; its prompt also states the time zones of the to-do app and of the user. */
  function TodoManager(tools: seq<ToolSpec>, llm: ReactAgent): (w: Worker)
    ensures w.agentName == TodoManagerName && w.agent == llm
    ensures Contains(w.systemPrompt, w.agentName)
    ensures w.tools == tools && SummarizesTools(w)
  {
    var intro := "\n" + Indent(8) + "You are a worker agent named ";
    var rest := ". Note that the system's \n" + Indent(8) + "time zone on the TODO app is UTC. The User and yourself are in CET.";
    var prompt := intro + TodoManagerName + rest;
    OccursInFrame(intro, TodoManagerName, rest);
    MakeWorker(TodoManagerName, prompt, tools, llm)
  }

  /** The site-workbook worker; its prompt is just its self-introduction. */
  function SiteWorkbookManager(tools: seq<ToolSpec>, llm: ReactAgent): (w: Worker)
    ensures w.agentName == SiteWorkbookManagerName && w.agent == llm
    ensures w.systemPrompt == "You are a worker agent named " + w.agentName
    ensures Contains(w.systemPrompt, w.agentName)
    ensures w.tools == tools && SummarizesTools(w)
  {
    var prompt := "You are a worker agent named " + SiteWorkbookManagerName;
    OccursInFrame("You are a worker agent named ", SiteWorkbookManagerName, "");
    assert prompt + "" == prompt;
    MakeWorker(SiteWorkbookManagerName, prompt, tools, llm)
  }

  /** Neither concrete worker is named like the supervisor, so neither routes to a worker. */
  lemma ConcreteWorkersRouteToSupervisor(tools: seq<ToolSpec>, llm: ReactAgent, state: seq<Message>)
    ensures RunTurn(TodoManager(tools, llm), state).goto != TodoManagerName
    ensures RunTurn(TodoManager(tools, llm), state).goto != SiteWorkbookManagerName
    ensures RunTurn(SiteWorkbookManager(tools, llm), state).goto != TodoManagerName
    ensures RunTurn(SiteWorkbookManager(tools, llm), state).goto != SiteWorkbookManagerName
  {
  }
}
