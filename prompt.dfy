/** Prompt assembly: the system instruction, the user's question with its
    sources, and the fixed few-shot pair, collected by a message builder. */
module Prompt {
  import opened Request

  datatype Role = System | User | Assistant

  datatype Message = Message(role: Role, content: string)

  /** The default system instruction of the approach. */
  const SystemChatTemplate: string :=
    "You are my test proctor. Test me on Azure Data Fundamentals also known as DP-900. "
    + "Ask one multiple choice question and allow me to answer before asking the next question. "
    + "Each question must have a minimum of four choices and a maximum of five choices."
    + "If the answer is wrong, provide the correct answer and ask the next question. "
    + "Answer ONLY with the facts listed in the list of sources below. "
    + "If there isn't enough information below, say you don't know. "
    + "Do not generate answers that don't use the sources below. "
    + "If asking a clarifying question to the user would help, ask the question. "
    + "Each source has a name followed by colon and the actual data, quote the source name for each piece of data you use in the response. "
    + "Use square brakets to reference the source, e.g. [info1.txt]. Don't combine sources, list each source separately, e.g. [info1.txt][info2.pdf]."
    + "Do not generate answers that don't use the sources below. If asking a clarifying question to the user would help, ask the question. "
    + "Answer the question using only the data provided in the information sources below. "
    + "For tabular information return it as an html table. Do not return markdown format. "
    + "For example, if the question is \"What color is the sky?\" and one of the information sources says \"info123: the sky is blue whenever it's not cloudy\", then answer with \"The sky is blue [info123]\" "
    + "It's important to strictly follow the format where the name of the source is in square brackets at the end of the sentence, and only up to the prefix before the colon (\":\"). "
    + "If there are multiple sources, cite each one in their own square brackets. For example, use \"[info343][ref-76]\" and not \"[info343,ref-76]\". "
    + "Never quote tool names as sources."
    + "If you cannot answer using the sources below, say that you don't know. "

  /** The few-shot user question. */
  const ShotQuestion: string :=
    "\n'What are common structured database systems?'\n\nSources:\ninfo1.txt: Microsoft SQL Server.\ninfo2.pdf: MySQL.\ninfo3.pdf: PostgreSQL.\ninfo4.pdf: MariaDB.\n"

  /** The few-shot assistant answer. */
  const ShotAnswer: string :=
    "Relational databases: Relational databases are commonly used to store and query structured data. The data is organized into tables that represent entities, and each instance of an entity is assigned a primary key. Examples of relational database management systems that use SQL include Microsoft SQL Server, MySQL, PostgreSQL, MariaDB, and Oracle. [info2.pdf][info4.pdf]."

  /** The system instruction: the caller's `prompt_template` when it is a
      non-empty string, the default instruction otherwise (a missing, null or
      empty template falls back). The instruction is never empty. */
  function SystemText(o: Overrides): (r: string)
    ensures r != ""
    ensures (o.promptTemplate.Given? && o.promptTemplate.value != "") <==> o.promptTemplate == Given(r)
    ensures r == SystemChatTemplate || o.promptTemplate == Given(r)
  {
    if o.promptTemplate.Given? && o.promptTemplate.value != "" then o.promptTemplate.value
    else SystemChatTemplate
  }

  /** What separates the question from its sources in the user message. */
  const SourcesHeader := "\nSources:\n "

  /** The user message: the question, the sources header, the sources block. */
  function UserContent(q: string, content: string): (r: string)
    ensures |r| == |q| + |SourcesHeader| + |content|
    ensures q + SourcesHeader <= r
    ensures r[|q| + |SourcesHeader|..] == content
  {
    q + SourcesHeader + content
  }

  /** Collects the messages of one prompt, starting with the system message;
      appending adds one message at the end and never reorders earlier ones. */
  class MessageBuilder {
    var messages: seq<Message>
    const model: string

    ghost predicate Valid()
      reads this
    {
      |messages| > 0 && messages[0].role == System
    }

    constructor (systemContent: string, chatgptModel: string)
      ensures Valid()
      ensures messages == [Message(System, systemContent)] && model == chatgptModel
    {
      messages := [Message(System, systemContent)];
      model := chatgptModel;
    }

    method AppendMessage(role: Role, content: string)
      requires Valid()
      modifies this
      ensures Valid()
      ensures messages == old(messages) + [Message(role, content)]
    {
      messages := messages + [Message(role, content)];
    }
  }

  /** The prompt of one request: system instruction, the user's question with
      its sources, then the few-shot answer and the few-shot question. */
  function PromptFor(system: string, userContent: string): (r: seq<Message>)
    ensures |r| == 4
    ensures r[0] == Message(System, system) && r[1] == Message(User, userContent)
    ensures r[2..] == [Message(Assistant, ShotAnswer), Message(User, ShotQuestion)]
  {
    [Message(System, system), Message(User, userContent),
     Message(Assistant, ShotAnswer), Message(User, ShotQuestion)]
  }

  /** Builds the prompt by three appends to a fresh builder. */
  method AssemblePrompt(system: string, userContent: string, model: string) returns (messages: seq<Message>)
    ensures messages == PromptFor(system, userContent)
  {
    var builder := new MessageBuilder(system, model);
    builder.AppendMessage(User, userContent);
    builder.AppendMessage(Assistant, ShotAnswer);
    builder.AppendMessage(User, ShotQuestion);
    messages := builder.messages;
  }

  /** Whatever the overrides, the prompt has four messages, in the order
      system, user, assistant, user; the system text is the template or the
      default, and the last two are the few-shot pair. */
  lemma PromptOrder(o: Overrides, q: string, content: string)
    ensures |PromptFor(SystemText(o), UserContent(q, content))| == 4
    ensures PromptFor(SystemText(o), UserContent(q, content))[0] == Message(System, SystemText(o))
    ensures PromptFor(SystemText(o), UserContent(q, content))[1].role == User
    ensures q + SourcesHeader <= PromptFor(SystemText(o), UserContent(q, content))[1].content
    ensures PromptFor(SystemText(o), UserContent(q, content))[2] == Message(Assistant, ShotAnswer)
    ensures PromptFor(SystemText(o), UserContent(q, content))[3] == Message(User, ShotQuestion)
  {
  }
}
