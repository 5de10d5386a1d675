# Supervisor/worker turn and e-mail toolkit of recall-space-agents, in Dafny

This project models the core of recall-space-agents, a hierarchical agent
system. A supervisor node picks a worker. The worker runs a
language-model "react" agent over its bound tools and always answers the
supervisor with exactly one message.

- **Workers** (`workers.dfy`): the worker turn `get_worker_node`, which
  `TodoManager` and `SiteWorkbookManager` share. The turn hands only the
  content of the conversation's last message to the agent, as one user
  message. It catches every `Exception` and turns it into a fixed failure notice
  that embeds the error text. Its reply is filed as a *human* message named
  after the worker, so the supervisor gives it priority, and it always
  routes back to `"supervisor"`. The model also covers how each worker is
  built: its name, its system prompt, and its tool summary (the tool
  descriptions joined with `"\n + "`).
- **MsEmail** (`ms_email.py` as `ms_email.dfy`): the Microsoft Graph e-mail
  toolkit.
  - `asend_email` sends to one address.
  - `asend_email_by_name` strips the name and tries the contacts first. It
    falls back to the people search only when the contacts give no
    address. If neither gives one it sends nothing and reports "not found".
  - `aget_emails` shapes one record per fetched message. The `attachments`
    key is present exactly when attachments were asked for.
  - `get_tools` builds one tool per schema-mapping entry.
- **Text**: Python's `str.strip()` (with Python's full whitespace set),
  `str.join` and `in` on strings, with the lemmas the other modules need.
- **Conversation**, **Capabilities**, **Results**: messages, commands, tool
  specs, and the `Option`/`Result` types. `Result` stands in for Python
  exceptions.

The react agent, every Microsoft Graph call, HTML-to-text extraction and
Berlin-time formatting are function parameters. Each is one fixed function:
it gives the same answer to the same request every time it is called. The
model states what the code does with those answers.

Two details of the turn follow the code closely:
- `state["messages"][-1]` is evaluated inside the `try`, so an empty
  conversation is reported as the failure notice of `list index out of
  range`. `Workers.RunTurn` has no precondition and models that path.
- The reply is a `HumanMessage`; the model's `Role` has `Human`.

## Model

| member | source | states |
|---|---|---|
| Workers.RunTurn | recall_space_agents/hierarchical_agents/realized_workers/todo_manager.py:71-92 | For every conversation and every agent outcome the turn returns a command: goto is "supervisor" and the update is exactly one Human message named after the worker. Its content is the agent's last message on success and the failure notice of the raised error otherwise. An empty conversation gives the notice of "list index out of range". |
| Workers.FailureNotice | recall_space_agents/hierarchical_agents/realized_workers/todo_manager.py:76-81 | The failure notice contains "execution failed due to the following error:", the error text (at a fixed offset) and "Hint: Try to reformulate the task." |
| Workers.NoticeRoundTrip | recall_space_agents/hierarchical_agents/realized_workers/site_workbook_manager.py:73-78 | The error text can be read back out of the notice unchanged. |
| Workers.NoticeInjective | recall_space_agents/hierarchical_agents/realized_workers/site_workbook_manager.py:73-78 | Different errors give different notices. |
| Workers.FailedTurnReportsError | recall_space_agents/hierarchical_agents/realized_workers/todo_manager.py:72-92 | When the agent raises, the emitted message carries the error verbatim and both fixed phrases, and the error is recoverable from it. |
| Workers.TurnSeesOnlyLastContent | recall_space_agents/hierarchical_agents/realized_workers/todo_manager.py:71-75 | Two conversations whose last messages have the same content give the same agent request and the same command. Earlier history, and the role and name of the last message, make no difference. |
| Workers.TurnAppendsOneMessage | recall_space_agents/hierarchical_agents/realized_workers/todo_manager.py:83-92 | Folding the turn's update into the conversation keeps every earlier message and adds exactly one, a Human message named after the worker. |
| Workers.NextTurnIgnoresEarlierTurn | recall_space_agents/hierarchical_agents/realized_workers/site_workbook_manager.py:68-72 | After one turn and a new supervisor instruction, the next turn equals the turn that instruction gets in a fresh conversation, so no state is left over from the first turn. |
| Workers.TurnRoutesOnlyToSupervisor | recall_space_agents/hierarchical_agents/realized_workers/site_workbook_manager.py:80-81 | A turn never routes to any node other than "supervisor". |
| Workers.ConcreteWorkersRouteToSupervisor | recall_space_agents/hierarchical_agents/realized_workers/todo_manager.py:83-84 | Neither the to-do worker nor the site-workbook worker ever routes to either worker's name. |
| Workers.ToolSummaryLayout | recall_space_agents/hierarchical_agents/realized_workers/todo_manager.py:40-42 | The tool summary holds every tool description in tool order, at its computed offset, with the separator "\n + " between neighbours. Its length is the sum of the descriptions plus one separator per gap. |
| Workers.EmptyToolSummary | recall_space_agents/hierarchical_agents/realized_workers/site_workbook_manager.py:37-39 | A worker with no tools has the empty summary. |
| Workers.TodoManager | recall_space_agents/hierarchical_agents/realized_workers/todo_manager.py:34-56 | The to-do worker is named "todo_manager", its system prompt contains that name, it keeps the given tools and runs the given model, and its summary joins their descriptions. |
| Workers.SiteWorkbookManager | recall_space_agents/hierarchical_agents/realized_workers/site_workbook_manager.py:33-53 | The site-workbook worker is named "site_workbook_manager", its prompt is "You are a worker agent named " followed by that name, it runs the given model, and its summary joins its tools' descriptions. |
| Text.Strip | recall_space_agents/toolkits/ms_email/ms_email.py:183 | The stripped name has no whitespace at either end and sits in the input with only whitespace around it. |
| Text.StripCharacterized | recall_space_agents/toolkits/ms_email/ms_email.py:183 | Both directions: a string is the stripped name exactly when it is free of whitespace at both ends and appears in the input with only whitespace around it. |
| Text.StripIdempotent | recall_space_agents/toolkits/ms_email/ms_email.py:183 | Stripping an already stripped name changes nothing. |
| Text.StripIgnoresPadding | recall_space_agents/toolkits/ms_email/ms_email.py:183 | Whitespace added around a name does not change what stripping keeps. |
| Text.JoinPartAt | recall_space_agents/hierarchical_agents/realized_workers/site_workbook_manager.py:37-39 | Each part of a join appears, in order, at its computed offset. |
| Text.JoinSeparatorAt | recall_space_agents/hierarchical_agents/realized_workers/site_workbook_manager.py:37-39 | Each part of a join except the last is followed by the separator. |
| Text.JoinLength | recall_space_agents/hierarchical_agents/realized_workers/todo_manager.py:40-42 | A join is as long as its parts plus one separator per gap. |
| Text.JoinSnoc | recall_space_agents/hierarchical_agents/realized_workers/todo_manager.py:40-42 | Adding one more tool extends the summary by the separator and that tool's description. |
| MsEmail.SendEmail | recall_space_agents/toolkits/ms_email/ms_email.py:149-163 | One mail is posted. It has exactly one recipient, the given address, and the given subject and HTML body, and it is saved to sent items. The status is "Email sent successfully." |
| MsEmail.ContactsFilter | recall_space_agents/toolkits/ms_email/ms_email.py:191-194 | The contacts filter contains the looked-up name. |
| MsEmail.PeopleQuery | recall_space_agents/toolkits/ms_email/ms_email.py:230-232 | The people search term contains the looked-up name. |
| MsEmail.NotFoundStatus | recall_space_agents/toolkits/ms_email/ms_email.py:258-261 | The not-found status carries the name at a fixed offset. |
| MsEmail.NotFoundStatusRoundTrip | recall_space_agents/toolkits/ms_email/ms_email.py:258-263 | The name can be read back out of the not-found status, and the success status is never mistaken for a not-found status. |
| MsEmail.ResolveRecipient | recall_space_agents/toolkits/ms_email/ms_email.py:206-256 | If the first contact's first address is a non-empty string, it is chosen. Otherwise the first person's first scored address is chosen when it is a non-empty string. Otherwise there is no address. A chosen address is never empty. |
| MsEmail.SendEmailByName | recall_space_agents/toolkits/ms_email/ms_email.py:165-264 | The contacts are always queried with the stripped name. People are queried (second) exactly when the contacts gave no address. With no resolved address nothing is posted and the status names the stripped name. Otherwise the effect is exactly what `asend_email` to the resolved address gives: one mail to that address, with the given subject, the given HTML body (content type "html"), saved to sent items, and the success status. |
| MsEmail.NothingSentIffNotFound | recall_space_agents/toolkits/ms_email/ms_email.py:258-264 | Nothing is posted exactly when the status is a not-found status, and that status names the stripped name. |
| MsEmail.ContactsShadowPeople | recall_space_agents/toolkits/ms_email/ms_email.py:207-223 | When a contact supplies an address, only one lookup is made and the people answer cannot change the outcome. |
| MsEmail.SendByNameIgnoresPadding | recall_space_agents/toolkits/ms_email/ms_email.py:183-264 | Whitespace around the recipient name changes neither the queries, nor the mail, nor the status. |
| MsEmail.SentMailGoesToFoundAddress | recall_space_agents/toolkits/ms_email/ms_email.py:207-264 | A mail that goes out has one recipient, whose non-empty address is the contact's or the person's first address. |
| MsEmail.EmailsQuery | recall_space_agents/toolkits/ms_email/ms_email.py:78-86 | The query carries the limit, skip and filter. It expands attachments exactly when attachments are asked for. |
| MsEmail.ShapeEmail | recall_space_agents/toolkits/ms_email/ms_email.py:103-131 | The "from" field is the sender's address, " - " and the sender's name, each printed as "None" when missing. The subject is empty exactly when the message has none (or an empty one), and otherwise is the message's subject. The attachments key is present exactly when attachments are asked for. When present it has one record per attachment, with that attachment's name, size and downloaded bytes. |
| MsEmail.NoDownloadWithoutAttachments | recall_space_agents/toolkits/ms_email/ms_email.py:113-129 | Without attachments asked for, the record does not depend on what a download would return. |
| MsEmail.GetEmails | recall_space_agents/toolkits/ms_email/ms_email.py:66-133 | One record per fetched message, in fetch order, each shaped from its message. The attachments key is present in every record exactly when asked for. |
| MsEmail.GetEmailsByDefault | recall_space_agents/toolkits/ms_email/ms_email.py:66-72 | Called with no arguments, the listing queries the top 5 messages from offset 0 with the filter "parentFolderId eq 'inbox'" and no expansion, and no record has an attachments key. |
| MsEmail.FirstUnbound | recall_space_agents/toolkits/ms_email/ms_email.py:286-289 | Finds the first mapping key that names no toolkit method, or reports that every key names one. |
| MsEmail.GetTools | recall_space_agents/toolkits/ms_email/ms_email.py:278-295 | Succeeds exactly when every key names a toolkit method. On success it returns one tool per mapping entry, in mapping order, with that entry's key as name, its description and schema, and the method the key names. Otherwise it fails with the binding error of the first unbound key. |
| MsEmail.RegistryFindsEntry | recall_space_agents/toolkits/ms_email/ms_email.py:285-295 | With the distinct keys of a dictionary, looking up a key among the built tools finds the tool built from that key's entry, and any other name finds nothing. |

## Left out

- Microsoft Graph I/O (messages, contacts and people `get`, `send_mail.post`, attachment download) is not modelled as I/O. Each call is a function parameter returning the service's answer; the client object, the credentials and the requested scopes are left out.
- Async/await scheduling is left out: it only serves cooperative I/O.
- `create_react_agent`, the language model and the agent's inner reason/act loop are left out because they are a foreign library. They are the `ReactAgent` parameter, which receives the system prompt, the tools and the request.
- HTML-to-text extraction (BeautifulSoup) and Berlin-time formatting (pytz, `strftime`) are left out because they are third-party libraries. They are the `HtmlText` and `BerlinTime` parameters.
- The OData filter and search syntax is not interpreted, because it is an external query language. The model only builds the strings and shows they carry the stripped name.
- `print` diagnostics are left out: they have no effect on results.
- The `Worker` base class, `MSTodoToolKit` and `MSSiteWorkbookToolKit` are not part of this model. The workers' tools are a parameter.
- `ToolBuilder` internals are not part of this model. `eval(f"self.{key}")` becomes a direct lookup in a map from method names to the toolkit's five methods, and the function and the coroutine a tool is given are the same method, recorded once.
- MsEmail.GetTools: any key that is not the bare name of one of the five toolkit methods is treated as unbound, with `AttributeError(key)` as its error text. `eval(f"self.{key}")` differs on such keys: a key with surrounding whitespace (`"aget_emails "`) still binds the method, an attribute chain or expression evaluates to whatever it names, a key naming a data attribute or dunder method yields that value, and a key that is not an identifier raises a different error (`"send-email"` reports the missing attribute `send`, `"a b"` is a `SyntaxError`). Python's expression evaluation is outside this model.
- Workers.NextTurnIgnoresEarlierTurn: the react agent is modelled as deterministic over an unchanged backend. The program's language model is not deterministic, and the workers' tools change the To-Do and workbook backends, so a later turn can see the effects of an earlier one. This lemma, and the equality of commands in Workers.TurnSeesOnlyLastContent, hold only under that assumption. The code alone guarantees that the worker keeps no state between calls and that the agent receives the same single user message (`Workers.Request`).
- Workers.RunTurn: only `Exception` is caught. A `BaseException` that is not an `Exception` (`asyncio.CancelledError` when the awaited `ainvoke` is cancelled, `KeyboardInterrupt`, `SystemExit`) propagates out of the turn; the `Result`-typed agent does not represent these.
- Workers.RunTurn: assumes the agent's result ends with at least one message (the `Transcript` type). An empty result would raise `IndexError` outside the `try`, which the model does not represent.
- MsEmail.SendEmail: a failing `send_mail.post` raises out of `asend_email` (and out of `asend_email_by_name`); the model has every Graph call answer and does not represent those exceptions.
- MsEmail.GetEmails: Graph failures, a missing `received_date_time` and a missing sender raise `AttributeError` in the source; these are not represented.
- Python distinguishes `None` from `""` and from `[]`, but the code only tests their truthiness, so the model merges a missing list with the empty list. Addresses stay `Option<string>`, and "gives an address" means a non-empty string.
- Message content that is a list of content blocks (a LangChain option) is not modelled; content is text.
- How the graph runtime merges an update into the conversation (LangGraph's message reducer) is outside the repository. `Conversation.Apply` appends, which is what the reducer does with messages that have no ID.
- Schema validation of tool inputs and request timeouts are not in this code, so they are not modelled.
