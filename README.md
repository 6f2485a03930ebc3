# Agentic design patterns: routing, history, mock store and prompt chain

This project models the sequential logic of four pieces of an agentic-AI
demonstration repository and proves properties of that model. Every
language-model call is an oracle. It is a function parameter that returns a
classification or a text, and the model assumes nothing about its content.

- **Message history** (`message_history.dfy`, module `Messages`). This is the wrapper around a
  conversation. It holds a list of request and response messages, and each
  message holds parts tagged with a `part_kind`. The class keeps the list in a
  field. `Assign` replaces the list. `Append` wraps a part as a one-part message
  or fails with a TypeError. `RemovePartKind` runs the source's nested loop,
  which removes each matching part with `list.remove`. The model proves that
  this loop equals a filter that keeps the order of the surviving parts.
- **Supervisor call centre** (`call_centre.dfy`, module `CallCentreGraph`). A Supervisor node
  classifies the prompt into a `Specialist`. It routes the prompt to at most one
  of three specialist nodes, or it answers a General query itself. The chosen
  specialist answers and hands back to the Supervisor. The Supervisor already
  has a response, so it ends the run. The graph engine becomes an explicit loop
  over a node enum in `CallCentre.AskAsync`. That loop is proved against the
  function `Ask`. `GraphState` holds a `const history`, which is the one
  `MessageHistory` shared by every state, because the source declares it at
  class level. `ResetState` therefore keeps the old messages.
- **Mock task store** (`asana_api.dfy`, module `MockAsana`). The Project and Task tables are two
  maps. Each map is keyed by the row's Id folded under SQLite's NOCASE collation,
  which lowers only A-Z. Names and Ids match under NOCASE. A task's ProjectId is
  compared exactly, and that includes the join in `GetTasksByProjectName`. Fresh
  ids (uuid4) and today's date are parameters. The store covers create, read,
  update and delete for projects and tasks, the cascade delete, the lookups by
  name and the link construction.
- **City prompt chain** (`city_insights.dfy`, module `PromptChaining`). The chain runs
  CityDetails → CityHistory → SummarizeResult on a fresh state. It exits early
  when no city is found. `GetDetailsAsync` runs the node loop and is proved
  against the function `Chain`.

`wrappers.dfy` holds `Option` (Python's `None` or a value) and `Result` (a value
or a raised exception).

In the call centre, no specialist can decline a query and there is no
fallback reply. A specialist's text is always the answer. Each agent call
replaces the history with that agent's whole conversation rather than
appending a turn to it.

## Model

| member | source | states |
|---|---|---|
| `Messages.KindOf` | _utils/message_history.py:45-46 | The `part_kind` tag is "system-prompt" exactly for system-prompt parts. |
| `Messages.KindOfInjective` | _utils/message_history.py:45-46 | Two part classes share a tag only when they are the same class, so removing one kind touches no other class. |
| `Messages.InvalidPartMessage` | _utils/message_history.py:37-40 | The TypeError text starts with "Invalid part type: " followed by the offending type's name. |
| `Messages.MessageHistory.constructor` | _utils/message_history.py:15-16 | A new history holds no message. |
| `Messages.MessageHistory.Assign` | _utils/message_history.py:18-20 | The stored list becomes exactly the given list, and the same history object is returned. |
| `Messages.MessageHistory.Append` | _utils/message_history.py:22-40 | A request part adds exactly one `ModelRequest([part])` at the end. A response part adds exactly one `ModelResponse([part])` at the end. Earlier messages are kept. Any other object gives a TypeError with the source's message and leaves the history unchanged. |
| `Messages.MessageHistory.RemovePartKind` | _utils/message_history.py:42-49 | The new list is the old list with every part of the kind filtered out of every message, and `self` is returned. |
| `Messages.RemoveKindFromParts` | _utils/message_history.py:44-47 | Walking a copy of the parts and applying `list.remove` to each part of the kind leaves exactly the other parts, in their original order. |
| `Messages.MessageHistory.GetAllMessages` | _utils/message_history.py:51-52 | Returns the stored list. |
| `Messages.RemoveFirstAfter` | _utils/message_history.py:47 | When the part does not occur before position i, `list.remove` finds it at position i and removes only that occurrence. |
| `Messages.WithoutKindMembership` | _utils/message_history.py:45-47 | A part survives the filter exactly when it was present and its kind differs. |
| `Messages.WithoutKindConcat` | _utils/message_history.py:43-47 | Filtering distributes over concatenation, so surviving parts keep their relative order. |
| `Messages.WithoutKindIdempotent` | _utils/message_history.py:42-49 | Filtering a part list twice gives the same result as filtering it once. |
| `Messages.StripKindRemovesAll` | _utils/message_history.py:42-49 | After the strip, no part of the kind remains in any message. |
| `Messages.StripKindKeepsMessages` | _utils/message_history.py:43-47 | The number of messages is kept, including messages left with no parts. Each message stays a request or a response, and it keeps exactly its parts of other kinds. |
| `Messages.StripKindIdempotent` | _utils/message_history.py:42-49 | Removing a part kind twice gives the same result as removing it once. |
| `CallCentreGraph.Route` | design_patterns/supervisor/call_centre_multi_agent.py:117-128 | Account or Billing goes to the billing/account specialist. Products or Services goes to the product/service specialist. Technical goes to technical support. General, and only General, goes to no specialist. |
| `CallCentreGraph.Ask` | design_patterns/supervisor/call_centre_multi_agent.py:101-213 | The response's specialist is the Supervisor's classification. The text is the Supervisor's `general_response` on the General route, and otherwise the output of the routed specialist's agent, given the same prompt. The path is Supervisor alone, or Supervisor, the routed specialist, Supervisor. The final history replaces the old one: it is the last agent's whole conversation without its system-prompt parts, so none remains. |
| `CallCentreGraph.GraphState.constructor` | design_patterns/supervisor/call_centre_multi_agent.py:56-61 | A state starts with no prompt, no response and the given shared history. Its initial specialist is General; the source's initial value is a placeholder that no node reads, see Left out. |
| `CallCentreGraph.Finalize` | design_patterns/supervisor/call_centre_multi_agent.py:63-70 | Strips system-prompt parts from the history. Records a response that pairs the state's specialist with the given text. |
| `CallCentreGraph.SupervisorRun` | design_patterns/supervisor/call_centre_multi_agent.py:101-131 | With a response already set, the node ends the run and changes nothing. Otherwise the history is replaced by the agent's conversation without system prompts, and the classification is recorded. The node then moves to the routed specialist, or it finalizes with the general response and ends. |
| `CallCentreGraph.SpecialistRun` | design_patterns/supervisor/call_centre_multi_agent.py:133-213 | Each of the three specialist nodes passes the unchanged prompt to its agent. It replaces the history with that agent's conversation, strips system prompts, records the agent's text with the state's specialist, and returns to the Supervisor. |
| `CallCentreGraph.CallCentre.constructor` | design_patterns/supervisor/call_centre_multi_agent.py:215-216 | A call centre starts with a fresh state over the shared history, with no prompt and no response. |
| `CallCentreGraph.CallCentre.ResetState` | design_patterns/supervisor/call_centre_multi_agent.py:232-233 | Reset creates a new state object. The state still uses the same history object, and that history keeps its messages. |
| `CallCentreGraph.CallCentre.AskAsync` | design_patterns/supervisor/call_centre_multi_agent.py:225-230 | Sets the prompt and clears the response. Runs the node loop to End, which always terminates. Returns the response written during the run. The state keeps that response. The returned response, the shared history, the classification and the nodes visited are all as `Ask` states. |
| `MockAsana.FoldIdempotent` | design_patterns/full_autonomous/asana_api.py:66-77 | The NOCASE fold leaves no upper-case ASCII letter, and folding twice gives the same result as folding once. |
| `MockAsana.MapProject` | design_patterns/full_autonomous/asana_api.py:337-341 | The entity carries the row's Id and Name, and its link gives the Id back. |
| `MockAsana.MapTask` | design_patterns/full_autonomous/asana_api.py:328-335 | The entity carries the row's five columns, and its link gives the Id back. |
| `MockAsana.ProjectLinkRoundTrip` | design_patterns/full_autonomous/asana_api.py:337-341 | The id can be read back from a project's link, and the link never parses as a task link. |
| `MockAsana.TaskLinkRoundTrip` | design_patterns/full_autonomous/asana_api.py:328-335 | The id can be read back from a task's link, and the link never parses as a project link. |
| `MockAsana.EffectiveDueDate` | design_patterns/full_autonomous/asana_api.py:195-196 | The due date is today's date when it is missing, empty or "today". Otherwise it is the given date. |
| `MockAsana.TasksNotIn` | design_patterns/full_autonomous/asana_api.py:175 | The kept task rows are exactly those whose ProjectId differs from the given id, and each is unchanged. |
| `MockAsana.TasksNotNamed` | design_patterns/full_autonomous/asana_api.py:320 | The kept task rows are exactly those outside the project or with another name under NOCASE, and each is unchanged. |
| `MockAsana.UpdatedTaskRow` | design_patterns/full_autonomous/asana_api.py:281-289 | The stored row keeps its Id and ProjectId and takes the update's name, due date and status. |
| `MockAsana.UpdatedTaskAsWritten` | design_patterns/full_autonomous/asana_api.py:294-296 | The returned entity has the update's name and due date. Its status is also the update's due date. |
| `MockAsana.UpdatedTaskAsWrittenDisagrees` | design_patterns/full_autonomous/asana_api.py:289-296 | For any row and any update whose status differs from its due date, the returned entity differs from the row that was stored. |
| `MockAsana.UpdatedTask` | design_patterns/full_autonomous/asana_api.py:289-296 | The corrected entity is the stored row mapped to an entity, and its status is the update's status. |
| `MockAsana.AsanaApi.constructor` | design_patterns/full_autonomous/asana_api.py:59-86 | Opening the store keeps the rows already there. |
| `MockAsana.AsanaApi.PurgeAllData` | design_patterns/full_autonomous/asana_api.py:88-97 | Both tables end up empty. |
| `MockAsana.AsanaApi.CreateProject` | design_patterns/full_autonomous/asana_api.py:102-114 | Inserts exactly one project with the fresh id and the given name. Returns that id, that name and the link `https://example.com/projects/<id>`. An id already taken under NOCASE raises the primary-key error and changes nothing. |
| `MockAsana.AsanaApi.GetProjectId` | design_patterns/full_autonomous/asana_api.py:116-123 | Returns None exactly when no project has that name under NOCASE. Otherwise it returns the id of a project with that name. |
| `MockAsana.AsanaApi.GetProjectById` | design_patterns/full_autonomous/asana_api.py:126-133 | Returns None exactly when no project has that Id under NOCASE. Otherwise it returns that project, with its link. |
| `MockAsana.AsanaApi.GetProjectByName` | design_patterns/full_autonomous/asana_api.py:135-142 | Returns None exactly when no project has that name under NOCASE. Otherwise it returns a project with that name. |
| `MockAsana.AsanaApi.UpdateProject` | design_patterns/full_autonomous/asana_api.py:145-158 | An unknown id gives None and changes nothing. Otherwise only that project's name changes, and the project is returned with the new name. |
| `MockAsana.AsanaApi.GetProjects` | design_patterns/full_autonomous/asana_api.py:161-168 | A project entity is in the list exactly when it maps some row of the table. Every row appears exactly once. |
| `MockAsana.AsanaApi.DeleteProjectById` | design_patterns/full_autonomous/asana_api.py:171-182 | For any non-empty id, deletes the project and every task with exactly that ProjectId, and returns true even if nothing existed. A missing or empty id gives false and changes nothing. |
| `MockAsana.AsanaApi.DeleteProject` | design_patterns/full_autonomous/asana_api.py:185-187 | An unknown name gives false and changes nothing. Otherwise, if the project found has a non-empty Id, it is deleted together with its tasks and the result is true. A found project with an empty Id gives false and changes nothing. |
| `MockAsana.AsanaApi.CreateTask` | design_patterns/full_autonomous/asana_api.py:192-210 | Inserts exactly one task with the fresh id, the effective due date and the status, which defaults to "Not Started". It does not check that the project exists. An id already taken raises the primary-key error and changes nothing. |
| `MockAsana.AsanaApi.GetTaskById` | design_patterns/full_autonomous/asana_api.py:213-220 | Returns None exactly when no task has that Id under NOCASE. Otherwise it returns that task. |
| `MockAsana.AsanaApi.GetTaskByName` | design_patterns/full_autonomous/asana_api.py:223-234 | Returns None when no project has the name. A result is a task with the name under NOCASE in a project with the project name. None while a project of that name exists means some project of that name has no task with the name. |
| `MockAsana.AsanaApi.MapTaskRows` | design_patterns/full_autonomous/asana_api.py:241-242 | The list holds exactly the entities of the selected rows, each row once. |
| `MockAsana.AsanaApi.GetTasksByProjectId` | design_patterns/full_autonomous/asana_api.py:237-244 | A task entity is in the list exactly when it maps a row whose ProjectId equals the id. Each such row appears once. |
| `MockAsana.AsanaApi.GetTasksByProjectName` | design_patterns/full_autonomous/asana_api.py:247-261 | A task entity is in the list exactly when it maps a row whose exact ProjectId is the Id of some project with that name under NOCASE. Each such row appears once. |
| `MockAsana.AsanaApi.UpdateTaskStatus` | design_patterns/full_autonomous/asana_api.py:264-274 | Returns true exactly when both arguments are non-empty, even if no task matches. In that case a matching task gets the status. Otherwise nothing changes. |
| `MockAsana.AsanaApi.UpdateTask` | design_patterns/full_autonomous/asana_api.py:276-298 | An unknown task gives None and changes nothing. Otherwise the row gets the update's name, due date and status. The returned entity carries the update's due date as its status. |
| `MockAsana.AsanaApi.DeleteTaskById` | design_patterns/full_autonomous/asana_api.py:300-310 | A non-empty id deletes the task with that Id under NOCASE and returns true, even if there was none. An empty id gives false and changes nothing. |
| `MockAsana.AsanaApi.DeleteTaskByName` | design_patterns/full_autonomous/asana_api.py:312-326 | An unknown project name or an empty name gives false and changes nothing. Otherwise the project's tasks with that name are deleted and the result is true. |
| `PromptChaining.HistoryPrompt` | design_patterns/prompt_chaining/city_insights.py:83 | The history prompt quotes the city as the f-string renders it (None as "None"), and that text can be read back from it. |
| `PromptChaining.SummarizePrompt` | design_patterns/prompt_chaining/city_insights.py:100 | The summarize prompt quotes the brief history as the f-string renders it, and that text can be read back from it. |
| `PromptChaining.CityInsightsState.constructor` | design_patterns/prompt_chaining/city_insights.py:36-41 | A fresh state has every field empty. |
| `PromptChaining.Chain` | design_patterns/prompt_chaining/city_insights.py:61-123 | The city details are the first step's output. The summary is None exactly when no city was found, and in that case only CityDetails runs. Otherwise the nodes run once each in the order CityDetails, CityHistory, SummarizeResult, and the summary is the third step's output on the second step's output. |
| `PromptChaining.CityDetailsRun` | design_patterns/prompt_chaining/city_insights.py:61-72 | Records the agent's details for the prompt. Ends the run when the city is None, and otherwise moves to CityHistory. |
| `PromptChaining.CityHistoryRun` | design_patterns/prompt_chaining/city_insights.py:81-89 | Records the history agent's answer to the history prompt for the city, then moves to SummarizeResult. |
| `PromptChaining.SummarizeResultRun` | design_patterns/prompt_chaining/city_insights.py:98-106 | Records the summarize agent's answer to the prompt that embeds the brief history, then ends the run. |
| `PromptChaining.GetDetailsAsync` | design_patterns/prompt_chaining/city_insights.py:115-123 | Starts from a fresh state that holds only the prompt, so nothing carries over between calls. Returns the city details and the summary as `Chain` states, together with the nodes visited. |

## Findings

| source | as written | input that shows it | evidently intended | confidence | as-written member | corrected member |
|---|---|---|---|---|---|---|
| design_patterns/full_autonomous/asana_api.py:296 | `update_task` sets the returned entity's status to the update's due date | update with due date "2025-02-01" and status "Done": the returned status is "2025-02-01" but "Done" is stored | the returned entity's status is the update's status, matching the stored row | high (not executed) | `MockAsana.UpdatedTaskAsWritten` | `MockAsana.UpdatedTask` |

`AsanaApi.UpdateTask` returns the value as written, because this is what the
repository's callers receive. `UpdatedTask` is the corrected entity, and it is
proved to equal the stored row.

## Left out

- Language-model agents: the Supervisor, specialist and city agents are total function parameters. Each agent is called at most once per run, so a function loses nothing within one run. Their content, streaming, retries and failures are not modelled.
- Token `Usage` accounting, which the nodes thread through every agent call, is a framework object and is not modelled.
- The generic graph engine is replaced by the explicit node loops in `AskAsync` and `GetDetailsAsync`.
- Message objects are values. The source mutates shared message objects in place, so the list passed to `assign` and the list returned by `get_all_messages` alias the stored one. The model copies values instead, and that aliasing is not modelled.
- `to_json` / `messages_to_json`: serialisation through a foreign adapter, not modelled.
- CallCentreGraph.GraphState.constructor: the source's initial specialist is the `Field(...)` object itself, because `GraphState` is a plain class rather than a validated model. No node reads it before the Supervisor writes the classification, so the model starts with General.
- The class-level history is also shared between call-centre instances. The model passes it to the constructor, and each instance keeps it.
- The tool-calling call centre variant, its streaming and the tool wrappers are thin delegation over the framework and are not modelled. The console and web front-ends and their exit, clear and reset commands are not modelled either.
- SQLite connections, commits and table DDL are left out. The tables are maps, and the connection file persists rows between runs, which the constructor's parameters stand for.
- `None` for string arguments is not modelled, except for the project id in `DeleteProjectById`, which can be None when `delete_project` finds no project. A `None` reaching a truthiness test behaves like the empty string.
- MockAsana.AsanaApi.GetProjectId: when several projects share a name, SQLite returns the first row in scan order. The model returns any matching row.
- MockAsana.AsanaApi.GetProjectByName: when several projects share a name, the model returns any of them rather than the first in scan order.
- MockAsana.AsanaApi.GetTaskByName: when several rows match, the model picks any of them rather than the first in scan order.
- MockAsana.AsanaApi.DeleteProject: when several projects share the name, the model deletes any one of them rather than the first in scan order.
- MockAsana.AsanaApi.DeleteTaskByName: when several projects share the name, the model uses any one of them rather than the first in scan order.
- MockAsana.AsanaApi.GetProjects: the list order (rowid order in SQLite) is not modelled. The result is a permutation of the table.
- MockAsana.AsanaApi.GetTasksByProjectId: the list order is not modelled.
- MockAsana.AsanaApi.GetTasksByProjectName: the list order is not modelled.
- The format of today's date (`str(datetime.now().date())`) is not modelled, because the date is a parameter.
