# Agent knowledge-base synchronisation, modelled in Dafny

The repository keeps a conversational agent's knowledge base in step with a file of
collected facts. One run of `uploader.py` uploads `facts.txt` as a knowledge-base
document named `facts`, fetches the agent configuration, and replaces the agent's list of
knowledge-base references. Every earlier reference whose `name` or `id` starts with
`facts` is dropped, every other reference is kept in order, and one fresh reference
`{type: "file", name: "facts", id: <new id>, usage_mode: "auto"}` is appended. The run
then PATCHes `conversation_config.agent.prompt.knowledge_base` and fetches the agent once
more to report it. The news plugin `plugins/news_plugin.py` builds the query for the
top-headlines endpoint and turns the decoded answer into an error record or a list of
headlines.

Files:

- `wrappers.dfy`: `Option` and `Result`.
- `json.dfy`: decoded JSON values (`Json.Value`) and Python iteration over them.
- `kb_merge.dfy` (module `KnowledgeBase`): the filter, the merge, the PATCH body, and
  reading and writing the nested list. It includes a declarative definition of a stale
  reference (`Stale`, `WellShaped`, `KeptPositions`) that the Python-shaped filter is
  proved against.
- `uploader.dfy` (module `Uploader`): each step of a run is a function on `RemoteState`.
  The remote state is the agent configuration, the stored documents and the log of
  requests. Class `Remote` holds the same state in fields. Its methods
  `UploadToKnowledgeBase`, `FetchAgent`, `UpdateAgentKnowledge` and `Synchronize` (for
  `main`) perform the steps and are proved equal to the functions. Lemmas about `Run` state the ordering,
  failure and last-writer-wins properties.
- `news.dfy` (module `News`): parameter construction, classification and projection.

The merge and the news projection follow the Python evaluation order. That includes the
short-circuit `or` in the filter, which reads `id` only when `name` does not match. It also
includes the order in which a headline's members are read, which decides which `KeyError`
is reported. In the merge, an entry that is not a dict, or whose `name`/`id` is present but
not a string, makes the comprehension raise. The model reports this as a failed merge
(`None`), which `Run` turns into `MalformedKnowledgeBase`.

What the code does not do, and how it treats failures:

- There is no deletion of stale documents and no paginated listing. Documents accumulate
  in `RemoteState.documents`.
- There is no collection or formatting step. The upload sends `facts.txt` as it is.
- The verification step does not check the new id. A non-200 status on the verification
  GET raises, and `main` catches and logs it like every other failure.
- A missing agent id is detected only after the upload (`NoAgentIdUploadsOnly`), so
  that run leaves an uploaded document that nothing references.
- Only status 200 counts as success. Any other code, 2xx included, raises.

## Model

| member | source | states |
|---|---|---|
| KnowledgeBase.MatchesReservedIsStale | uploader.py:77-80 | the filter's `get(..., "").startswith("facts")` test raises exactly on ill-shaped entries and otherwise says whether `name` or `id` starts with "facts" |
| KnowledgeBase.NewRefIsStale | uploader.py:83-88 | the appended reference is well shaped and is itself matched by the filter (its name is "facts") |
| KnowledgeBase.FilterDefined | uploader.py:77-80 | the comprehension completes if and only if every entry is well shaped |
| KnowledgeBase.KeptPositionsIncreasing | uploader.py:77-80 | the positions of the kept entries are strictly increasing and within the list |
| KnowledgeBase.KeptPositionsMember | uploader.py:77-80 | a position is kept if and only if its entry is not stale; a missing `name` or `id` counts as "" and does not make an entry stale |
| KnowledgeBase.FilterAtKeptPositions | uploader.py:77-80 | the filter's output is, entry for entry, the input at the kept positions |
| KnowledgeBase.FilterIsKeptSubsequence | uploader.py:77-80 | the filter keeps exactly the non-stale entries, unchanged and in their original relative order |
| KnowledgeBase.FilterClean | uploader.py:77-80 | a list without stale entries passes the filter unchanged |
| KnowledgeBase.FilterAppend | uploader.py:77-80 | the filter distributes over concatenation, so it never reorders |
| KnowledgeBase.MergeShape | uploader.py:77-88 | the merged list ends with the new reference, which is its only stale entry, and every other entry comes from the old list |
| KnowledgeBase.MergeLength | uploader.py:77-88 | the merged list has one entry more than the number of non-stale old entries |
| KnowledgeBase.MergeLastWriterWins | uploader.py:77-88 | merging id b after id a gives what merging b alone gives |
| KnowledgeBase.MergeIdempotent | uploader.py:77-88 | merging the same id twice equals merging it once |
| KnowledgeBase.MissingPathMeansNoRefs | uploader.py:69-88 | when any level of `conversation_config.agent.prompt.knowledge_base` is missing or not a dict, the existing list is empty and the PATCH body carries the new reference alone |
| KnowledgeBase.PatchBodyShape | uploader.py:90-98 | the PATCH body has one member per level and holds only `conversation_config.agent.prompt.knowledge_base`, set to the merged list |
| KnowledgeBase.SetKnowledgeBaseFrame | uploader.py:90-104 | applying the PATCH sets the nested list, which then reads back as exactly that list, and leaves the other members at each of the four levels (the configuration, `conversation_config`, `agent`, `prompt`) untouched |
| Uploader.Remote.UploadToKnowledgeBase | uploader.py:18-52 | an API-key check before any request, then the POST; a non-200 status raises; a 200 stores the document and returns the response body |
| Uploader.Remote.FetchAgent | uploader.py:111-132 | API-key and agent-id checks before any request, then the GET; a non-200 status raises; a 200 returns the stored configuration |
| Uploader.Remote.UpdateAgentKnowledge | uploader.py:54-109 | checks, fetch, merge, one PATCH with the merged body; a non-200 status raises; a 200 replaces the agent's list |
| Uploader.Remote.Synchronize | uploader.py:134-165 | upload, update, verify in that order; the first failure ends the run and is returned, never propagated |
| Uploader.CredentialsCheckedFirst | uploader.py:54-66 | a missing API key or agent id fails `update_agent_knowledge` and `get_agent` before any request and changes nothing |
| Uploader.NoApiKeyNoRequest | uploader.py:18-21 | without an API key a run sends nothing, changes nothing and reports the missing key |
| Uploader.NoAgentIdUploadsOnly | uploader.py:134-143 | without an agent id the document is still uploaded, the agent is untouched and the run reports the missing id |
| Uploader.UploadFailureStopsRun | uploader.py:50-51 | a rejected upload ends the run after the POST alone, with agent and documents unchanged |
| Uploader.RunRequestOrder | uploader.py:134-148 | a run only appends to the request log, in the order upload, get, patch, get; a PATCH is sent only after an accepted upload with an id and an accepted fetch |
| Uploader.AgentChangesOnlyByPatch | uploader.py:100-107 | the agent configuration changes only through an accepted PATCH, and then its list becomes the merge |
| Uploader.RunSucceeds | uploader.py:134-148 | a run reports no error if and only if every step succeeds; the agent's list is then the merge, with the new reference last and the only stale one, and exactly four requests were sent |
| Uploader.RepeatedRunsLastWriterWins | uploader.py:134-148 | after two successful runs the agent's list is the original list merged with the second id only, so no references accumulate |
| News.BuildParams | plugins/news_plugin.py:24-29 | the query holds `apiKey` and `country`, and also `category` if and only if the category is truthy |
| News.RunWithDefaults | plugins/news_plugin.py:8-29 | `run()` without arguments queries exactly `apiKey` and `country=us`, with no category, and echoes "us" and no category in a success record |
| News.Run | plugins/news_plugin.py:17-33 | without a truthy key the error record is returned and no request is made; otherwise the request is sent and the outcome is the response's classification |
| News.NotOkIsError | plugins/news_plugin.py:34-38 | a status other than "ok" yields an error record carrying `message`, or "Unknown error from NewsAPI" when it is absent |
| News.ProjectSpec | plugins/news_plugin.py:39-47 | an article projects if and only if it is a dict with title, description, url and a source dict with a name, and the headline holds those four values |
| News.HeadlinesPerArticle | plugins/news_plugin.py:39-47 | the comprehension succeeds if and only if every article projects, giving one headline per article in the same order |
| News.HeadlinesFirstFailure | plugins/news_plugin.py:39-47 | a failed comprehension reports the error of the first article that does not project |
| News.HeadlinesUpToFailure | plugins/news_plugin.py:39-47 | the first failing article decides the comprehension's failure, whatever follows it |
| News.SuccessSpec | plugins/news_plugin.py:39-53 | a success record echoes country and category, comes from an "ok" body, has one headline per article in order, and has none when `articles` is absent |
| News.MissingMemberIsParseError | plugins/news_plugin.py:59-63 | a missing article member yields the error record "Failed to parse news data: '<key>'", not an exception |
| KnowledgeBase.FieldHasPrefix | uploader.py:79 | definition of `kb.get(key, "").startswith("facts")`; specified by MatchesReservedIsStale |
| KnowledgeBase.MatchesReserved | uploader.py:79 | definition of the short-circuit `or` of the name and id tests; specified by MatchesReservedIsStale |
| KnowledgeBase.Filter | uploader.py:77-80 | definition of the list comprehension; specified by FilterDefined, FilterIsKeptSubsequence and FilterAppend |
| KnowledgeBase.Merge | uploader.py:77-88 | definition of filter-then-append; specified by MergeShape, MergeLength and MergeLastWriterWins |
| KnowledgeBase.KnowledgeBaseField | uploader.py:69-74 | definition of the nested lookup with its `[]` fallback; specified by MissingPathMeansNoRefs and SetKnowledgeBaseFrame |
| KnowledgeBase.ExistingRefs | uploader.py:70-78 | definition of the list the comprehension iterates; specified by MissingPathMeansNoRefs and SetKnowledgeBaseFrame |
| KnowledgeBase.PatchBody | uploader.py:90-98 | definition of the PATCH body; specified by PatchBodyShape |
| KnowledgeBase.SetKnowledgeBase | uploader.py:100-104 | definition of the assumed effect of the PATCH on the stored configuration; specified by SetKnowledgeBaseFrame |
| Uploader.ApplyPatch | uploader.py:100-107 | definition: the service applies an accepted PATCH by SetKnowledgeBase; specified by AgentChangesOnlyByPatch |
| Uploader.UploadStep | uploader.py:18-52 | definition of `upload_to_knowledge_base` on the remote state; specified by UploadFailureStopsRun, NoApiKeyNoRequest and Remote.UploadToKnowledgeBase |
| Uploader.GetAgentStep | uploader.py:111-132 | definition of `get_agent` on the remote state; specified by CredentialsCheckedFirst and Remote.FetchAgent |
| Uploader.UpdateStep | uploader.py:54-109 | definition of `update_agent_knowledge` on the remote state; specified by CredentialsCheckedFirst, AgentChangesOnlyByPatch and Remote.UpdateAgentKnowledge |
| Uploader.DocumentId | uploader.py:139 | definition of `kb_response['id']`; specified by RunRequestOrder and RunSucceeds |
| Uploader.Run | uploader.py:134-165 | definition of `main` on the remote state; specified by RunRequestOrder, RunSucceeds and RepeatedRunsLastWriterWins |
| News.Index | plugins/news_plugin.py:41-44 | definition of `v[key]` with its KeyError and TypeError; specified by ProjectSpec |
| News.Project | plugins/news_plugin.py:40-45 | definition of one headline, members read in order; specified by ProjectSpec |
| News.Headlines | plugins/news_plugin.py:39-47 | definition of the comprehension over the articles; specified by HeadlinesPerArticle and HeadlinesFirstFailure |
| News.ParseError | plugins/news_plugin.py:59-63 | definition of the parse-error text; specified by MissingMemberIsParseError |
| News.Classify | plugins/news_plugin.py:34-63 | definition of the classification of a decoded body; specified by NotOkIsError, SuccessSpec and MissingMemberIsParseError |
| News.Respond | plugins/news_plugin.py:30-63 | definition of `run` after the request; specified by SuccessSpec and News.Run |

## Left out

- The HTTP requests themselves and `response.json()`. Their outcomes are parameters
  (`Uploader.Network`, `News.Fetch`). The body of an upload response is any decoded JSON value.
- How the service applies a PATCH is not visible in this code. The model assumes it
  replaces `conversation_config.agent.prompt.knowledge_base` and keeps everything else
  (`Uploader.ApplyPatch`).
- Reading `facts.txt`, `print`, `load_dotenv`/`os.getenv` and all logging. In particular,
  `main`'s loop that logs each reference after verification is left out: it only logs.
  The environment is the parameter `Uploader.Config`, and whether the file opens is
  `Network.fileReadable`.
- When `facts.txt` cannot be opened, the Python code logs the error and then fails on
  an unbound `response`. The model reports `FileUnreadable` with no request sent, which
  has the same effect.
- The contents of knowledge-base entries other than `name` and `id`. Entries are kept
  or dropped as whole JSON values.
- JSON numbers are integers. No part of the model reads them.
- Iterating a non-empty string or dict, or a null, number or boolean, where a list is
  expected: the model treats all of these as one failure (`Json.Elements` returns None).
  In Python they raise different exceptions, and every consumer here handles those
  exceptions alike.
- The news plugin's `RequestException` covers transport errors, statuses rejected by
  `raise_for_status`, and a body that is not JSON. Under older versions of `requests` the
  last case raised `ValueError` and was reported with the parse-error prefix instead.
  This model follows current versions.
- The news plugin's uncaught exceptions (a body or article that is not a dict, or
  `articles` that cannot be iterated) are the outcome `Raised`. Their exception type is
  not modelled.
- `logger.py`, `main.py` (the Flask route and the timestamped append), and the weather
  and time plugins are not part of this model. They contain I/O, floating point and
  clock reads only.
