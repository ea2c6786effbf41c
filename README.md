# Travel planner and document chat: a Dafny model

This project models the logic inside two small Streamlit applications.

- **The travel planner** (`assign_2.py`) runs a planner stage, then a reviewer stage, for each user request.
  - Its `redact_for_logs` sanitises values before they reach the tool-activity log.
  - A single process-wide logger slot (`TOOL_LOGGER`) receives tool events.
  - The `internet_search` tool reports `call`, then `error` or `result`, then `end`.
  - The request handler appends to two parallel history lists, `messages` and `meta`.
- **The document chat** (`chat_with_pdf.py`) reads uploaded `.txt`/PDF files into documents and joins retrieved documents into a prompt context. It appends de-duplicated source citations to each answer. It also defines a conversion of the chat history to model messages (`lc_history_from_streamlit`), but never calls it: each question sends only a system message and one human message to the model.

Modules (one file each):

| file | module | models |
|---|---|---|
| `options.dfy` | `Options` | a missing dictionary entry or attribute (`Option`) |
| `text.dfy` | `Text` | ASCII lower-casing, substring search (`in`), `endswith`, `str.join`, `str(int)` |
| `redaction.dfy` | `Redaction` | `redact_for_logs` |
| `search_tool.dfy` | `SearchTool` | the events and the text of `internet_search`, for each outcome of the search |
| `travel_planner.dfy` | `TravelPlanner` | `extract_text`, the turn handler, and the class `Planner` holding the logger slot, the request's tool events and the two history lists |
| `doc_chat.dfy` | `DocChat` | `read_txt`/`read_pdf` over abstract page texts, the upload routing, `build_context`, `lc_history_from_streamlit`, the citation block, the question turn, and the class `ChatSession` |

Pure code is written as functions with lemmas. Code that changes state is written as methods:
- the global slot and the lists the handlers append to are fields of a class;
- the loops of `read_pdf`, the upload routing, `lc_history_from_streamlit` and the citation block are methods with loop invariants.

Each method is proved against a specification function or states its result outright. The properties are lemmas about those functions.

Main results:
- `Redaction.RedactSanitizes` says every redacted `Value` (strings, string-keyed dictionaries, lists and scalars) is *sanitized*:
  - no string reachable through dictionary values and list elements looks secret or is longer than 300 characters;
  - every value under a secret-looking key is `"[redacted]"`.
- `Redaction.SanitizedUnchanged` says a sanitized value passes through unchanged. So redaction is idempotent (`Redaction.RedactIdempotent`).
- `SearchTool.SearchEvents` states the event protocol for all three outcomes. `Planner.InternetSearch` emits exactly those events through the slot, and none when the slot is empty.
- `Planner.HandleTurn` ties each turn to `TravelPlanner.RunTurn`, whose contract gives these properties:
  - the two lists grow by two entries each;
  - the reviewer's input is the planner's extracted text;
  - the reviewer is skipped when the planner raises.
  The handler clears the logger slot on every path.
- `DocChat.Dedup` and `DocChat.DedupKeepsFirstOrder` characterise `dict.fromkeys`:
  - the result has no duplicates;
  - it has the same elements as the input;
  - first occurrences keep their order.

External effects become parameters:
- whether the search API key is present, and what the search returns or raises (`SearchOutcome`);
- what each stage returns or raises (`string -> StageResult`);
- what the PDF reader extracts per page (`PageExtraction`);
- what the retriever and the language model return or raise (`Retrieval`, `string -> Completion`).

Two points where the source's own text and its code part ways; the model follows the code:
- The UI promises "live tool calls in the sidebar" (assign_2.py:186) and announces the reviewer as "validating with live searches" (assign_2.py:271, 274), but the reviewer is built with `tools=[]` (assign_2.py:139). So the turn calls no tool, and the request's tool-event list stays empty.
- `run_planner` and `run_reviewer` let stage exceptions escape (assign_2.py:167-176), but the handler catches them itself and records an error entry (assign_2.py:294-300). That handling is what `RunTurn` models.

## Model

| member | source | states |
|---|---|---|
| `Text.ContainsIff` | assign_2.py:59 | the substring test used for `k in low` holds exactly when the fragment occurs at some index |
| `Text.JoinSnoc` | chat_with_pdf.py:104 | `sep.join` keeps order: one more piece lands after one more separator |
| `Text.JoinLength` | chat_with_pdf.py:104 | a join is the pieces plus one separator between neighbours, nothing else |
| `Text.NatToStringRoundTrip` | chat_with_pdf.py:151 | the page number written after `:p` reads back as that number |
| `Redaction.RedactString` | assign_2.py:57-61 | a redacted string is at most 300 characters and never looks secret; a secret-looking input becomes exactly `"[redacted]"`, which differs from it |
| `Redaction.RedactedMarkerNotSecret` | assign_2.py:60 | the redaction marker itself mentions none of `api_key`, `token`, `secret`, `password` |
| `Redaction.TruncatedNotSecret` | assign_2.py:61 | cutting a non-secret string to 120 characters and adding `… [truncated]` cannot create a secret fragment |
| `Redaction.RedactStringLength` | assign_2.py:61 | a non-secret string of at most 300 characters is unchanged; a longer one becomes its first 120 characters plus `… [truncated]`, 133 characters |
| `Redaction.Redact` | assign_2.py:62-68 | a dictionary keeps exactly its key set; a secret-looking key's value becomes `"[redacted]"`; other values, and list elements at the same index, are redacted recursively; a list keeps its length; other scalars are unchanged |
| `Redaction.SecretKeyNeverEchoed` | assign_2.py:63-64 | the value under a secret-looking key is replaced whatever it held, and the key stays |
| `Redaction.RedactSanitizes` | assign_2.py:52-68 | for every `Value`, no string in the output (through dictionary values and list elements) looks secret or exceeds 300 characters, and every secret-key value is the marker |
| `Redaction.SanitizedUnchanged` | assign_2.py:52-68 | a value that is already sanitized comes back unchanged |
| `Redaction.RedactIdempotent` | assign_2.py:52-68 | redacting twice gives the same as redacting once |
| `SearchTool.FormatResults` | assign_2.py:103-105 | the output is `"No results found."` exactly when there are no hits; otherwise it starts with a `- ` bullet, and a single hit gives exactly its `- title: content` line |
| `SearchTool.FormatResultsSnoc` | assign_2.py:104-105 | together with `FormatResults` (a single hit gives exactly its line): hits appear in service order, one `- title: content` line each (`N/A` for a missing field), separated by newlines |
| `SearchTool.Preview` | assign_2.py:110 | the `result` preview is never longer than 300 characters and never looks secret |
| `SearchTool.ShortPreviewVerbatim` | assign_2.py:110 | a short, non-secret output is previewed verbatim |
| `SearchTool.SearchOutput` | assign_2.py:93-116 | the returned text starts with `Search error: ` exactly when the key is missing or the search raised |
| `SearchTool.SearchEvents` | assign_2.py:91-119 | for every outcome: three events, exactly one `call` (first, with the redacted query) and one `end` (last), one `error` and no `result` on a failure, one `result` and no `error` on success, all tagged `internet_search` |
| `SearchTool.MissingKeyProtocol` | assign_2.py:94-98 | a missing key gives exactly `[call, error, end]` and `Search error: missing TAVILY_API_KEY in environment.` |
| `SearchTool.RaisedProtocol` | assign_2.py:114-116 | a raised exception's description is in the `error` event before `end` and in the returned text after `Search error: ` |
| `SearchTool.ResultsProtocol` | assign_2.py:103-112 | success gives exactly `[call, result, end]`, returns the formatted hits, and the preview fits 300 characters |
| `TravelPlanner.ExtractText` | assign_2.py:155-164 | `final_output` if non-empty, else `text` if non-empty, else `str(obj)` |
| `TravelPlanner.ExtractTextEmpty` | assign_2.py:160-164 | the extracted text is empty only when all three sources are |
| `TravelPlanner.ErrorEntry` | assign_2.py:297 | the failure entry shows the exception's description |
| `TravelPlanner.RunTurn` | assign_2.py:225-304 | each list gains two entries (user entry with `None` meta, then an assistant entry); the planner runs on the user text with the logger installed; the reviewer runs exactly when the planner returned, on the planner's extracted text; the raw plan is kept for the expander exactly when both stages returned |
| `TravelPlanner.TurnSuccess` | assign_2.py:266-292 | when both stages return, the history gains the reviewer's text with trace `Planner Agent → Reviewer Agent` and the planner's text is kept aside |
| `TravelPlanner.PlannerFailure` | assign_2.py:266-300 | a raising planner: the reviewer is not run, the history gains the error entry with trace `Runtime error.`, no plan is kept |
| `TravelPlanner.ReviewerFailure` | assign_2.py:273-300 | a raising reviewer: both stages ran, the history gains the error entry, and the plan is not shown |
| `TravelPlanner.Planner.constructor` | assign_2.py:208-211 | both history lists start empty, and so does the logger slot (`TOOL_LOGGER = None`, line 33) |
| `TravelPlanner.Planner.SetToolLogger` | assign_2.py:36-39 | afterwards the slot holds exactly the given logger (or nothing) |
| `TravelPlanner.Planner.Deliver` | assign_2.py:241-243 | the request's logger records the event once before its rendering may raise |
| `TravelPlanner.Planner.LogToolEvent` | assign_2.py:42-49 | with an empty slot nothing changes; otherwise the event is delivered exactly once and a raising logger does not propagate |
| `TravelPlanner.Planner.InternetSearch` | assign_2.py:84-119 | returns the tool's text and delivers exactly `SearchEvents` through the slot, or nothing when the slot is empty |
| `TravelPlanner.Planner.RunStage` | assign_2.py:167-176 | a stage is invoked once on its input and the invocation is recorded with the slot's content |
| `TravelPlanner.Planner.AppendError` | assign_2.py:299-300 | the error entry and its `Runtime error.` trace are appended together |
| `TravelPlanner.Planner.HandleTurn` | assign_2.py:225-304 | the history lists and stage runs change exactly as `RunTurn` says, `len(messages) == len(meta)` is kept, the planner's text is returned for the "raw plan" expander only when both stages returned, and the slot is empty afterwards on every path |
| `DocChat.ReadPdf` | chat_with_pdf.py:44-57 | n pages give n documents; document i has page i + 1, the file's name as source, and empty content when extraction failed or gave nothing |
| `DocChat.LoadUploads` | chat_with_pdf.py:70-77 | the collected documents are each upload's documents, upload after upload |
| `DocChat.TxtUploadIsOneDocument` | chat_with_pdf.py:40-42 | a name ending in `.txt` in any letter case gives exactly one document whose source is the original name |
| `DocChat.PdfUploadPages` | chat_with_pdf.py:73-77 | any other name is read as a PDF, page by page |
| `DocChat.RoutingExamples` | chat_with_pdf.py:73-74 | `NOTES.TXT` is read as text and `notes.txt.pdf` as a PDF |
| `DocChat.AllDocumentsAppend` | chat_with_pdf.py:71-77 | documents keep the upload order |
| `DocChat.BuildContext` | chat_with_pdf.py:103-104 | no documents give `""` and one document gives its content unchanged |
| `DocChat.BuildContextSnoc` | chat_with_pdf.py:103-104 | contents appear in retrieval order, separated by blank lines |
| `DocChat.BuildContextLength` | chat_with_pdf.py:103-104 | the context holds nothing but the contents and the separators |
| `DocChat.LcHistoryFromStreamlit` | chat_with_pdf.py:106-115 | the loop computes the converted history |
| `DocChat.LcHistoryLength` | chat_with_pdf.py:106-115 | the output has one message per user or assistant entry, never more than the input |
| `DocChat.LcHistoryAppend` | chat_with_pdf.py:106-115 | conversion keeps the original order |
| `DocChat.LcHistorySingle` | chat_with_pdf.py:109-114 | `user` becomes Human, `assistant` becomes AI, a missing content becomes `""`, other roles are dropped |
| `DocChat.ConversationalHistoryKept` | chat_with_pdf.py:86-89 | the session's own history, all user or assistant entries, converts message for message |
| `DocChat.CollectCites` | chat_with_pdf.py:147-151 | one citation per retrieved document, in order: the source (`""` if missing), then `:p` and the page when present and non-zero |
| `DocChat.CitePagesDistinct` | chat_with_pdf.py:151 | two different pages of one source get different citations |
| `DocChat.CiteUploadedDocument` | chat_with_pdf.py:40-57 | a text document cites its file name; the document read from PDF page i + 1 cites `name:p(i+1)` |
| `DocChat.Dedup` | chat_with_pdf.py:152 | the citation list has no duplicates and the same elements as before |
| `DocChat.DedupKeepsFirstOrder` | chat_with_pdf.py:152 | de-duplicated citations are in order of first occurrence |
| `DocChat.DedupDistinct` | chat_with_pdf.py:152 | a list with no repetitions is unchanged |
| `DocChat.EmptyRetrievalReply` | chat_with_pdf.py:128-131 | an empty retrieval answers exactly `I don't know based on the provided documents.` |
| `DocChat.AnsweredReply` | chat_with_pdf.py:142-153 | an answer becomes `answer + "\n\nSources: " + cites`, where every retrieved document's citation appears once |
| `DocChat.ChatSession.constructor` | chat_with_pdf.py:86-89 | a fresh history is exactly the assistant greeting |
| `DocChat.ChatSession.Ask` | chat_with_pdf.py:118-159 | a question adds the user entry and then exactly one assistant entry: `I don't know…`, `Error: e` or the answer with sources; the history stays user/assistant only |

## Left out

- Streamlit rendering in both apps is not modelled: pages, chat bubbles, status boxes, the progress bar, `time.sleep`, the sidebar panel that shows the last 60 events, and the history rendering loops. The reset button that clears `session_state` is left out too. All of these are presentation only.
- `Agent`, `Runner.run` and `asyncio.run` are opaque. Each stage is a total function from input text to a raised error or a result object. The instruction strings are empty placeholders.
- The reviewer calls no tool during a turn, because it is built with `tools=[]`. The search tool is stated per call, and `Planner.HandleTurn` leaves the request's tool-event list empty.
- `TavilyClient` and its network call are replaced by `SearchOutcome`. The service's cap of 3 results is its own promise and is not imposed.
- Environment variables are not read. `load_dotenv`, the `os.environ` defaults and the API-key read become "key present or absent" (`MissingKey`).
- Lower-casing is ASCII only. Python's `str.lower()` folds all of Unicode. Characters are Unicode scalar values, so `…` counts as one character, as in Python.
- `Redaction.Redact`: `Value` holds strings, string-keyed dictionaries, lists, integers, booleans and `None` only. A non-string key makes the source raise on `k.lower()`. Tuples, sets and other objects are outside `Value`: the source returns them unchanged, so a secret string inside a tuple such as `("my token",)` is logged unredacted, and `RedactSanitizes` says nothing about them. Python dictionaries keep their key order and `map` does not, so the model does not state that the redacted dictionary keeps the order of its keys.
- `TravelPlanner.ExtractText`: `final_output` and `text` are modelled as optional strings. A truthy non-string attribute, which the source would return as is, is not modelled.
- Exceptions raised by `st.*` calls inside the handler's `try` are not modelled. Only stage failures are.
- The document chat's external services are opaque: embeddings, the Chroma vector store, the text splitter and chunk indexing. The retriever's `k=4` is not imposed. The fixed system message is not part of `Prompt`.
- PDF parsing is abstract. An exception from `PdfReader` itself aborts the whole script and is not modelled. The `pypdf`/`PyPDF2` import fallback and UTF-8 decoding are not modelled either: an upload carries both its decoded text and its per-page extractions, and the name decides which one is used.
- `st.stop()` after an empty retrieval is modelled as ending the turn. It raises a control exception that `except Exception` does not catch, so no further entry is appended.
- `lc_history_from_streamlit` is modelled on its own. The script defines it but never calls it.
- `streamlit_sample.py` is not part of this model; it is UI only.
