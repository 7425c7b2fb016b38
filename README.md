# Data-science chatbot: answering pipeline and chat session, in Dafny

This project models the two pieces of logic in the chatbot that do not depend
on a model, a network or a screen.

The first is the request logic of `RAGPipeline` (src/rag_engine.py). It runs
the same steps as the source:

- It keeps the search hits that score strictly above 0.35, in their original
  order. It returns `None` when no hit passes or when the search raises.
- It pulls each hit's text from the payload fields `answer`, `tra_loi` and
  `text`, in that order. An empty field counts as missing.
- It joins the texts as `"- "` lines into the context.
- It renders the ChatML prompt.
- It returns one of three answers: the fixed refusal, which is given without
  calling the language model; the generation-error prefix plus the
  exception message; or the model's output, stripped.

The embedding model with the vector store, and the language model, are
oracles. They are function-valued constants of the class `RagPipeline`. A
ghost log, `prompts`, records every prompt handed to the language model, so
"the model is never called" can be stated exactly.

The second is the session state behind the Streamlit page (src/app.py). It
covers `init_session`, creating, deleting and selecting chats, the login
check, logout, and the main-area step. That step ensures a chat is current,
appends the question and the answer, and titles the chat after its first
question. `st.session_state` is the class `ChatApp.SessionState`; the set
`present` records which keys have been set. Three inputs are parameters:
`uuid4()` as the new chat id, `datetime.now()` as an `Instant`, and
`get_rag_response` as an oracle that answers or raises.

`Strings` models the Python string built-ins these rely on: `str.isspace`,
`strip()`, `"\n".join`, and `s[:n]`. It also has `split("\n")`, as the inverse
of the join.

Two behaviours of the code are worth stating outright:

- The code does not re-sort the hits by score; the model keeps the vector
  store's order (src/rag_engine.py:95).
- When hits are found but no payload has text, the code does not refuse; it
  calls the language model with an empty context (src/rag_engine.py:112-142,
  stated in `GenerateAnswer`'s contract).

## Model

| member | source | states |
|---|---|---|
| RagEngine.Relevant | src/rag_engine.py:95 | a hit is kept exactly when it is in the search result and its score is strictly above 0.35; no more hits than were found |
| RagEngine.RelevantIsSubsequence | src/rag_engine.py:95 | the kept hits are a subsequence of the search result: the original order is preserved |
| RagEngine.RelevantAppend | src/rag_engine.py:95 | the filter works hit by hit: filtering `a + b` gives the filtered `a` followed by the filtered `b` |
| RagEngine.RelevantAllPass | src/rag_engine.py:95 | when every hit scores above the threshold, the filter returns the search result unchanged |
| RagEngine.RagPipeline.constructor | src/rag_engine.py:13-46 | the pipeline holds its search and generation collaborators, for collection `qa_rag_data_science`, with no model call made yet |
| RagEngine.RagPipeline.RetrieveDocuments | src/rag_engine.py:83-103 | `None` exactly when the search raises or no hit scores above 0.35; otherwise exactly the hits the relevance filter keeps from the search result, a non-empty list of hits that all score above 0.35, in search order |
| RagEngine.Lookup | src/rag_engine.py:120 | `payload.get(key)` with a missing field read as "": the stored value when the field is present, "" otherwise |
| RagEngine.PayloadContent | src/rag_engine.py:120 | the `answer` / `tra_loi` / `text` fallback; any text it returns is one of the payload's values (its priority order is stated by PayloadContentIsFirstNonEmpty) |
| RagEngine.PayloadContentIsFirstNonEmpty | src/rag_engine.py:120 | the passage text is the first non-empty field among `answer`, `tra_loi`, `text`, in that priority; it is "" exactly when all three are missing or empty |
| RagEngine.LineOf | src/rag_engine.py:121-122 | one hit contributes at most one line, and none exactly when its payload has no text (the line's text is stated by ContextLinesAreContents) |
| RagEngine.ContextLines | src/rag_engine.py:116-122 | at most one context line per hit |
| RagEngine.WithContent | src/rag_engine.py:120-121 | a hit is among those with text exactly when it is a retrieved hit whose payload has non-empty passage text; no more of them than hits |
| RagEngine.WithContentAppend | src/rag_engine.py:118-121 | the hits with text of `a + b` are those of `a` followed by those of `b` |
| RagEngine.ContextLinesAreContents | src/rag_engine.py:116-122 | the i-th context line is `"- "` followed by the passage text of the i-th hit with text, and there is one line per such hit |
| RagEngine.PassageInContext | src/rag_engine.py:116-124 | the `"- "` line of every hit with text occurs in the context |
| RagEngine.PassageInPrompt | src/rag_engine.py:116-138 | the `"- "` line of every hit with text occurs in the prompt built from the context |
| RagEngine.ContextLinesAppend | src/rag_engine.py:116-122 | lines come out in retrieval order: the lines of `a + b` are the lines of `a` followed by those of `b` |
| RagEngine.NoContentNoLines | src/rag_engine.py:120-122 | there are no context lines exactly when no hit has text |
| RagEngine.ContextBlock | src/rag_engine.py:124 | the context is "" exactly when no retrieved payload has text |
| RagEngine.AssembleContext | src/rag_engine.py:116-124 | the loop that appends one `"- "` line per hit with text and joins the lines computes exactly the context block of the hits |
| RagEngine.ContextSplitsIntoLines | src/rag_engine.py:116-124 | when some passage has text and none holds a newline, splitting the context at newlines gives back exactly the `"- "` lines, one per passage with text |
| RagEngine.LinesHaveNoNewline | src/rag_engine.py:116-122 | passage texts without newlines give context lines without newlines |
| RagEngine.Prompt | src/rag_engine.py:127-138 | the prompt opens with the system turn and instruction, holds the context right after `NGỮ CẢNH:\n`, then closes the system turn and holds `Câu hỏi: ` + the question in the user turn, then closes the user turn with `\n<|im_end|>\n` and ends with the open assistant turn; its length is the inputs' plus the fixed text, so every character of the template is fixed |
| RagEngine.PromptDeterminesInputs | src/rag_engine.py:127-138 | for contexts of equal length, equal prompts mean equal contexts and equal questions |
| RagEngine.AnswerFrom | src/rag_engine.py:141-148 | when the model raises, the answer is the generation-error prefix followed by the exception message; otherwise the answer is the returned text, or the returned message's content, stripped of whitespace at both ends |
| RagEngine.RagPipeline.GenerateAnswer | src/rag_engine.py:105-148 | when retrieval gives `None`, the answer is the refusal and the model is not called; otherwise the model is called exactly once, with the prompt for the assembled context and the question, and the answer is built from what that call does; when hits were found but none has text, the model is still called once, with the prompt for an empty context |
| Strings.Strip | src/rag_engine.py:145-146 | the result is a contiguous piece of the input with only whitespace cut from before and after it, has no Python whitespace at either end, and is empty exactly when the input is all whitespace |
| Strings.StripOfStripped | src/rag_engine.py:145-146 | a string with no whitespace at either end is left unchanged by stripping |
| Strings.StripIdempotent | src/rag_engine.py:145-146 | stripping twice is the same as stripping once |
| Strings.JoinLines | src/rag_engine.py:124 | `"\n".join`: the join starts with the first line (its inverse is stated by SplitJoinLines, its pieces by JoinLinesContains, its emptiness by JoinLinesEmpty) |
| Strings.SplitJoinLines | src/rag_engine.py:124 | joining non-empty lists of lines without newlines and splitting at newlines gives the lines back |
| Strings.JoinLinesContains | src/rag_engine.py:124 | every line occurs in the `"\n"` join of the lines |
| Strings.JoinLinesEmpty | src/rag_engine.py:124 | a join of non-empty lines is "" exactly when there are no lines |
| ChatApp.SessionState.constructor | src/app.py:64-74 | a new browser session in which no key of `st.session_state` has been set yet, which is what `init_session` starts from |
| ChatApp.SessionState.InitSession | src/app.py:65-74 | every key ends up set; a key already set keeps its value, a missing one gets its default; on a fresh session the state is consistent; on a session already set up nothing changes, so running it twice equals running it once |
| ChatApp.TwoDigits | src/app.py:85 | two decimal digits whose value is the number, zero-padded |
| ChatApp.NewChatTitle | src/app.py:85 | the title is `New Chat HH:MM`: the prefix, the two zero-padded digits of the hour, a colon, the two of the minute; hour and minute can be read back from it |
| ChatApp.SessionState.CreateNewChat | src/app.py:81-90 | exactly the new id is added or overwritten, with an empty chat titled from the clock; it becomes the current chat and is returned; all other chats and the login state are unchanged |
| ChatApp.SessionState.DeleteChat | src/app.py:92-97 | the id is removed if present and nothing else is removed or changed; the current chat is cleared exactly when it was that id |
| ChatApp.CallRagApi | src/app.py:99-105 | never fails: an answer is passed through, and an exception becomes the RAG-error prefix followed by its message |
| ChatApp.SessionState.SubmitLogin | src/app.py:120-128 | access is granted exactly for `admin` / `123`; on success the user is authenticated and recorded, and a chat is created only if there were none; on failure nothing changes |
| ChatApp.SessionState.SelectChat | src/app.py:159-161 | an existing chat becomes current; nothing else changes |
| ChatApp.SessionState.Logout | src/app.py:169-171 | only the authenticated flag is cleared; chats, user name and current chat stay |
| ChatApp.SessionState.EnsureCurrentChat | src/app.py:176-180 | afterwards a current chat exists in the table; a new chat is opened exactly when the current id was falsy, otherwise nothing changes |
| Strings.Take | src/app.py:201 | `s[:n]`: the first `n` characters, or all of `s` when it is shorter |
| ChatApp.FirstQuestionTitle | src/app.py:199-201 | the title is the question's first 30 characters (all of it if shorter) followed by `...` |
| ChatApp.SessionState.SubmitPrompt | src/app.py:190-210 | only the current chat changes: it gains exactly the question and then the pipeline's answer; its title becomes the truncated question exactly when it had no messages before; its creation time and all other chats are unchanged; an empty input changes nothing |
| ChatApp.SessionState.MainUiStep | src/app.py:176-210 | after one pass a current chat exists, a fresh empty one when none was current; with an empty input that chat is as it was; with a question it gains exactly the question and then the pipeline's answer, and takes the truncated question as title exactly when it had no messages; chats other than the current one are unchanged |

## Left out

- The console messages printed while the pipeline is built, when a search fails, before retrieval and before generation (src/rag_engine.py:15, 19, 102, 109, 140). They change no state and no result.
- RagEngine.RagPipeline.constructor: that the pipeline is built only once per process is the `st.cache_resource` wrapper in src/chain.py, which is not part of this model.
- Model loading, the decoding parameters, the Hugging Face login and the Qdrant connection check (src/rag_engine.py:21-81). These are foreign-library setup. The language model is an oracle that returns text, returns a message object, or raises.
- The embedding computation and the vector search are one oracle. It is applied to the prefixed question and the limit, and yields the hits or a raised message. The collection name is fixed in the pipeline, but the oracle does not take it as an argument.
- RagEngine.RagPipeline.GenerateAnswer: the oracles are fixed functions. The sampling randomness of generation is not modelled, so two calls with the same prompt give the same outcome.
- RagEngine.RagPipeline.RetrieveDocuments: the bound of at most `top_k` hits is the vector store's promise. The model does not assume the oracle keeps it.
- Payload values other than strings. A payload is a map from field name to string, and a missing field reads as "".
- The console loop under `__main__` in src/rag_engine.py, and the Streamlit rendering in src/app.py: page set-up, CSS, columns, buttons, spinner, markdown, and `st.rerun`. Only the state changes these trigger are modelled.
- The history list sorted newest first by `created_at` (src/app.py:145-149). This is display order only. `Instant` keeps only the hour and minute, which the titles use; the full timestamp that orders the list is not modelled.
- ChatApp.SessionState.CreateNewChat: the source reads the clock twice, once for the title and once for `created_at`. The model uses one reading for both.
- `st.chat_input` returns `None` when nothing was submitted. The model uses the equally falsy empty input.
- src/ocr_extract.py and src/chain.py are not part of this model. One is PDF and OCR preprocessing; the other is a cached constructor and a one-line forwarder, which `CallRagApi`'s oracle stands for.
