# CodeMaestro chat engine in Dafny

CodeMaestro lets a user chat with a Gemini model about a code repository. The
whole repository's text, and optionally a diff between two branches, goes into
the prompt. This project models the engine behind the chat tab and the small
settings and state store it reads:

- `wrappers.dfy` (module `Wrappers`): `Option` and `Result`.
- `utils.dfy` (module `Utils`, app/utils.py): the process-wide `state`
  dictionary and the JSON settings file. Both sit in the class `Store`. The file
  is modelled by the map it holds, or `None` while it does not exist. The module
  also has the pure functions that say what `set_model_settings_to_state`,
  `init_state` and `save_settings` leave behind.
- `chat_tab.dfy` (module `ChatTab`, app/tabs/chat_tab.py):
  - the submission gate;
  - the Stop action;
  - prompt assembly;
  - the model configuration record;
  - the streaming loop that folds response chunks into the last chatbot row.

  The class `Session` holds the module's interrupt flag `_is_interrupted` and
  the chatbot's rows, which every handler receives and changes in place.

The model replaces the outside world with inputs:

- The completion service becomes a `Stream`: the chunk texts in order, then
  either the normal end or an exception (`ResourceExhausted` or any other kind).
  An error raised by `generate_content` itself is a stream with no chunks.
- The Stop button runs at the same time as the loop. It becomes `clicks`:
  `clicks[k]` says whether `_on_click_interrupt` ran before the loop reached the
  boundary in front of chunk k. `clicks[|chunks|]` says whether it ran after the
  last chunk. The loop reads the flag at each boundary, in the same order the
  code does.
- The chat functions take the current contents of `state` as a parameter.

`Run` states what one streaming call does:

- The loop stops at the first boundary where the flag reads true. It clears the
  flag there, raises no error and keeps the text received so far.
- Otherwise every chunk is appended. A click after the last chunk leaves the
  flag set. An exception at the end of the stream becomes its user-facing
  error, and the partial text stays.

Behaviour of the code that the model keeps as it is:

- The code has no single-flight check. The UI disables the message box while a
  reply streams.
- `_is_interrupted` is a module global, so it is shared by every browser
  session of the process. A Stop click is read by whichever stream checks the
  flag next. `Session` keeps it next to one chatbot's rows, which is the case of
  a single session.
- Stop always sets the flag, whether or not a reply is streaming. A flag set
  after the last chunk is still set when the next request starts. That request
  then drops its whole reply at its first chunk (`StaleFlagDropsNextReply`).
- A missing `state` entry raises `KeyError`. The model makes the entries it
  reads preconditions.
- The settings file of app/utils.py is modelled as a map.

## Model

| member | source | states |
|---|---|---|
| `Utils.Store.constructor` | app/utils.py:12-17 | `state` starts with `api_key` and `model` set to `""`, `temperature` 0 and `all_file_contents` `""`. The settings file is whatever is on disk. |
| `Utils.WithModelSettings` | app/utils.py:30-34 | `api_key`, `model` and `temperature` take the given values. Every other key keeps its value. The key set grows by exactly those three keys. |
| `Utils.Store.SetModelSettingsToState` | app/utils.py:30-34 | Only `state` changes, and it becomes `WithModelSettings` of the old state. The settings file is untouched. |
| `Utils.StoredModelSettings` | app/utils.py:20-27 | Each of the three settings is copied when it is stored. Otherwise it defaults to `""`, `""` and `0`. |
| `Utils.Store.InitState` | app/utils.py:20-27 | The settings file ends up existing. `state` gets the stored model settings or their defaults, and nothing else in it changes. |
| `Utils.Store.EnsureSettings` | app/utils.py:50-53 | A missing file becomes the empty map. An existing file is left exactly as it was. |
| `Utils.Store.ReadSettings` | app/utils.py:37-40 | Returns the stored map, or the empty map when there was no file, and leaves that map on disk. |
| `Utils.FreshStoreReadsEmpty` | app/utils.py:37-40 | With no settings file, the read returns `{}`, so all three model settings take their defaults. |
| `Utils.Merge` | app/utils.py:43-47 | The stored map overridden by `data`. Keys of `data` take the new values, keys only in the old map keep theirs, and no key is dropped. |
| `Utils.Store.SaveSettings` | app/utils.py:43-47 | The file afterwards holds `Merge` of the old contents (`{}` if there was no file) with `data`. |
| `Utils.SaveSettingsIdempotent` | app/utils.py:43-47 | Saving the same data twice stores the same map as saving it once. |
| `ChatTab.Session.constructor` | app/tabs/chat_tab.py:7 | The interrupt flag starts cleared. |
| `ChatTab.Session.OnClickInterrupt` | app/tabs/chat_tab.py:54-57 | The flag is true afterwards whatever it was before, so a second click changes nothing. The Stop button is disabled. The rows are untouched. |
| `ChatTab.Session.OnSubmitMessage` | app/tabs/chat_tab.py:60-67 | If the repository context is `None`: fails with "Please select a repository first." and leaves the rows unchanged. Otherwise: appends exactly one row `(input, None)` after the unchanged earlier rows, clears the message box and enables Stop. |
| `ChatTab.PrepareCodePrompts` | app/tabs/chat_tab.py:118-137 | 5 parts without diff and 9 with diff. The repository blob is at index 3, between the source markers. With diff, the branch sentence is at 5 and the diff blob at 7, between the diff markers. |
| `ChatTab.HistoryLines` | app/tabs/chat_tab.py:78-81 | Two lines per turn, in order: `user: u_i` at 2i and `ai: a_i` at 2i+1. A missing reply is rendered `None`. |
| `ChatTab.SerializeHistory` | app/tabs/chat_tab.py:78-81 | The loop builds exactly `HistoryLines` of the earlier turns. |
| `ChatTab.PromptParts` | app/tabs/chat_tab.py:75-87 | The prompt starts with the code prompts, then has the lines of every earlier turn, then `user:\n` plus the new message. Its length is `\|code\| + 2(\|history\|-1) + 1`. |
| `ChatTab.PrepareModel` | app/tabs/chat_tab.py:140-160 | Temperature, model name and system message come from `state`. `top_p` is 1, `top_k` 32 and `max_output_tokens` 8192. Exactly four safety settings, and every harm category has threshold `BLOCK_NONE`. |
| `ChatTab.SafetyCategoryNames` | app/tabs/chat_tab.py:148-153 | The four safety settings name `HARM_CATEGORY_HARASSMENT`, `HARM_CATEGORY_HATE_SPEECH`, `HARM_CATEGORY_SEXUALLY_EXPLICIT` and `HARM_CATEGORY_DANGEROUS_CONTENT`, in that order. |
| `ChatTab.Run` | app/tabs/chat_tab.py:96-115 | The reference definition of the chunk loop. The loop stops at the first boundary where the flag reads true: it clears the flag there, raises no error and keeps the text received so far. Otherwise every chunk is appended, a click after the last chunk leaves the flag set, and an exception at the end of the stream becomes its user-facing error with the partial text kept. In every case the reply is the old reply extended by the chunks consumed. |
| `ChatTab.StopPoint` | app/tabs/chat_tab.py:96-100 | The first boundary where the flag reads true: 0 if it was already set, else the first boundary preceded by a click. No earlier boundary sees it. |
| `ChatTab.ErrorFor` | app/tabs/chat_tab.py:109-115 | `ResourceExhausted` maps to the "run out of resources" error. Every other error maps to the generic error. |
| `ChatTab.ExtendStep` | app/tabs/chat_tab.py:104 | One step `reply = (reply or "") + chunk` adds the chunk to the reply accumulated so far. |
| `ChatTab.ReplyGrowsByPrefix` | app/tabs/chat_tab.py:104-105 | Each reply text shown to the user is a prefix of every later one. |
| `ChatTab.CompletedReplyIsConcatenation` | app/tabs/chat_tab.py:96-107 | With the flag never seen and no error, the call completes. The pending reply becomes the concatenation of all chunks, or stays `None` for an empty stream. |
| `ChatTab.InterruptKeepsPrefix` | app/tabs/chat_tab.py:96-100 | If the flag is first seen before chunk k: the call stops there without error and the flag is cleared. The reply holds chunks 0..k-1, or `None` if k = 0, even if the stream would have raised later. |
| `ChatTab.FailureKeepsPartialText` | app/tabs/chat_tab.py:96-115 | A service error ends the call with its mapped error. The text received before the error stays in the reply. |
| `ChatTab.LateInterruptStaysSet` | app/tabs/chat_tab.py:96-100 | A click after the last chunk is never read by the loop. The flag stays true and the call is not interrupted. |
| `ChatTab.StaleFlagDropsNextReply` | app/tabs/chat_tab.py:96-100 | If the flag is already set when a non-empty stream starts, the call stops before the first chunk. The reply is unchanged and the flag is cleared. |
| `ChatTab.StopBeforeSecondChunk` | app/tabs/chat_tab.py:96-105 | Chunks "a", "b", "c" with Stop before the second one: the reply is "a" and the call ends interrupted. |
| `ChatTab.Session.FoldChunks` | app/tabs/chat_tab.py:92-115 | Only the last row's reply changes, and it becomes `Run`'s reply. The earlier rows and the last user message are unchanged. The flag and the outcome are `Run`'s. The i-th state shown is the rows with chunks 0..i folded into the last reply. |
| `ChatTab.Session.StreamLlmResponse` | app/tabs/chat_tab.py:70-115 | The config is `PrepareModel(state)`. The prompt is `PromptParts` of the code prompts and the rows. The rows, the flag, the outcome and the states shown are those `FoldChunks` states. |
| `ChatTab.Session.OnMessageSubmitted` | app/tabs/chat_tab.py:23-41 | A `None` context, and only that, is rejected with "Please select a repository first.". Then the rows and the flag are unchanged and no stream starts. An accepted message clears the message box, enables Stop and gets exactly one new row. That row's reply, the flag and the outcome are `Run`'s for a pending turn. |

## Left out

- UI: widget layout and enable/disable updates (app/tabs/chat_tab.py:10-51, except the submit-then-stream chain). Also app/tabs/setting_tab.py, app/main.py and the clear button. This is UI rendering only.
- app/run_dev.py: file watching and restarts. This is process plumbing.
- `clone_repo` (app/utils.py:56-75): git clone, checkout and submodules, and deleting the old working tree. These are calls to an external client.
- The repository walk and file filter, and the branch diff builder, are not part of this model. Their code is in neither app/utils.py nor app/tabs/chat_tab.py. The model only reads their results from `state`.
- The Gemini client: `GenerativeModel` and `generate_content(stream=True)`. The configuration and prompt are returned instead of being sent. The response is the `Stream` input.
- Reading and writing JSON: only the resulting map is modelled. JSON round-trip effects (tuples becoming lists, float formatting) are not.
- `print` logging.
- Floating point: `Float` values, such as the temperature, are only copied and never computed on.
- Threads: the real concurrency between the Stop button and the loop is replaced by the `clicks` input.
- `ChatTab.Session.OnSubmitMessage`: `history or []` is not modelled. An absent chatbot value is the empty row sequence. A missing context key (a `KeyError` in the code) is excluded by precondition.
- `ChatTab.Session.StreamLlmResponse`: missing `state` keys are excluded by precondition, as they would raise `KeyError` outside the `try`. Each error is modelled as the stream raising after its last good chunk. When a received chunk's `.text` raises, the flag check that runs just before `.text` is not modelled.
- `ChatTab.PrepareCodePrompts`: the repository blob, the diff blob and the branch names must be text. f-string rendering of other values, and non-text prompt parts, are not modelled.
