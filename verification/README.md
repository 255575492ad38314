# Zero-shot keyphrase classifier: the decision logic

The application is a single Streamlit script. A user picks a mode (demo or unlocked),
an API key, a model and two or three labels, and types keyphrases one per line. The
script then sends one request per keyphrase to a hosted zero-shot classifier and shows
the label scores in a table. Most of the script is page layout and library calls. This
project models the pure decisions inside it:

- **Keyphrase clean-up** (`Keyphrases`, with `Lines` for `str.split("\n")`). The text is
  split on newlines. Repeated lines are dropped, keeping the first occurrence
  (`dict.fromkeys`). Empty lines are dropped (`filter(None, ...)`). The list is then cut
  to `MAX_LINES`, which is 5 in demo mode and 50 in unlocked mode. A notice says so when
  the cut drops something. Lines made only of blanks are kept; nothing else is
  normalised.
- **Validation chain** (`Gate`). An ordered `if`/`elif` chain over the submit button,
  the session flag `valid_inputs_received`, the raw text, the labels and the API key.
  The first check that fires decides the run. With no submit and no earlier valid
  submission, the run halts silently and the flag is left as it is. A failed check
  halts with a warning and clears the flag. Otherwise the run proceeds, and a fresh
  submit sets the flag.
- **Endpoint lookup** (`Endpoints`). The select box offers `DeBERTa-v3`, but the map's
  key is `DeBERTa-V3`. Looking up that choice therefore fails, and the model says so.
- **Query loop and batch acceptance** (`Inference`). The script sends one request per
  keyphrase, in order, each with the same labels. The batch is rejected when the
  response table would be empty or would have an `error` column. The remote service is
  a function parameter.
- **One run of the script** (`App`). This composes the parts above: lookup, clean-up,
  chain, queries, acceptance. It yields the screen reached and the flag left behind.

Behaviour of the code that a reader might not expect, all of it modelled as written:

- The select box offers `DeBERTa-v3` (streamlit_app.py:122), and the About sidebar
  lists that model too (streamlit_app.py:97). But the map's key is `DeBERTa-V3`
  (streamlit_app.py:117), so choosing it raises a `KeyError` at streamlit_app.py:126.
  This happens on every run, before any check.
- The key check at streamlit_app.py:203 only rejects the empty key. The warning there
  asks for "your personal API Key", but the default field value `YOUR-HF-API-KEY`
  passes.
- The key check is not guarded by the submit button. It runs on every rerun that gets
  past the first check.
- The notice at streamlit_app.py:173-179 counts the lines left after dropping repeats
  and empty lines, not the raw lines.
- The emptiness check at streamlit_app.py:188 tests the raw text. So a text made only
  of newlines passes it, issues no request, and is rejected as an empty batch.

## Model

| member | source | states |
|---|---|---|
| `Lines.Split` | streamlit_app.py:166 | the pieces of `text.split("\n")` contain no newline, there is at least one, and joining them with newlines gives back the text |
| `Lines.SplitJoin` | streamlit_app.py:166 | newline-free pieces come back unchanged from joining and splitting again, so the split loses nothing |
| `Keyphrases.Dedup` | streamlit_app.py:170 | `dict.fromkeys` leaves no two equal entries and keeps exactly the members of its input |
| `Keyphrases.DedupIsFirstOccurrences` | streamlit_app.py:170 | deduplication keeps each line at its first occurrence, in input order: it equals the reference list of positions whose line does not occur earlier |
| `Keyphrases.NonEmpty` | streamlit_app.py:171 | `filter(None, ...)` leaves no empty string, keeps every non-empty line (so blank-only lines stay), and keeps a duplicate-free list duplicate-free |
| `Keyphrases.NonEmptySingle` | streamlit_app.py:171 | on a single line, filtering keeps a non-empty line and drops `""` |
| `Keyphrases.NonEmptyAppend` | streamlit_app.py:171 | filtering a concatenation gives the concatenation of the filtered parts, so with `NonEmptySingle` the non-empty lines keep their order and number of occurrences |
| `Keyphrases.NonEmptyDedupCommute` | streamlit_app.py:170-171 | dropping duplicates then empty lines gives the same list as the other order |
| `Keyphrases.Take` | streamlit_app.py:181 | the slice `[:MAX_LINES]` is a prefix of the list; it is the whole list when that fits, and exactly `MAX_LINES` entries otherwise |
| `Keyphrases.Normalise` | streamlit_app.py:156-181 | the keyphrase list has no duplicates and no empty string, holds at most 5 (demo) or 50 (unlocked) lines, all taken from the text; a notice names that cap and suggests unlocking only in demo mode |
| `Keyphrases.CandidatesCount` | streamlit_app.py:166-173 | before the cut, the list is as long as the set of distinct non-empty lines of the text |
| `Keyphrases.NormaliseIsPrefixOfFirstOccurrences` | streamlit_app.py:166-181 | the keyphrase list is a prefix of the non-empty lines in first-occurrence order, and all of it when they fit under the cap |
| `Keyphrases.NoticeWhenOverCap` | streamlit_app.py:173-179 | the truncation notice is shown exactly when the text has more distinct non-empty lines than the cap |
| `Keyphrases.NormaliseMembers` | streamlit_app.py:166-181 | under the cap the keyphrases are exactly the non-empty lines of the text; over it there are exactly cap-many, all of them non-empty lines of the text |
| `Gate.Check` | streamlit_app.py:185-210 | the chain halts silently exactly when there is neither a submit nor an earlier valid one, and then leaves the flag as it is; it proceeds exactly when there is a submit or an earlier valid one, a fresh submit has text and two labels, and the key is non-empty; the first failing check fixes the warning (text, then labels, then one label, then key); afterwards the flag is true exactly when it proceeds |
| `Gate.RerunKeepsDecision` | streamlit_app.py:185-210 | a rerun without submit on the flag the chain left proceeds again after a proceed and halts silently after a halt |
| `Endpoints.LookupUrl` | streamlit_app.py:114-126 | the lookup succeeds exactly for the map's three keys, and then gives one of its endpoint URLs under the inference API base |
| `Endpoints.OnlyDebertaChoiceFails` | streamlit_app.py:114-126 | of the three select-box options only the third, `DeBERTa-v3`, has no endpoint; the other two map to their model URLs |
| `Inference.Requests` | streamlit_app.py:128-226 | one request per keyphrase, in list order; each is the record `Payload` built at lines 128 and 219-225, carrying that keyphrase as input, the same labels as candidate labels, the header `Bearer <key>`, the endpoint and `wait_for_model` set |
| `Inference.RequestsCarryLines` | streamlit_app.py:218-226 | the inputs read back from the requests are the keyphrase list itself |
| `Inference.Answers` | streamlit_app.py:213-226 | the collected responses are the service's answers to the requests, one each, in the same order |
| `Inference.QueryEach` | streamlit_app.py:212-226 | the query loop issues exactly the requests of `Requests` and collects exactly the answers of `Answers`, one per keyphrase |
| `Inference.HasError` | streamlit_app.py:229 | the response table has an `error` column exactly when some response is error-shaped |
| `Inference.Accepted` | streamlit_app.py:228-232 | a batch is accepted exactly when it is non-empty and every response is a classification |
| `App.Run` | streamlit_app.py:102-232 | the run crashes exactly when the model name has no endpoint, and then leaves the flag unchanged; otherwise the flag afterwards is true exactly when the table is shown; the run stops exactly when the chain does not admit it, with the chain's warning; a run past the chain sends one request per keyphrase and collects the service's answers; a shown table has one successful response per request; a rejected batch is empty or has an error |
| `App.RequestsCarryKey` | streamlit_app.py:105-214 | every request a run sends carries `Bearer` and the stored token in demo mode, or `Bearer` and the entered key, unchanged, in unlocked mode |
| `App.FewLabelsNeverQuery` | streamlit_app.py:193-201 | a submission with fewer than two labels never reaches the service; unless the model choice has no endpoint (which crashes first and leaves the flag as it was), the flag ends false |
| `App.NewlinesOnlyRejected` | streamlit_app.py:185-232 | with a known model, at least two labels and a non-empty key, a submitted text of newlines only passes the chain, issues no request, and ends as a rejected batch with the flag false |
| `App.PlaceholderKeyAccepted` | streamlit_app.py:104-206 | in unlocked mode the untouched placeholder key passes the chain |
| `App.RepeatedLineOnce` | streamlit_app.py:166-181 | in either mode, a text of one non-empty line given twice plus a trailing newline normalises to that single line, with no notice |
| `App.RepeatedLineOneRequest` | streamlit_app.py:166-232 | in either mode, with a known model, at least two labels and a non-empty key, such a text issues a single request for that line, and a successful answer shows the table with the flag set |

## Left out

- Page layout and widgets are not modelled: page config, columns, images, markdown, the sidebar menu, the tag editor and the form. `st.stop()` appears only as the `Stopped` and `Rejected` outcomes. `Crashed` is the uncaught `KeyError` at streamlit_app.py:126.
- The `maxtags=3` limit of the tag editor is not modelled. It is a widget constraint, and the script does not check it.
- The credential store is not modelled. `st.secrets["API_TOKEN"]` is the `secret` field of the form; a missing secret, which raises, is not modelled.
- The HTTP call itself is not modelled. `requests.post` and `response.json()` (streamlit_app.py:213-216) become the `Service` function parameter. Only a JSON error body is modelled, as a `Failure` response.
- The exception path of the query loop is not modelled. A connection error from `requests.post` or a non-JSON body in `response.json()` is not caught, so the run ends in an exception. Line 210 has already set `valid_inputs_received`, so the next rerun without a submit sends the whole batch again. No timeout is set, so a call can hang. `Service` is a total function, so the model has none of these outcomes.
- The DataFrame, the column rename and drop, the grid options and the CSV export are not modelled. They are library calls whose code is not part of this model.
- The formatting of scores as percentages is not modelled, because it is floating-point formatting.
- The "widen layout" session toggle is not modelled. It only changes the page width.
- The wording of warnings and notices is reduced to constructors: `Warning` for warnings, `Notice(limit, suggestUnlock)` for notices.
