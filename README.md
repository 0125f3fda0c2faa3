# Food Health Checker — a verified model of its core

The Food Health Checker is a small web page. A user types roughly what they
ate this week. The page asks a language model for a JSON verdict and shows it:
an overall score with a caption for its band, a summary, one focus for next
week, the positives, the concerns and the missing nutrients as lists, and the
sources the advice cites, each named by the authority behind it.

This project models the logic behind that page in Dafny and proves what it
promises:

- `Prompt` (prompt.py) models the fixed system instruction and the user
  prompt. The user prompt is a fixed opening, the nutrition guidelines, a fixed
  middle, the food log and a fixed closing that lists six JSON keys. The
  guidelines text is a parameter; reading it from disk is outside the model.
- `App` (app.py:77-150) models one press of the "Check my diet" button:
  - a whitespace-only log is refused before any request;
  - otherwise exactly one request goes out, to a fixed model with a fixed
    temperature;
  - a quota error stops the run with a "busy" warning, and any other client
    error propagates unchanged;
  - a reply is displayed element by element, up to the first exception.
  
  The model's reply and the result of `json.loads` are parameters (`Reply`):
  the network call and the JSON parser are outside the model.
- `ScoreBands` (app.py:110-117) is the if/elif chain from score to caption.
- `SourceLabels` (app.py:9-16, 139) is the table from source-file id to
  authority name, with its fall-back to the id itself.
- `Render` (app.py:42-47, 137-142) holds the two display loops, `render_list`
  and the loop over the cited sources. Each is a method that appends to an
  output sequence, proved equal to a function that says what it shows.
- `Json` models the parsed reply and the parts of Python that the display code
  relies on:
  - truth testing, iteration over lists, strings and dictionaries;
  - `dict.get` with a default, and `str()` as an f-string uses it;
  - the exceptions raised on a value of the wrong type.
- `Text` models `str.strip()`, substring search (`in`) and `str()` of an
  integer.

What the page shows is modelled as the sequence of display calls the code
makes (`Render.Element`): subheader, markdown, caption, write, info, warning,
error, code and exception, plus the titles of the expanders.

An observation, which is not a defect the model corrects: the prompt asks for
the key `recommendations`, an array of strings (prompt.py:49). The page reads
`recommendation` instead (app.py:123). A reply that follows the prompt
therefore shows the default `""` under "Focus for next week"
(`App.MissingTextsShownEmpty`, and `Prompt.ClosingListsSixKeys` for the six
keys the prompt lists).

## Model

| member | source | states |
|---|---|---|
| Text.Strip | app.py:78 | `strip()` leaves no whitespace at either end; it gives "" exactly when every character is whitespace (Python's `isspace` set) |
| Text.Contains | app.py:92 | `pat in text` holds exactly when `pat` occurs at some index of `text` |
| Text.NatToString | app.py:108 | `str(n)` of a non-negative integer is non-empty, all decimal digits, with no leading zero |
| Text.NatToStringValue | app.py:108 | reading the digits of `str(n)` back gives `n` |
| Text.IntToString | app.py:108 | `str(n)` starts with a minus sign exactly when `n` is negative, and the digits after it read back as the magnitude of `n` |
| Text.IntToStringInjective | app.py:108 | different integers are printed differently |
| Json.Lookup | app.py:104 | a key is absent exactly when no member has it; a value that is found is stored under that key |
| Json.Get | app.py:120-123 | `d.get(key, default)` is the default when the key is absent, and otherwise a value stored under it |
| Json.Iterate | app.py:138 | iteration fails exactly on `None` and numbers; a list yields its items, a string one item per character, a dictionary one item per key |
| Json.Show | app.py:140 | an f-string shows a string as itself, `None` as "None", and an integer as a numeral that reads back as that integer |
| ScoreBands.BandOf | app.py:110-117 | every score is in exactly one band: at most 40, 41 to 60, 61 to 80, 81 and above |
| ScoreBands.BandRankCountsThresholds | app.py:110-117 | the band's rank is the number of the thresholds 41, 61 and 81 that the score reaches |
| ScoreBands.BandMonotone | app.py:110-117 | a higher score never gets a lower band |
| ScoreBands.CaptionsDistinct | app.py:111-117 | the four captions are pairwise different |
| ScoreBands.BandEdges | app.py:110-117 | 40/41, 60/61 and 80/81 fall on the two sides of the three band edges |
| SourceLabels.Label | app.py:139 | the lookup raises exactly for a list or dictionary id; a changed value is the label of a known id; any other id comes back unchanged |
| SourceLabels.KnownIds | app.py:9-16 | the table has exactly the six ids, and each has its authority name |
| SourceLabels.UnknownIdsPassThrough | app.py:139 | an id outside the table, a number or `None` is shown as itself |
| Prompt.BuildUserPrompt | prompt.py:30-50 | the prompt is the opening, the guidelines, the middle, the food log and the closing, verbatim and in that order; the fixed parts depend on neither input |
| Prompt.ExtractBuilt | prompt.py:33-50 | the food log can be read back out of the prompt built for it |
| Prompt.BuiltFromExtracted | prompt.py:33-50 | any text the reading accepts is exactly the prompt built from the log it yields |
| Prompt.BuildUserPromptInjective | prompt.py:36-40 | with the same guidelines, different food logs give different prompts |
| Prompt.ParseKeyLineOfKeyLine | prompt.py:44-49 | a key line whose key has no double quote and whose description has no newline reads back as that key and description |
| Prompt.KeyLineOfParseKeyLine | prompt.py:44-49 | whatever reads as a key line is a well-formed key line followed by the rest |
| Prompt.ParseListingOfKeyListing | prompt.py:44-49 | the listing of well-formed keys reads back as those keys, in order |
| Prompt.KeyListingOfParseListing | prompt.py:44-49 | whatever reads as a listing is the listing of the well-formed keys it yields |
| Prompt.ResponseFieldsWellFormed | prompt.py:44-49 | none of the six requested keys breaks the listing format |
| Prompt.ScoreFieldWellFormed | prompt.py:44 | the score key line is well formed |
| Prompt.ClosingListsSixKeys | prompt.py:42-49 | after the task text, the closing reads back as exactly the six keys `overall_score`, `summary`, `positives`, `concerns`, `missing_nutrients`, `recommendations`, in that order |
| Render.ListLines | app.py:42-47 | `render_list` writes the single line "- None" for any false value; otherwise one "- item" line per item of a list, per character of a string and per key of a dictionary, in order; a non-zero number raises |
| Render.RenderList | app.py:42-47 | the loop writes exactly what `ListLines` says |
| Render.EntryLinesShape | app.py:139-142 | a cited source shows its label in bold, its reason ("" when absent) and a rule; a non-dictionary entry or a list or dictionary id raises |
| Render.ShowEntry | app.py:139-142 | showing one entry writes exactly what `EntryLines` says |
| Render.SourcesShownInOrder | app.py:138-142 | when no entry raises, entry `i` is shown as elements `3i` to `3i+2`, for every entry, in input order |
| Render.SourcesStopAtFirstFault | app.py:138-142 | an entry that raises stops the loop: exactly what the entries before it show is shown, three elements each, and that entry's exception is raised |
| Render.RenderSources | app.py:137-142 | the loop over the cited sources shows exactly what `SourceLines` says, including where it stops |
| App.ClassifyClientError | app.py:91-99 | a client error is "retry later" exactly when its text contains `RESOURCE_EXHAUSTED`; otherwise it propagates |
| App.Results | app.py:104-142 | a reply that is not a dictionary shows nothing and raises; a non-numeric score shows only the score heading and raises; otherwise the page opens with the heading, the score, its band caption, the summary, the focus and the details captions |
| App.ResultsFaultFree | app.py:104-142 | the display raises exactly when the reply is not a dictionary, the score is not a number, one of the three lists cannot be iterated, or the sources loop raises |
| App.ResultsShowNoCode | app.py:104-142 | the display code itself never shows a code block |
| App.ResultsPage | app.py:101-150 | nothing already shown is lost, and the raw reply text appears on the page exactly when the JSON is invalid or the display raised; invalid JSON shows an error and the raw text; an exception keeps what was shown, then adds an error, the exception and the raw text |
| App.RequestFor | app.py:83-90 | the request goes to the fixed model at the fixed temperature with the fixed system instruction, and its prompt is one from which exactly this food log is read back |
| App.Respond | app.py:91-101 | a quota error stops with the busy warning; any other client error is re-raised with its message and shows nothing; a reply is displayed |
| App.Analyze | app.py:77-101 | no request is sent exactly when the log is whitespace only, which shows the warning; otherwise one request for this log is sent, and the reply decides the page |
| App.MissingScoreShownAsZero | app.py:104-111 | a missing score is taken as 0, shown as "0 / 100" with the lowest band's caption |
| App.MissingTextsShownEmpty | app.py:120-123 | a missing summary or recommendation is shown as "" |
| App.MissingSourcesShowNothing | app.py:138 | a reply without `sources` lists no source and raises nothing there |
| App.EmptyHeader | app.py:104-127 | with no keys, the header shows "0 / 100", the lowest band's caption and empty summary and focus |
| App.EmptyDetails | app.py:127-142 | with no keys, each of the three lists shows "- None" and the sources expander stays empty |
| App.EmptyReplyPage | app.py:101-142 | an empty JSON object gives the whole page: score 0, empty texts, "- None" for each of the three lists, and no sources |

## Left out

- The Streamlit page itself is not modelled: page setup, title, introduction, text area, button, spinner, expander nesting and footer (app.py:25-68, 152-159). The page is modelled only as the sequence of display calls.
- The "results are shown below" notice (app.py:71) is left out; it is shown before the analysis whatever happens next.
- `st.progress(score / 100)` (app.py:107) is modelled only as the `TypeError` a non-numeric score raises. Streamlit's own rejection of a value outside 0..1 is a library check outside the model.
- `App.Results`: a numeric score is always shown; it does not model the exception Streamlit's progress bar raises for a score outside 0..100.
- `genai.Client`, `generate_content` and `load_dotenv` (app.py:3-5, 22-23, 83-90) are network and credential calls. The request is a value (`App.Request`) and the reply is a parameter. The model covers only a `ClientError` raised by the call; other exceptions from it are not modelled.
- `json.loads` (app.py:102) is not modelled as a parser. The reply carries its parsed value, or `None` for invalid JSON.
- `load_knowledge` (prompt.py:1-3) is file I/O. The guidelines text is a parameter of `Prompt.BuildUserPrompt`.
- JSON floats and booleans are not modelled: numbers are integers. A score such as 72.5 and the ordering of `True` against the thresholds are outside the model.
- Json.Show: lists and dictionaries are shown with a simplified `repr`: strings in single quotes, with no escaping and none of Python's switch to double quotes.
- Json.Get: a dictionary is an ordered list of members, and nothing requires its keys to be distinct, though a Python dictionary's are. `Get` returns the first member with the key. For a key duplicated in the raw text, `json.loads` keeps the last value; that is not modelled.
- A reply with no text is not modelled. `Replied` always carries a string. The client library can return `None` as the text; then `json.loads` (app.py:102) raises `TypeError`, and the page shows the error of app.py:147-150 instead of the invalid-JSON one.
- The system instruction has no contract of its own. It is the constant text of prompt.py:5-28, kept character for character, including the trailing space on line 15.
