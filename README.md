# Prompt construction for a financial chat assistant, in Dafny

The assistant takes a user's question, an asset, a knowledge level and an
assistant type. It fetches technical-analysis data for the asset and builds
the instruction text that a language model answers. This project models the
deterministic part of that pipeline and proves what it promises:

- **Partitioners** (`Utils`):
  - `split_events` sorts the active events into four buckets by their
    "event class". It is a loop, so it is modelled as a method proved
    against a specification function.
  - `split_smas` keeps the truthy moving averages in a short and an
    intermediate bucket.
  - `split_sup_res` keeps a support/resistance horizon only when both of
    its levels are there.
- **Asset catalog** (`Utils`): the in-memory half of `load_assets`. The
  already-parsed CSV rows become a dict, and then the "General" entry is
  forced in.
- **Markdown escaping** (`Utils`): `convert_str_to_markdown`.
- **Prompt templates** (`Prompts`):
  - The four `PROMPTS` templates are written as sequences of literal
    chunks and named holes (`Template`). `str.format` is a function over
    them.
  - The dispatch of `get_prompt` is modelled, and so is its fill.
  - The CFA `get_test_prompt` of `prompts.py` is modelled too.
- **CFA chat page** (`Streamlit101`):
  - `get_test_prompt(query, role)` with its ValueError.
  - The cut of the model's answer out of the generated text,
    `split("[/INST]")[-1].split("</s>")[0]`.
  - One chat turn, with the language model as a parameter.

Python's data are modelled explicitly:

- Dicts are insertion-ordered association lists (`PyValue.Dict`). `d[k] = v`
  is `PyValue.Put`.
- Python values and their truthiness are `PyValue.Value` and
  `PyValue.Truthy`.
- The string operations `lower`, `in`, `split`, `join` and `replace` live in
  `PyText`.
- `KeyError` and `ValueError` are the `Err` side of `Wrappers.Result`.

Two inputs are parameters of the model:

- Python's `str()` rendering of dicts and lists is the `show` parameter.
- The date is the `today` parameter.

## Model

| member | source | states |
|---|---|---|
| Utils.SplitEvents | utils.py:50-61 | the loop returns each of the four buckets with exactly the events of its tag in input order (`EventBucketsOf`), or KeyError("event class") when some event lacks the key |
| Utils.SplitEventsKeyError | utils.py:53 | partitioning fails exactly when some event has no "event class" key, and the error is KeyError("event class"): such an event is never skipped |
| Utils.OfClassMembers | utils.py:52-60 | an event is in the bucket of a tag iff it is an input event whose "event class" is that tag |
| Utils.OfClassAppend | utils.py:52-60 | the bucket of a concatenation is the concatenation of the buckets, so each bucket keeps input order |
| Utils.BucketsDisjoint | utils.py:52-60 | no event is in two buckets; an event is in one exactly when it is an input event of a known class, so unknown tags are dropped |
| Utils.BucketsTotal | utils.py:52-60 | the four bucket lengths add up to the input length minus the events of unknown class, which is at most the input length |
| Utils.SplitSmas | utils.py:63-75 | a key is in the short (intermediate) bucket iff it is sma4/sma9/sma21 (sma50/sma200), is in the input and is truthy; its value is copied unchanged; the entries follow the order of the `if`s |
| Utils.TruthyEntriesMembers | utils.py:65-74 | a key is among the kept entries iff it is listed, present and truthy, and its value is the input's; missing or falsy keys are dropped without error |
| Utils.SmaBucketsDisjoint | utils.py:63-75 | no key lands in both moving-average buckets |
| Utils.SplitSupRes | utils.py:77-88 | each horizon's dict holds resistanceN and supportN, copied, exactly when both are present and truthy, and nothing else: it has 0 or 2 keys, resistanceN inserted before supportN, as the assignments order them |
| PyValue.Put | utils.py:18-23 | `d[k] = v`: k maps to v afterwards, every other key keeps its presence and value, a new key is appended at the end, and distinct keys stay distinct |
| Utils.LoadAssets | utils.py:15-29 | the loop assigns each row in order and then the "General" entry, giving `Put(RowsToDict(rows), "General", GeneralInfo)` |
| Utils.RowsToDictLookup | utils.py:17-23 | after assigning the rows, a name is a key iff some row has it, and it maps to the four fields of the last row with that name; keys are distinct |
| Utils.LoadAssetsCatalog | utils.py:24-29 | the catalog always has "General" with no ids and the fixed greeting, even over a CSV row of that name; any other name is a key iff a row has it |
| Utils.ConvertStrToMarkdown | utils.py:45-48 | the output is the input plus one character per `$` and per newline, and text with neither comes back unchanged |
| Utils.ConvertIsEscape | utils.py:45-48 | the two chained `replace` calls equal the single-pass escaping: `$` becomes `\$` and a newline becomes two |
| Utils.MarkdownRoundTrip | streamlit101.py:53-56 | the escaping (defined once; the page's copy is the same two `replace` calls) loses nothing: unescaping gives back the original text |
| PyText.Lower | prompts.py:142 | `lower()` keeps the length, lower-cases each letter and leaves no upper-case letter |
| PyText.LowerIdempotent | prompts.py:142 | lower-casing twice is lower-casing once |
| PyText.Find | prompts.py:142 | the search returns the first index at which the needle occurs, or none when it occurs nowhere |
| PyText.ContainsIff | prompts.py:142 | `needle in s` holds exactly when some position of `s` holds the needle |
| Template.Format | prompts.py:143-161 | `str.format` succeeds iff every hole has a value; otherwise it raises KeyError for a field the template asks for and the arguments lack |
| Template.FormatAppend | prompts.py:143-161 | filling a concatenation of template pieces fills each piece in turn |
| Template.FormatDependsOnHoles | prompts.py:204-209 | the filled text depends only on the values of the template's own holes |
| Template.FormatFlattenContains | prompts.py:6-52 | each filled section appears, unchanged, in the filled template |
| Prompts.IntroHoles | prompts.py:7 | the intro asks for nothing outside {assistant_type, asset, date}, and the GENERAL intro for nothing outside {date} |
| Prompts.QuestionBlockHoles | prompts.py:23-25 | the question block asks for nothing outside {query, experience_user} |
| Prompts.PromptTemplate | prompts.py:5-135 | the four `PROMPTS` templates as written, section by section; every hole is a keyword of the template's `.format` call, and GENERAL asks for nothing outside {date, query, experience_user} |
| Prompts.TemplateFieldsSupplied | prompts.py:143-209 | the sections of each template ask for nothing outside the keywords of its `.format` call, so formatting never raises; for GENERAL, nothing outside {date, query, experience_user} |
| Prompts.SelectTemplate | prompts.py:141-211 | ADVISORY iff "advisory" occurs in the lower-cased type, which takes precedence; otherwise "analytical" gives ANALYTICAL and "chatbot" gives CHATBOT, or GENERAL when the asset lower-cases to "general"; nothing is selected iff none of these hold |
| Prompts.SelectTemplateIgnoresCase | prompts.py:142-183 | the choice does not change when the assistant type and the asset are lower-cased first |
| Prompts.FormatArgs | prompts.py:143-209 | the keyword arguments are exactly the call's fields; the query is given verbatim and the assistant type and knowledge level lower-cased |
| Prompts.GetPrompt | prompts.py:137-211 | a result exists iff every active event has an "event class", and KeyError("event class") otherwise; an unknown assistant type gives "" |
| Prompts.PromptQuotesQuery | prompts.py:148 | whatever template is chosen, the prompt holds the query verbatim on its "QUESTION: " line |
| Prompts.PromptStatesLevel | prompts.py:147 | whatever template is chosen, the prompt names the lower-cased knowledge level ("which is '...' in this case.") |
| Prompts.PromptNamesPersona | prompts.py:145 | the ADVISORY and ANALYTICAL prompts cast the model as a "helpful financial" lower-cased assistant type |
| Prompts.PromptShowsMarketData | prompts.py:150-156 | a data prompt shows the short and intermediate moving averages and the short-term levels the partitioners kept, and the classic events, on their "- ... of <asset>: " lines |
| Prompts.GeneralIgnoresSnapshot | prompts.py:204-209 | the GENERAL prompt is the same whatever market data is passed: it carries no asset data |
| Prompts.CfaTestPrompt | prompts.py:214-228 | `get_test_prompt(query)` as written: the plain string literal, which carries the bare "QUESTION: {query}" line |
| Prompts.CfaTestPromptIgnoresQuery | prompts.py:214-228 | as written, the CFA prompt is the same text for every query and carries the bare "{query}" placeholder |
| Prompts.CfaTestPromptFilled | prompts.py:214-228 | with the query filled in, the prompt holds the query on its "QUESTION: " line, and it equals the text as written when the query is "{query}" itself |
| PyText.Split | streamlit101.py:84 | the split has at least one piece and no piece contains the separator |
| PyText.SplitJoin | streamlit101.py:84 | joining the pieces of a split with the separator gives back the text |
| PyText.LastPiece | streamlit101.py:84 | `split(sep)[-1]` has no separator in it, and is the whole text when there is none |
| PyText.FirstPiece | streamlit101.py:84 | `split(sep)[0]` has no separator in it, and is the whole text when there is none |
| PyText.SplitLastThenHead | streamlit101.py:84 | `s.split(a)[-1].split(b)[0]` follows an `a` (or starts the text), no `a` occurs in it or after it, and it is followed by a `b` or by the end of the text |
| Streamlit101.TestPromptText | streamlit101.py:40-51 | the f-string names the "helpful <description>," persona and holds the query on its "QUESTION: " line |
| Streamlit101.GetTestPrompt | streamlit101.py:32-52 | a prompt exists iff the role is "Exam rule" or "Financial Basic knowledge", otherwise ValueError with the fixed message; the prompt names the role's expert and quotes the query |
| Streamlit101.SidebarSecondRoleRejected | streamlit101.py:71 | the sidebar's second option, as written, makes every query raise ValueError |
| Streamlit101.SidebarRolesAccepted | streamlit101.py:71 | every corrected sidebar option gives a prompt |
| Streamlit101.ExtractResponse | streamlit101.py:84 | the answer contains neither "[/INST]" nor "</s>", and text with neither comes back unchanged |
| Streamlit101.ExtractResponseShape | streamlit101.py:84 | the answer sits right after the last "[/INST]" (or at the start), no "[/INST]" follows, and it ends at a "</s>" or at the end of the text |
| Streamlit101.ChatTurn | streamlit101.py:77-86 | an empty query does nothing; otherwise the turn answers iff the role is known, the answer is the extraction of the model's reply to `get_test_prompt(query, role)`, and it is free of both delimiters |
| Streamlit101.CorrectedSidebarAnswers | streamlit101.py:71-84 | with the corrected options, every non-empty query gets an answer, whichever option is chosen |

## Left out

- `load_patterns`, the file reading of `load_assets` and `load_summaries_reports` are left out. They read CSV files or call `tc_utils.get_summaries`, which is not part of this model. `Utils.LoadAssets` starts from parsed rows.
- The language model classes, Streamlit widgets, session state, timing and `print` calls are left out. They are I/O and UI. The model's text generation is the `llm` parameter of `Streamlit101.ChatTurn`.
- example.py is not part of this model. Its UI and data fetching are I/O, and its delimiter split is the same expression as `Streamlit101.ExtractResponse`.
- `datetime.date.today()` is left out. It is a clock, so the date is the `today` parameter.
- Python's `str()` of dicts and lists is left out. It is the uninterpreted `show` parameter, so the exact text of the data in a prompt is not modelled.
- Equal inputs with a fixed date giving the same prompt is not stated as a lemma. It holds of every Dafny function by construction.
- PyText.Lower: lower-cases ASCII letters only, because Unicode case mapping is out of scope.
- Numbers in market data are exact reals. Integer width, NaN and infinities are not modelled.
- Short CSV rows are left out: `csv.DictReader` fills their missing fields with `None`, and `Utils.Row` holds strings only, so such a row's `None` ids and description are not represented. Only a header that lacks one of the five columns makes utils.py:18-22 raise KeyError, and that is not modelled either.
- Events that are not dicts are left out. `split_events` would fail on them, and events are modelled as dicts.
- An unknown assistant type gives the empty prompt, following the code (prompts.py:141 and 210-211). The model does not turn it into an error.
- Prompts.PromptShowsMarketData: covers the moving averages, the short-term levels and the classic patterns. The other data lines are filled the same way but are not stated one by one.
- Prompts.PromptNamesPersona: covers ADVISORY and ANALYTICAL only, because the CHATBOT and GENERAL intros are fixed text with no assistant-type field.

## Findings

| source | as written | input that shows it | evidently intended | confidence | as-written member | corrected member |
|---|---|---|---|---|---|---|
| streamlit101.py:71 | the sidebar offers "Financial Basic knowledge expert", which `get_test_prompt` does not accept | any query with the second sidebar option raises ValueError | the option "Financial Basic knowledge", the role the function and its error message name | high (not executed) | Streamlit101.SidebarSecondRoleRejected | Streamlit101.CorrectedSidebarAnswers |
| prompts.py:214-228 | the CFA prompt is a plain string literal, so `{query}` is never replaced and the query is dropped | `get_test_prompt("What is EBITDA?")` returns text with "QUESTION: {query}" | the query filled in on the "QUESTION: " line | high (not executed) | Prompts.CfaTestPrompt | Prompts.CfaTestPromptFilled |
