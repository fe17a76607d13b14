# RefactorMind code reviewer, modelled in Dafny

RefactorMind reviews one source file with a chat-completion model. The
reviewer picks a system persona by the file's extension. It numbers every
line of the file as `"<n>: <line>"` and wraps the numbered code in a
Markdown fence tagged with the language. Then it sends the persona and
this user request to the model at temperature 0 and logs the first
choice. This project models that dispatch from `code_review.py`:

- `Paths`: the final path component and its suffix, as `pathlib` computes them.
- `Text`: lower-casing and the small string searches the rest uses.
- `Lines`: `str.splitlines`, `"\n".join`, decimal numerals, and the line numbering of `review_file`. It also has the inverse of the numbering, used to state the round trip.
- `Prompts`: the chat message type, the persona table, `detect_language`, `construct_user_prompt`, and a reader for the fenced block.
- `Reviewers`: the four reviewer variants (`get_tag`) and `ReviewerFactory.get_reviewer`.
- `Session`: `review_file` and `main` as functions of abstract I/O. Reading a file, resolving a path, testing existence and calling the client are function parameters. Each returns a value or the exception it raised. The outcome records the log entries, the files it tried to open and the requests sent.
- `Scenarios`: worked examples for a three-line `a.py`, a `.txt` file and a missing path.

A missing path never reaches the `exists()` test in `main`. `resolve(strict=True)` already raises FileNotFoundError for it, so the "was not found" message is logged only when the file disappears after it was resolved.

The reviewer and the factory never change their fields after `__init__`.
So both are values (datatypes), and every operation is a function.

Three points of the code's behaviour are easy to misread:
- The factory and detection raise `ValueError`, not a separate "unsupported file type" error.
- The factory's lookup is case-sensitive. Only `main` lower-cases the suffix before calling it.
- An unregistered extension is normally stopped by the factory in `main`, with exit status 1. Detection inside `review_file` refuses it only when `review_file` is reached another way.

## Model

| member | source | states |
|---|---|---|
| Paths.Name | code_review.py:51 | the final component is everything after the last '/': it holds no '/', ends the path, and is preceded by a '/' unless it is the whole path |
| Paths.Suffix | code_review.py:51 | the suffix is empty exactly when the last dot of the name is its first or last character (or absent); otherwise it starts with its only dot, has no '/', and ends the name |
| Paths.SuffixOfStemAndExtension | code_review.py:51 | "dir/stem.ext" has suffix ".ext" for a non-empty stem and a dot-free extension |
| Text.LowerIdempotent | code_review.py:51 | lower-casing keeps the length and lower-casing twice equals lower-casing once |
| Text.LowerIgnoresUpper | code_review.py:51 | lower-casing an upper-cased text equals lower-casing the original |
| Text.LowerWithoutCapitals | code_review.py:224 | text without capitals is unchanged by lower-casing |
| Prompts.DetectLanguage | code_review.py:50-54 | succeeds exactly when the lower-cased suffix is a key of the persona table, returning that entry; otherwise fails with ValueError("Unsupported file type") |
| Prompts.DetectIgnoresCase | code_review.py:51-53 | a path whose suffix is the upper-case spelling of another path's suffix gets the same persona |
| Prompts.DetectStandard | language_prompts.py:1-137 | with the shipped table, detection succeeds exactly for .py/.ts/.kt/.cpp in any case, and yields a system-role message |
| Prompts.UserPrompt | code_review.py:91-96 | the message has role "user", starts with the introduction, the fence and the tag, and its length accounts for the code and the fixed text |
| Prompts.ParseFenceRoundTrip | code_review.py:95 | the text "<tag>\n<code><closing text>" splits back into exactly that tag and that code |
| Prompts.UserPromptRoundTrip | code_review.py:91-96 | reading the fence opened by the introduction gives back the tag and the code unchanged (so distinct inputs give distinct messages) |
| Lines.LineEnd | code_review.py:63 | the first line ends at the first break character, or at the end of the text |
| Lines.SplitLines | code_review.py:63 | no line holds a break character; only the empty text has no lines; there are at most as many lines as characters |
| Lines.SplitJoin | code_review.py:63-66 | splitting "\n"-joined lines gives back exactly those lines, when none holds a break and the last is not empty |
| Lines.JoinSplit | code_review.py:63 | for text whose only breaks are "\n", re-joining its lines gives the text back, less one final "\n": no line is dropped or trimmed |
| Lines.Normalize | code_review.py:63 | the text with each of the ten `splitlines` break characters, and "\r\n" as one, written as "\n": the result has no other break and is no longer than the text |
| Lines.SplitNormalized | code_review.py:63 | every break splits the text exactly as "\n" does, "\r\n" counting once: the lines of a text are the lines of its normalised form |
| Lines.SplitLinesJoin | code_review.py:63 | for any text, joining its lines with "\n" gives its normalised form back, less one final "\n": no line is dropped, trimmed or split twice |
| Lines.NatToString | code_review.py:65 | `str(n)` is a non-empty string of decimal digits with no leading zero ("0" for zero) |
| Lines.DecimalRoundTrip | code_review.py:65 | reading `str(n)` as a decimal numeral gives n back |
| Lines.NumberFrom | code_review.py:64-65 | numbering keeps the count of lines, and entry k is "<start+k>: " before line k, unchanged |
| Lines.AnnotateSource | code_review.py:60-66 | the annotated code is empty exactly when the file is empty |
| Lines.ParseNumberLine | code_review.py:65 | a numbered line "<n>: <text>" reads back as number n and the unchanged text |
| Lines.UnnumberNumbered | code_review.py:64-66 | stripping the expected numbers from numbered lines returns the original lines |
| Lines.NumberedLineIsOneLine | code_review.py:65 | a numbered line is never empty and holds no line break |
| Lines.AnnotatedLines | code_review.py:63-66 | numbering is total and order-preserving: the annotated code has one line per file line, line k being "<k+1>: " before the file's line k |
| Lines.AnnotatedLinesStartWithDigit | code_review.py:63-66 | every line of the annotated code starts with a digit, so none of them can open or close the Markdown fence that wraps it |
| Lines.AnnotateRoundTrip | code_review.py:63-66 | removing the "<k>: " prefixes from the annotated code gives back the `splitlines` result, blank lines included |
| Reviewers.Tag | code_review.py:103-120 | every variant's tag is non-empty and holds no newline |
| Reviewers.TagInjective | code_review.py:103-120 | no two variants share a tag |
| Reviewers.GetReviewer | code_review.py:135-139 | succeeds exactly for .py/.ts/.kt/.cpp with tags python/typescript/kotlin/cpp and keeps the persona table; otherwise fails with ValueError("Unsupported file type: " + ext) |
| Reviewers.GetReviewerIsCaseSensitive | code_review.py:127-137 | the factory refuses every extension that lower-casing would change, among them the upper-case spelling of each registered extension |
| Reviewers.RegisteredIsLowerCase | code_review.py:127-133 | every registered extension is already lower-case |
| Reviewers.FactoryAgreesWithDetection | code_review.py:224-227 | with the shipped table, the factory accepts the lower-cased suffix exactly when detection accepts the path |
| Session.ReviewError | code_review.py:80-88 | every caught exception is logged as an error, with the traceback exactly when it is neither a ValueError nor an OSError |
| Session.ReviewFile | code_review.py:56-89 | at most one request and one file opened; no file is opened and no request sent when detection fails; no request when reading fails; the request is (model, [persona, numbered user prompt], temperature 0); True exactly when the client returned at least one choice, whose content is then logged last; on False the log ends with the entry of the handler that caught the exception: the detection or read error, the client error (with its traceback unless it is a ValueError or an OSError), or the `IndexError` of an empty choice list (with its traceback) |
| Session.ReviewSendsOneRequest | code_review.py:72-77 | when detection and reading succeed, exactly one request is sent: the persona, then the fenced numbered code, at temperature 0 |
| Session.ReviewRequestShape | code_review.py:59-77 | with the shipped table, the request's messages are a system persona then a user message whose single fence carries the variant's tag and the numbered file, which strips back to the file's lines |
| Session.MainError | code_review.py:233-241 | every exception reaching `main`'s handlers is logged as an error, with the traceback exactly when it is neither FileNotFoundError nor ValueError |
| Session.MainRun | code_review.py:213-241 | the status is 0 or 1; it is 1 exactly when resolving fails, the path does not exist, or the lower-cased suffix has no reviewer, and then no request is sent and the log ends with `main`'s handler entry for that exception (a failed resolve, the "was not found" FileNotFoundError, or the factory's ValueError after "Found file"); otherwise the log is "Found file" followed by the review's log |
| Session.MainIgnoresReviewResult | code_review.py:227-228 | the exit status does not depend on how the client answers, so a failed review does not change it |
| Scenarios.AnnotateThree | code_review.py:63-66 | any three-line file is annotated "1: a\n2: b\n3: c" |
| Scenarios.ThreeLineAnnotation | code_review.py:63-66 | "x = 1\ny = 2\nprint(x+y)" is annotated "1: x = 1\n2: y = 2\n3: print(x+y)" |
| Scenarios.ReviewThreeLines | code_review.py:56-77 | reviewing any three-line file under a .py name sends the Python persona and the lines numbered 1 to 3, fenced with "python" |
| Scenarios.ReviewPythonFile | code_review.py:56-77 | reviewing that file under a .py name sends one request: the Python persona, then the numbered code fenced with "python" |
| Scenarios.ReviewTextFile | code_review.py:50-59 | a .txt file fails detection: no file is opened, no request is sent, the review returns False |
| Scenarios.MainOnTextFile | code_review.py:224-238 | `main` on a .txt file exits with status 1 and sends no request |
| Scenarios.MissingFile | code_review.py:203-206 | a path that does not exist makes the strict resolve raise FileNotFoundError; `main` exits with status 1, sends no request, and logs only "File not found error: " with that message (lines 233-235) |
| Scenarios.FileVanishedAfterResolve | code_review.py:221-232 | a file that disappears between resolving and the existence test ends `main` with status 1 and the single entry "File not found error: The file '…' was not found. …" |

## Left out

- Text.Lower: folds only ASCII letters. Python's `str.lower` also folds other Unicode capitals, and some of them fold to the ASCII letters of a registered extension: U+212A KELVIN SIGN lower-cases to 'k', so a file named "x.\u212At" is reviewed as Kotlin by the code, while the model refuses it (`MainRun` ends with status 1).
- Paths.Suffix: follows `pathlib` up to Python 3.12 (a name ending in '.' has no suffix). Paths are '/'-separated text that has already been resolved. Drive letters and Windows separators are not modelled.
- Prompts.ReviewInstructions: the long instruction text of `construct_user_prompt` is a short stand-in constant. No property depends on its wording.
- The persona texts of `language_prompts.py` are not modelled verbatim. The table is a parameter, and `StandardRegistry` states its shipped shape: four keys, each with role "system".
- `UTCFormatter`, `setup_logging` and the logger's handlers and formatting are not modelled. Logging is the ordered list of entries written (level, text, traceback flag).
- `initialize_configuration`, `parse_arguments` and `create_client` are not modelled: they cover `.env` reading, argparse and constructing the OpenAI client. `main` is modelled from the point where the configuration is loaded. If configuration raised an ordinary exception, `logger` would be unbound in `main`'s handlers; that case is not modelled either.
- `get_file_path` (`Path.resolve(strict=True)`), `open`/`read` and the chat-completion call are function parameters returning a value or an exception. `Path.exists` is a parameter returning a boolean: the model takes it never to raise. In Python up to 3.12 it re-raises an OSError other than a missing or inaccessible entry, which `main` would log with its traceback before exiting with status 1; after a strict resolve that case is not modelled. The network, the filesystem and their timing are not modelled.
- Session.ReviewFile: a response is the list of its choices' message contents. A choice whose content is `None` is not modelled. An empty choice list raises the `IndexError` that the generic handler catches.
- Exception text (`str(e)`) is a message field. Tracebacks are a flag. Exceptions outside `Exception` (`KeyboardInterrupt`, `SystemExit`) are not modelled.
- `main`'s exit status is 0 when it returns normally. `sys.exit(1)` is status 1.
