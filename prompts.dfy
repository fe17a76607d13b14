/** The two chat messages of a review (code_review.py, `CodeReviewer`):
    the persona looked up by file extension, and the user request that
    fences the numbered code. */
module Prompts {
  import opened Text
  import opened Failures
  import opened Paths

  /** One chat message, `{"role": ..., "content": ...}`. */
  datatype Message = Message(role: string, content: string)

  /** The persona table the reviewer is built with: extension to message. */
  type Registry = map<string, Message>

  /** The table shipped with the tool: one system-role persona for each of
      ".py", ".ts", ".kt" and ".cpp"; the persona texts are not modelled. */
  predicate StandardRegistry(prompts: Registry) {
    && prompts.Keys == {".py", ".ts", ".kt", ".cpp"}
    && forall ext :: ext in prompts ==> prompts[ext].role == "system"
  }

  /** `detect_language`: the persona registered for the lower-cased suffix
      of the path, or ValueError("Unsupported file type"). */
  function DetectLanguage(prompts: Registry, path: string): (r: Result<Message>)
    ensures r.Success? <==> Lower(Suffix(path)) in prompts
    ensures r.Success? ==> r.value == prompts[Lower(Suffix(path))]
    ensures r.Failure? ==> r.error == ValueError("Unsupported file type")
  {
    var ext := Lower(Suffix(path));
    if ext in prompts then Success(prompts[ext]) else Failure(ValueError("Unsupported file type"))
  }

  /** Detection ignores the case of the suffix: a path whose suffix is the
      upper-case spelling of another's resolves to the same persona. */
  lemma DetectIgnoresCase(prompts: Registry, path: string, shouted: string)
    requires Suffix(shouted) == Upper(Suffix(path))
    ensures DetectLanguage(prompts, shouted) == DetectLanguage(prompts, path)
  {
    LowerIgnoresUpper(Suffix(path));
  }

  /** With the shipped table, detection succeeds exactly for the four
      registered suffixes, in any case, and yields a system message. */
  lemma DetectStandard(prompts: Registry, path: string)
    requires StandardRegistry(prompts)
    ensures DetectLanguage(prompts, path).Success?
        <==> Lower(Suffix(path)) in {".py", ".ts", ".kt", ".cpp"}
    ensures DetectLanguage(prompts, path).Success? ==> DetectLanguage(prompts, path).value.role == "system"
  {
    var ext := Lower(Suffix(path));
    assert ext in prompts <==> ext in {".py", ".ts", ".kt", ".cpp"};
  }

  /** The text before the fence tag. */
  const CodeIntro: string := "I have the following code:\n\n```"

  /** The fence's closing line and the blank line after it. */
  const FenceClose: string := "\n```\n\n"

  /** The fixed review instructions that follow the fenced code: the ten
      areas to review, closing with the note that every code line starts
      with its number, a colon and a space. Their wording is abstracted. */
  const ReviewInstructions: string :=
    "Please conduct a thorough code review covering efficiency, readability, design, security, "
    + "error handling, testing, standards, technical debt, dependencies and anti-patterns. "
    + "Each code line begins with its line number, a colon and a space; cite those numbers."

  /** `construct_user_prompt`: a user message holding the code in one fence
      tagged with `tag`, between the fixed introduction and instructions. */
  function UserPrompt(code: string, tag: string): (m: Message)
    ensures m.role == "user"
    ensures CodeIntro + tag + "\n" <= m.content
    ensures |m.content| == |CodeIntro| + |tag| + 1 + |code| + |FenceClose| + |ReviewInstructions|
  {
    Message("user", CodeIntro + tag + "\n" + code + FenceClose + ReviewInstructions)
  }

  /** What a user message says: the fence tag and the fenced code. */
  datatype FencedCode = FencedCode(tag: string, code: string)

  /** Reads a user message back: the tag runs to the first newline after
      the introduction, the code to the fixed closing text. */
  function ParseUserPrompt(content: string): Option<FencedCode> {
    if CodeIntro <= content then ParseFence(content[|CodeIntro|..], FenceClose + ReviewInstructions)
    else None
  }

  /** Splits "<tag>\n<code><tail>" into the tag and the code. */
  function ParseFence(rest: string, tail: string): Option<FencedCode> {
    var t := PrefixWhile(c => c != '\n', rest);
    if t == |rest| then None
    else
      var body := rest[t + 1..];
      if |body| < |tail| || body[|body| - |tail|..] != tail then None
      else Some(FencedCode(rest[..t], body[..|body| - |tail|]))
  }

  lemma ParseFenceRoundTrip(tag: string, code: string, tail: string)
    requires '\n' !in tag
    ensures ParseFence(tag + "\n" + code + tail, tail) == Some(FencedCode(tag, code))
  {
    var rest := tag + "\n" + code + tail;
    var t := PrefixWhile(c => c != '\n', rest);
    assert forall j :: 0 <= j < |tag| ==> rest[j] == tag[j];
    assert rest[|tag|] == '\n';
    assert t == |tag|;
    assert rest[..t] == tag;
    var body := rest[t + 1..];
    assert body == code + tail;
    assert body[|body| - |tail|..] == tail;
    assert body[..|body| - |tail|] == code;
  }

  /** Reading the fence opened after the introduction gives the tag and the
      code back unchanged, so different code or tags give different
      messages. For arbitrary code this need not be the only fence; the
      annotated code sent for review opens or closes none
      (`Lines.AnnotatedLinesStartWithDigit`). */
  lemma UserPromptRoundTrip(code: string, tag: string)
    requires '\n' !in tag
    ensures ParseUserPrompt(UserPrompt(code, tag).content) == Some(FencedCode(tag, code))
  {
    var tail := FenceClose + ReviewInstructions;
    var rest := tag + "\n" + code + tail;
    var content := UserPrompt(code, tag).content;
    assert content == CodeIntro + rest;
    assert content[|CodeIntro|..] == rest;
    ParseFenceRoundTrip(tag, code, tail);
  }
}
