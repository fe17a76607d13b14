/** One review (code_review.py, `review_file` and `main`). File access,
    path resolution and the chat-completion client are parameters: each is a
    function from its request to a value or the exception it raised. The
    logger is the list of entries written, in order. */
module Session {
  import opened Text
  import opened Paths
  import opened Failures
  import opened Lines
  import opened Prompts
  import opened Reviewers

  /** A log record: its level, its text and whether the traceback was attached. */
  datatype LogEntry = Info(text: string) | Error(text: string, withTraceback: bool)

  /** One `chat.completions.create` call. */
  datatype Request = Request(model: string, messages: seq<Message>, temperature: int)

  /** A completion: the message contents of its choices, in order. */
  datatype Completion = Completion(choices: seq<string>)

  /** What `review_file` did: its return value, the log it wrote, the files
      it tried to open and the requests it sent. */
  datatype ReviewOutcome = ReviewOutcome(
    success: bool, log: seq<LogEntry>, files: seq<string>, requests: seq<Request>)

  /** The three handlers of `review_file`, tried in order. */
  function ReviewError(e: Exception): (entry: LogEntry)
    ensures entry.Error?
    ensures entry.withTraceback <==> !e.IsValueError() && !e.IsOSError()
  {
    if e.IsValueError() then Error("Value Error: " + e.message, false)
    else if e.IsOSError() then Error("OS Error: " + e.message, false)
    else Error("An unexpected error occurred: " + e.message, true)
  }

  /** What indexing the empty `response.choices` raises. */
  const NoChoice: Exception := OtherException("list index out of range")

  /** The two messages of a review: the persona, then the fenced numbered code. */
  function ReviewMessages(persona: Message, content: string, tag: string): seq<Message> {
    [persona, UserPrompt(AnnotateSource(content), tag)]
  }

  /** `review_file`: detect the persona, read and number the file, send one
      request at temperature 0, log the first choice. Every exception is
      caught and turns into False. */
  function ReviewFile(
    reviewer: CodeReviewer, path: string, model: string,
    read: string -> Result<string>, complete: Request -> Result<Completion>
  ): (o: ReviewOutcome)
    ensures |o.requests| <= 1 && |o.files| <= 1 && o.log != []
    ensures DetectLanguage(reviewer.prompts, path).Failure? ==> o.files == [] && o.requests == []
    ensures o.files != [] ==> o.files == [path]
    ensures read(path).Failure? ==> o.requests == []
    ensures DetectLanguage(reviewer.prompts, path).Success? && read(path).Success? ==> o.requests != []
    ensures o.requests != [] ==>
      && DetectLanguage(reviewer.prompts, path).Success?
      && read(path).Success?
      && o.requests[0] == Request(model, ReviewMessages(
           DetectLanguage(reviewer.prompts, path).value, read(path).value, Tag(reviewer.language)), 0)
    ensures o.success <==>
      && o.requests != []
      && complete(o.requests[0]).Success?
      && complete(o.requests[0]).value.choices != []
    ensures o.success ==> o.log[|o.log| - 1] == Info("Review Content:\n" + complete(o.requests[0]).value.choices[0])
    ensures !o.success ==> o.log[|o.log| - 1].Error?
    ensures DetectLanguage(reviewer.prompts, path).Failure? ==>
      o.log == [ReviewError(DetectLanguage(reviewer.prompts, path).error)]
    ensures DetectLanguage(reviewer.prompts, path).Success? && read(path).Failure? ==>
      o.log == [ReviewError(read(path).error)]
    ensures o.requests != [] ==>
      o.log[0] == Info("tag = " + Tag(reviewer.language)) && |o.log| == 2
    ensures o.requests != [] && complete(o.requests[0]).Failure? ==>
      o.log[1] == ReviewError(complete(o.requests[0]).error)
    ensures o.requests != [] && complete(o.requests[0]).Success? && complete(o.requests[0]).value.choices == [] ==>
      o.log[1] == ReviewError(NoChoice)
  {
    match DetectLanguage(reviewer.prompts, path)
    case Failure(e) => ReviewOutcome(false, [ReviewError(e)], [], [])
    case Success(persona) =>
      match read(path)
      case Failure(e) => ReviewOutcome(false, [ReviewError(e)], [path], [])
      case Success(content) =>
        var tag := Tag(reviewer.language);
        var tagged := [Info("tag = " + tag)];
        var request := Request(model, ReviewMessages(persona, content, tag), 0);
        match complete(request)
        case Failure(e) => ReviewOutcome(false, tagged + [ReviewError(e)], [path], [request])
        case Success(response) =>
          if response.choices == [] then
            ReviewOutcome(false, tagged + [ReviewError(NoChoice)], [path], [request])
          else
            ReviewOutcome(true, tagged + [Info("Review Content:\n" + response.choices[0])], [path], [request])
  }

  /** The request of a review sent with the shipped persona table: a system
      message with the persona of the lower-cased suffix, then a user message
      whose one fence carries the variant's tag and the file's lines, each
      prefixed with its number and read back unchanged. */
  lemma ReviewRequestShape(
    reviewer: CodeReviewer, path: string, model: string,
    read: string -> Result<string>, complete: Request -> Result<Completion>)
    requires StandardRegistry(reviewer.prompts)
    requires Lower(Suffix(path)) in reviewer.prompts && read(path).Success?
    ensures var o := ReviewFile(reviewer, path, model, read, complete);
      && |o.requests| == 1
      && o.requests[0].temperature == 0
      && |o.requests[0].messages| == 2
      && o.requests[0].messages[0] == reviewer.prompts[Lower(Suffix(path))]
      && o.requests[0].messages[0].role == "system"
      && o.requests[0].messages[1].role == "user"
      && ParseUserPrompt(o.requests[0].messages[1].content) == Some(FencedCode(
           Tag(reviewer.language), AnnotateSource(read(path).value)))
      && StripLineNumbers(AnnotateSource(read(path).value)) == Some(SplitLines(read(path).value))
  {
    UserPromptRoundTrip(AnnotateSource(read(path).value), Tag(reviewer.language));
    AnnotateRoundTrip(read(path).value);
  }

  /** When the persona is found and the file is read, exactly one request
      is sent: the persona, then the fenced numbered code, at temperature 0. */
  lemma ReviewSendsOneRequest(
    reviewer: CodeReviewer, path: string, model: string,
    read: string -> Result<string>, complete: Request -> Result<Completion>)
    requires Lower(Suffix(path)) in reviewer.prompts && read(path).Success?
    ensures ReviewFile(reviewer, path, model, read, complete).requests
      == [Request(model, [reviewer.prompts[Lower(Suffix(path))],
                          UserPrompt(AnnotateSource(read(path).value), Tag(reviewer.language))], 0)]
  {
  }

  /** How `main` ended: its exit status, the log it wrote and the requests
      its review sent. */
  datatype MainOutcome = MainOutcome(status: int, log: seq<LogEntry>, requests: seq<Request>)

  /** The three handlers of `main`, tried in order; each exits with status 1. */
  function MainError(e: Exception): (entry: LogEntry)
    ensures entry.Error?
    ensures entry.withTraceback <==> !e.FileNotFoundError? && !e.IsValueError()
  {
    if e.FileNotFoundError? then Error("File not found error: " + e.message, false)
    else if e.IsValueError() then Error("Value error: " + e.message, false)
    else Error("An unexpected error occurred: " + e.message, true)
  }

  function NotFound(path: string): Exception {
    FileNotFoundError("The file '" + path + "' was not found. Please check the path and try again.")
  }

  /** `main` once the configuration is loaded: resolve the path, check that
      it exists, pick the reviewer by lower-cased suffix, run the review.
      Status 1 on a missing file or an unsupported extension; otherwise 0,
      whatever the review returned. */
  function MainRun(
    prompts: Registry, argument: string, model: string,
    resolve: string -> Result<string>, present: string -> bool,
    read: string -> Result<string>, complete: Request -> Result<Completion>
  ): (o: MainOutcome)
    ensures o.status == 0 || o.status == 1
    ensures o.status == 1 <==>
      || resolve(argument).Failure?
      || !present(resolve(argument).value)
      || Lower(Suffix(resolve(argument).value)) !in ReviewerClasses
    ensures o.log != [] && (o.status == 1 ==> o.requests == [] && o.log[|o.log| - 1].Error?)
    ensures resolve(argument).Failure? ==> o.log == [MainError(resolve(argument).error)]
    ensures resolve(argument).Success? && !present(resolve(argument).value) ==>
      o.log == [MainError(NotFound(resolve(argument).value))]
    ensures resolve(argument).Success? && present(resolve(argument).value)
            && Lower(Suffix(resolve(argument).value)) !in ReviewerClasses ==>
      var path := resolve(argument).value;
      o.log == [Info("Found file '" + path + "'"),
                MainError(ValueError("Unsupported file type: " + Lower(Suffix(path))))]
    ensures o.status == 0 ==>
      var path := resolve(argument).value;
      var ext := Lower(Suffix(path));
      var review := ReviewFile(CodeReviewer(ReviewerClasses[ext], prompts), path, model, read, complete);
      o.requests == review.requests && o.log == [Info("Found file '" + path + "'")] + review.log
  {
    match resolve(argument)
    case Failure(e) => MainOutcome(1, [MainError(e)], [])
    case Success(path) =>
      if !present(path) then MainOutcome(1, [MainError(NotFound(path))], [])
      else
        var found := [Info("Found file '" + path + "'")];
        match GetReviewer(prompts, Lower(Suffix(path)))
        case Failure(e) => MainOutcome(1, found + [MainError(e)], [])
        case Success(reviewer) =>
          var review := ReviewFile(reviewer, path, model, read, complete);
          MainOutcome(0, found + review.log, review.requests)
  }

  /** `main` ignores what `review_file` returns: two calls that differ only
      in how the client answers end with the same status. */
  lemma MainIgnoresReviewResult(
    prompts: Registry, argument: string, model: string,
    resolve: string -> Result<string>, present: string -> bool,
    read: string -> Result<string>, complete1: Request -> Result<Completion>,
    complete2: Request -> Result<Completion>)
    ensures MainRun(prompts, argument, model, resolve, present, read, complete1).status
         == MainRun(prompts, argument, model, resolve, present, read, complete2).status
  {
  }
}
