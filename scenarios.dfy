/** Worked examples of the reviewer on concrete files. */
module Scenarios {
  import opened Text
  import opened Paths
  import opened Failures
  import opened Lines
  import opened Prompts
  import opened Reviewers
  import opened Session

  lemma JoinThree(a: string, b: string, c: string)
    ensures JoinLines([a, b, c]) == a + "\n" + b + "\n" + c
  {
    assert [a, b, c][1..] == [b, c];
    assert [b, c][1..] == [c];
    assert JoinLines([b, c]) == b + "\n" + c;
    assert JoinLines([a, b, c]) == a + "\n" + (b + "\n" + c);
    assert a + "\n" + (b + "\n" + c) == a + "\n" + b + "\n" + c;
  }

  lemma AnnotateJoined(lines: seq<string>)
    requires forall k :: 0 <= k < |lines| ==> NoBreaks(lines[k])
    requires lines == [] || lines[|lines| - 1] != ""
    ensures AnnotateSource(JoinLines(lines)) == JoinLines(NumberFrom(1, lines))
  {
    SplitJoin(lines);
  }

  /** Any three-line file is numbered 1, 2, 3. */
  lemma AnnotateThree(a: string, b: string, c: string)
    requires NoBreaks(a) && NoBreaks(b) && NoBreaks(c) && c != ""
    ensures AnnotateSource(a + "\n" + b + "\n" + c) == "1: " + a + "\n" + "2: " + b + "\n" + "3: " + c
  {
    var lines := [a, b, c];
    JoinThree(a, b, c);
    AnnotateJoined(lines);
    assert NatToString(1) == "1" && NatToString(2) == "2" && NatToString(3) == "3";
    var numbered := NumberFrom(1, lines);
    assert numbered[0] == "1: " + a;
    assert numbered[1] == "2: " + b;
    assert numbered[2] == "3: " + c;
    assert numbered == ["1: " + a, "2: " + b, "3: " + c];
    JoinThree("1: " + a, "2: " + b, "3: " + c);
  }

  /** The scenario's lines hold no break, and numbering them by hand gives
      the expected annotated text. */
  lemma ScenarioText()
    ensures NoBreaks("x = 1") && NoBreaks("y = 2") && NoBreaks("print(x+y)")
    ensures "1: " + "x = 1" + "\n" + "2: " + "y = 2" + "\n" + "3: " + "print(x+y)"
         == "1: x = 1\n2: y = 2\n3: print(x+y)"
  {
  }

  /** The three lines "x = 1", "y = 2", "print(x+y)" are numbered 1 to 3. */
  lemma ThreeLineAnnotation()
    ensures AnnotateSource("x = 1" + "\n" + "y = 2" + "\n" + "print(x+y)")
         == "1: x = 1\n2: y = 2\n3: print(x+y)"
  {
    ScenarioText();
    AnnotateThree("x = 1", "y = 2", "print(x+y)");
  }

  /** Reviewing a file such as a.py that holds three lines: one request,
      the Python persona first, then the numbered code in a fence tagged
      "python". */
  lemma ReviewPythonFile(
    prompts: Registry, path: string, model: string,
    read: string -> Result<string>, complete: Request -> Result<Completion>)
    requires StandardRegistry(prompts) && Suffix(path) == ".py"
    requires read(path) == Success("x = 1" + "\n" + "y = 2" + "\n" + "print(x+y)")
    ensures ReviewFile(CodeReviewer(Python, prompts), path, model, read, complete).requests
      == [Request(model, [prompts[".py"], UserPrompt("1: x = 1\n2: y = 2\n3: print(x+y)", "python")], 0)]
  {
    ScenarioText();
    ReviewThreeLines(prompts, path, model, read, complete, "x = 1", "y = 2", "print(x+y)");
  }

  /** Reviewing any three-line Python file sends its lines numbered 1 to 3. */
  lemma ReviewThreeLines(
    prompts: Registry, path: string, model: string,
    read: string -> Result<string>, complete: Request -> Result<Completion>,
    a: string, b: string, c: string)
    requires StandardRegistry(prompts) && Suffix(path) == ".py"
    requires NoBreaks(a) && NoBreaks(b) && NoBreaks(c) && c != ""
    requires read(path) == Success(a + "\n" + b + "\n" + c)
    ensures ReviewFile(CodeReviewer(Python, prompts), path, model, read, complete).requests
      == [Request(model, [prompts[".py"], UserPrompt("1: " + a + "\n" + "2: " + b + "\n" + "3: " + c, "python")], 0)]
  {
    PythonExtension();
    ReviewSendsOneRequest(CodeReviewer(Python, prompts), path, model, read, complete);
    AnnotateThree(a, b, c);
  }

  /** ".py" is already lower-case. */
  lemma PythonExtension()
    ensures Lower(".py") == ".py"
  {
    LowerWithoutCapitals(".py");
  }

  /** ".txt" is already lower-case, and the factory has no reviewer for it. */
  lemma TextExtension()
    ensures Lower(".txt") == ".txt"
    ensures ".txt" !in {".py", ".ts", ".kt", ".cpp"} && ".txt" !in ReviewerClasses
  {
    LowerWithoutCapitals(".txt");
    assert ".txt"[2] == 'x';
  }

  /** A file with the suffix ".txt" has no persona: the review fails before
      the file is opened or the client is called. */
  lemma ReviewTextFile(
    prompts: Registry, path: string, model: string,
    read: string -> Result<string>, complete: Request -> Result<Completion>)
    requires StandardRegistry(prompts) && Suffix(path) == ".txt"
    ensures var o := ReviewFile(CodeReviewer(Python, prompts), path, model, read, complete);
      !o.success && o.files == [] && o.requests == []
  {
    TextExtension();
  }

  /** `main` on a file with the suffix ".txt" exits with status 1 without
      sending a request. */
  lemma MainOnTextFile(
    prompts: Registry, argument: string, model: string, resolve: string -> Result<string>,
    present: string -> bool, read: string -> Result<string>, complete: Request -> Result<Completion>)
    requires resolve(argument).Success? && present(resolve(argument).value)
    requires Suffix(resolve(argument).value) == ".txt"
    ensures var m := MainRun(prompts, argument, model, resolve, present, read, complete);
      m.status == 1 && m.requests == []
  {
    TextExtension();
  }

  /** A path that does not exist: `resolve(strict=True)` raises
      FileNotFoundError, so `main` logs "File not found error" with the
      error's message and ends with status 1, before any reviewer is made. */
  lemma MissingFile(
    prompts: Registry, argument: string, message: string, model: string,
    resolve: string -> Result<string>, present: string -> bool,
    read: string -> Result<string>, complete: Request -> Result<Completion>)
    requires resolve(argument) == Failure(FileNotFoundError(message))
    ensures var m := MainRun(prompts, argument, model, resolve, present, read, complete);
      m.status == 1 && m.requests == []
      && m.log == [Error("File not found error: " + message, false)]
  {
  }

  /** A file that resolved but no longer exists when `main` checks for it:
      `main` raises its own FileNotFoundError naming the path, logs it and
      ends with status 1. */
  lemma FileVanishedAfterResolve(
    prompts: Registry, argument: string, model: string, resolve: string -> Result<string>,
    present: string -> bool, read: string -> Result<string>, complete: Request -> Result<Completion>)
    requires resolve(argument).Success? && !present(resolve(argument).value)
    ensures var m := MainRun(prompts, argument, model, resolve, present, read, complete);
      m.status == 1 && m.requests == []
      && m.log == [Error("File not found error: " + NotFound(resolve(argument).value).message, false)]
  {
  }
}
