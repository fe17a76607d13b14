/** The reviewer variants and the factory that picks one by extension
    (code_review.py, `PythonReviewer` to `CppReviewer`, `ReviewerFactory`). */
module Reviewers {
  import opened Failures
  import opened Prompts
  import Text
  import Paths

  /** The four reviewer subclasses; they differ only in `get_tag`. */
  datatype Language = Python | TypeScript | Kotlin | Cpp

  /** `get_tag`: the code-fence language hint of each variant. */
  function Tag(language: Language): (tag: string)
    ensures tag != [] && '\n' !in tag
  {
    match language
    case Python => "python"
    case TypeScript => "typescript"
    case Kotlin => "kotlin"
    case Cpp => "cpp"
  }

  /** No two variants share a tag. */
  lemma TagInjective(a: Language, b: Language)
    requires Tag(a) == Tag(b)
    ensures a == b
  {
    match a
    case Python => assert Tag(a)[0] == 'p';
    case TypeScript => assert Tag(a)[0] == 't';
    case Kotlin => assert Tag(a)[0] == 'k';
    case Cpp => assert Tag(a)[..2] == "cp";
  }

  /** A reviewer: its variant and the persona table it was built with (the
      chat client it also holds is passed to each review instead). */
  datatype CodeReviewer = CodeReviewer(language: Language, prompts: Registry)

  /** `reviewer_classes`: the factory's case-sensitive extension table. */
  const ReviewerClasses: map<string, Language> :=
    map[".py" := Python, ".ts" := TypeScript, ".kt" := Kotlin, ".cpp" := Cpp]

  /** `get_reviewer`: the variant registered for exactly this extension, or
      ValueError naming the extension. */
  function GetReviewer(prompts: Registry, ext: string): (r: Result<CodeReviewer>)
    ensures r.Success? <==> ext in {".py", ".ts", ".kt", ".cpp"}
    ensures r.Success? ==> r.value.prompts == prompts
    ensures ext == ".py" ==> r.Success? && Tag(r.value.language) == "python"
    ensures ext == ".ts" ==> r.Success? && Tag(r.value.language) == "typescript"
    ensures ext == ".kt" ==> r.Success? && Tag(r.value.language) == "kotlin"
    ensures ext == ".cpp" ==> r.Success? && Tag(r.value.language) == "cpp"
    ensures r.Failure? ==> r.error == ValueError("Unsupported file type: " + ext)
  {
    if ext in ReviewerClasses then Success(CodeReviewer(ReviewerClasses[ext], prompts))
    else Failure(ValueError("Unsupported file type: " + ext))
  }

  /** The factory does not fold case: every registered extension is
      already lower-case, so any spelling that holds a capital is refused,
      the upper-case spelling of each registered extension among them. */
  lemma GetReviewerIsCaseSensitive(prompts: Registry, ext: string)
    ensures Text.Lower(ext) != ext ==> GetReviewer(prompts, ext).Failure?
    ensures forall e :: e in ReviewerClasses ==> GetReviewer(prompts, Text.Upper(e)).Failure?
  {
    if ext in ReviewerClasses {
      RegisteredIsLowerCase(ext);
    }
    forall e | e in ReviewerClasses
      ensures Text.Upper(e) !in ReviewerClasses
    {
      assert 'a' <= e[1] <= 'z';
      Text.UpperCapitalises(e, 1);
    }
  }

  /** A registered extension holds no capital. */
  lemma RegisteredIsLowerCase(e: string)
    requires e in ReviewerClasses
    ensures Text.Lower(e) == e
  {
    Text.LowerWithoutCapitals(e);
  }

  /** With the shipped persona table, the factory and detection accept the
      same files once the suffix is lower-cased, as `main` does. */
  lemma FactoryAgreesWithDetection(prompts: Registry, path: string)
    requires StandardRegistry(prompts)
    ensures GetReviewer(prompts, Text.Lower(Paths.Suffix(path))).Success?
        <==> DetectLanguage(prompts, path).Success?
  {
  }
}
