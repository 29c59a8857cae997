/** The two pure decisions inside `createBrowserContext`
    (Mysight/testData/testUtils.js): which configured project to launch, and
    whether the loaded page is the expected site. Launching the browser,
    opening the page, navigating and dismissing the cookie banner are not
    modelled; the page title they produce is passed in. */
module Setup {
  import opened Wrappers

  /** A project entry of the test-runner configuration. Its launch options
      are opaque to this model. */
  datatype Project<Options> = Project(name: string, use: Options)

  /** The errors `createBrowserContext` throws. */
  datatype SetupError =
    | ChromeProjectNotFound
    | TitleMismatch(actual: string)

  const ChromeProjectName: string := "Chrome"
  const ExpectedTitle: string := "MySight"

  /** The index of the first project called `name`, as `Array.prototype.find`
      would reach it. */
  function FindFirstNamed<Options>(projects: seq<Project<Options>>, name: string): (r: Option<nat>)
    ensures r.Some? ==> r.value < |projects| && projects[r.value].name == name
    ensures r.Some? ==> forall j :: 0 <= j < r.value ==> projects[j].name != name
    ensures r.None? <==> forall j :: 0 <= j < |projects| ==> projects[j].name != name
    decreases |projects|
  {
    if projects == [] then None
    else if projects[0].name == name then Some(0)
    else match FindFirstNamed(projects[1..], name)
      case None => None
      case Some(i) => Some(i + 1)
  }

  /** The Chrome project lookup: the first project named "Chrome", or the
      error thrown when there is none. */
  function ChromeProject<Options>(projects: seq<Project<Options>>): (r: Result<Project<Options>, SetupError>)
    ensures r.Failure? <==> forall j :: 0 <= j < |projects| ==> projects[j].name != ChromeProjectName
    ensures r.Failure? ==> r.error == ChromeProjectNotFound
    ensures r.Success? ==> exists i :: 0 <= i < |projects| && projects[i] == r.value
                              && r.value.name == ChromeProjectName
                              && forall j :: 0 <= j < i ==> projects[j].name != ChromeProjectName
  {
    match FindFirstNamed(projects, ChromeProjectName)
    case None => Failure(ChromeProjectNotFound)
    case Some(i) => Success(projects[i])
  }

  /** The page-title check: passes only on the exact title "MySight", and
      otherwise fails with the title actually received. */
  function CheckTitle(title: string): (r: Outcome<SetupError>)
    ensures r.Pass? <==> title == ExpectedTitle
    ensures r.Fail? ==> r.error == TitleMismatch(title)
  {
    if title != ExpectedTitle then Fail(TitleMismatch(title)) else Pass
  }

  /** The decisions of `createBrowserContext` in order: the project lookup
      first (no page is opened without it), then the title of the page the
      launched browser loaded. On success, the project whose options launch
      the browser. */
  function CreateBrowserContext<Options>(projects: seq<Project<Options>>, title: string): (r: Result<Project<Options>, SetupError>)
    ensures r.Success? <==> ChromeProject(projects).Success? && title == ExpectedTitle
    ensures r.Success? ==> r.value == ChromeProject(projects).value
    ensures r.Failure? && ChromeProject(projects).Failure? ==> r.error == ChromeProjectNotFound
    ensures r.Failure? && ChromeProject(projects).Success? ==> r.error == TitleMismatch(title)
  {
    match ChromeProject(projects)
    case Failure(e) => Failure(e)
    case Success(chrome) =>
      match CheckTitle(title)
      case Fail(e) => Failure(e)
      case Pass => Success(chrome)
  }

  const MismatchPrefix: string := "Expected page title \"MySight\", but received: \""

  /** The text of the thrown error. A title mismatch quotes the received
      title between a fixed lead-in and a closing quote. */
  function Message(e: SetupError): (m: string)
    ensures e.ChromeProjectNotFound? ==> m == "Chrome project not found"
    ensures e.TitleMismatch? ==>
      && |m| == |MismatchPrefix| + |e.actual| + 1
      && m[..|MismatchPrefix|] == MismatchPrefix
      && m[|MismatchPrefix|..|m| - 1] == e.actual
      && m[|m| - 1] == '"'
  {
    match e
    case ChromeProjectNotFound => "Chrome project not found"
    case TitleMismatch(actual) =>
      var m := MismatchPrefix + actual + "\"";
      assert m[|MismatchPrefix|..|m| - 1] == actual;
      m
  }

  /** The error text names the received title, so distinct titles give
      distinct messages and no mismatch reads like a missing project. */
  lemma MessageIdentifiesError(e1: SetupError, e2: SetupError)
    ensures Message(e1) == Message(e2) <==> e1 == e2
  {
    if e1.TitleMismatch? && e2.ChromeProjectNotFound? {
      assert |Message(e1)| > |Message(e2)|;
    }
    if e2.TitleMismatch? && e1.ChromeProjectNotFound? {
      assert |Message(e2)| > |Message(e1)|;
    }
  }

  /** The lookup always picks the first Chrome entry: a configuration listing
      Chrome twice launches with the options of the earlier entry. */
  lemma FirstChromeEntryWins<Options>(before: seq<Project<Options>>, chrome: Project<Options>, after: seq<Project<Options>>)
    requires chrome.name == ChromeProjectName
    requires forall j :: 0 <= j < |before| ==> before[j].name != ChromeProjectName
    ensures ChromeProject(before + [chrome] + after) == Success(chrome)
  {
    var all := before + [chrome] + after;
    assert all[|before|] == chrome;
    var r := FindFirstNamed(all, ChromeProjectName);
    assert r.Some?;
    assert r.value == |before|;
  }
}
