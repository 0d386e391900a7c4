/**
 * The DoCatchTryThrows page: four getters that report an error in three
 * styles (an optional pair, a `Result`, two throwing functions) and the
 * do/catch blocks that consume them. The page's constant `isActive` is a
 * parameter here; a thrown error is the `Failure` of a `Result`.
 */
module ErrorHandling {
  import opened Wrappers

  datatype ValidationError = TooShort | TooLong

  /**
   * An error as a catch clause receives it: one of the page's validation
   * errors, or any other error, known only by its description.
   */
  datatype Error = Validation(reason: ValidationError) | Other(description: string)

  /** The page's fixed setting. */
  const IsActive: bool := false

  /** How a validation error reads when written into a string. */
  function Name(v: ValidationError): string
  {
    match v
    case TooShort => "tooShort"
    case TooLong => "tooLong"
  }

  /** How any error reads when written into a string. */
  function Describe(e: Error): string
  {
    match e
    case Validation(v) => Name(v)
    case Other(d) => d
  }

  /** The pair `(title, error)` that `getTitle` returns. */
  datatype TitleOrError = TitleOrError(title: Option<string>, error: Option<Error>)

  /** Exactly one of the title and the error is present. */
  function GetTitle(isActive: bool): (r: TitleOrError)
    ensures r.title.Some? != r.error.Some?
    ensures r.title.Some? <==> isActive
    ensures r.title.Some? ==> r.title.value == "NEW TEXT!"
    ensures r.error.Some? ==> r.error.value == Validation(TooLong)
  {
    if isActive then TitleOrError(Some("NEW TEXT!"), None)
    else TitleOrError(None, Some(Validation(TooLong)))
  }

  function GetTitle2(isActive: bool): (r: Result<string, Error>)
    ensures r.Success? <==> isActive
    ensures r.Success? ==> r.value == "NEW TEXT!"
    ensures r.Failure? ==> r.error == Validation(TooShort)
  {
    if isActive then Success("NEW TEXT!") else Failure(Validation(TooShort))
  }

  /** A throwing getter: the title, or the thrown `tooShort`. */
  function GetTitle3(isActive: bool): (r: Result<string, Error>)
    ensures r.Success? <==> isActive
    ensures r.Success? ==> r.value == "NEW TEXT!"
    ensures r.Failure? ==> r.error == Validation(TooShort)
  {
    if isActive then Success("NEW TEXT!") else Failure(Validation(TooShort))
  }

  /** A throwing getter: the final title, or the thrown `tooLong` and no other error. */
  function GetTitle4(isActive: bool): (r: Result<string, Error>)
    ensures r.Success? <==> isActive
    ensures r.Success? ==> r.value == "FINAL TEXT!"
    ensures r.Failure? ==> r.error == Validation(TooLong)
  {
    if isActive then Success("FINAL TEXT!") else Failure(Validation(TooLong))
  }

  /** `try?`: a thrown error becomes a missing value; a returned value is kept. */
  function TryOptional(r: Result<string, Error>): (o: Option<string>)
    ensures o.Some? <==> r.Success?
    ensures o.Some? ==> o.value == r.value
  {
    match r
    case Success(v) => Some(v)
    case Failure(_) => None
  }

  /**
   * What a do/catch block did: the titles it obtained before anything was
   * thrown, and the error its catch clause received, if any.
   */
  datatype BlockOutcome = BlockOutcome(titles: seq<string>, caught: Option<Error>)

  /**
   * One statement of a do block: a `try` of a throwing call, or a `try?`
   * whose optional result is discarded.
   */
  datatype Step = Try(call: Result<string, Error>) | Discard(optional: Option<string>)

  /** The statement throws: only a `try` of a call that failed does. */
  predicate Throws(s: Step)
  {
    s.Try? && s.call.Failure?
  }

  /**
   * The titles the statements `steps` obtain when all of them run: the value
   * of each `try` whose call returned, in order.
   */
  function Obtained(steps: seq<Step>): (titles: seq<string>)
    ensures |titles| <= |steps|
    decreases |steps|
  {
    if steps == [] then []
    else if steps[0].Try? && steps[0].call.Success? then [steps[0].call.value] + Obtained(steps[1..])
    else Obtained(steps[1..])
  }

  /** The titles a prefix obtains are the head's title, if any, and then those of the rest's prefix. */
  lemma ObtainedAfterHead(steps: seq<Step>)
    requires steps != []
    ensures forall i :: 0 <= i < |steps| ==>
      Obtained(steps[..i + 1]) == Obtained([steps[0]]) + Obtained(steps[1..][..i])
  {
    forall i | 0 <= i < |steps|
      ensures Obtained(steps[..i + 1]) == Obtained([steps[0]]) + Obtained(steps[1..][..i])
    {
      assert steps[..i + 1][1..] == steps[1..][..i];
      assert [steps[0]][1..] == [];
    }
  }

  /**
   * Runs the statements of a do block in order. The first one that throws
   * ends the block, and its error goes to the catch clause; statements after
   * it are not run. A `try` that returns contributes its title.
   */
  function DoCatch(steps: seq<Step>): (b: BlockOutcome)
    ensures b.caught.Some? <==> exists i :: 0 <= i < |steps| && Throws(steps[i])
    ensures b.caught.None? ==> b.titles == Obtained(steps)
    ensures b.caught.Some? ==>
      (exists i :: 0 <= i < |steps| && Throws(steps[i])
        && b.caught.value == steps[i].call.error
        && (forall j :: 0 <= j < i ==> !Throws(steps[j]))
        && b.titles == Obtained(steps[..i])
        && |b.titles| <= i)
    ensures |b.titles| <= |steps|
    decreases |steps|
  {
    if steps == [] then BlockOutcome([], None)
    else
      match steps[0]
      case Try(Failure(e)) =>
        assert steps[..0] == [];
        BlockOutcome([], Some(e))
      case Try(Success(title)) =>
        var rest := DoCatch(steps[1..]);
        ObtainedAfterHead(steps);
        BlockOutcome([title] + rest.titles, rest.caught)
      case Discard(_) =>
        ObtainedAfterHead(steps);
        DoCatch(steps[1..])
  }

  /**
   * The first block: `try getTitle3()`, then `try getTitle4()`. A throw
   * from the first leaves the block at once, so `getTitle4` is not reached
   * and the catch receives `tooShort`.
   */
  function FirstDoBlock(isActive: bool): (b: BlockOutcome)
    ensures isActive ==> b == BlockOutcome(["NEW TEXT!", "FINAL TEXT!"], None)
    ensures !isActive ==> b == BlockOutcome([], Some(Validation(TooShort)))
  {
    var steps := [Try(GetTitle3(isActive)), Try(GetTitle4(isActive))];
    assert steps[1..] == [Try(GetTitle4(isActive))] && steps[1..][1..] == [];
    assert isActive ==> DoCatch(steps[1..]) == BlockOutcome(["FINAL TEXT!"], None);
    DoCatch(steps)
  }

  /** The second block: `try getTitle3()` alone; its catch receives `tooShort` when inactive. */
  function SecondDoBlock(isActive: bool): (b: BlockOutcome)
    ensures b.caught.Some? <==> !isActive
    ensures b.caught.Some? ==> b.caught.value == Validation(TooShort)
  {
    DoCatch([Try(GetTitle3(isActive))])
  }

  /**
   * The third block: `try? getTitle4()`, whose result is discarded. A `try?`
   * turns the thrown error into a missing value, so nothing in the block
   * throws and its catch clause never runs.
   */
  function ThirdDoBlock(isActive: bool): (b: BlockOutcome)
    ensures b.caught == None
  {
    DoCatch([Discard(TryOptional(GetTitle4(isActive)))])
  }

  /** A block made only of `try?` statements never reaches its catch clause. */
  lemma {:induction false} OnlyDiscardsNeverCatch(steps: seq<Step>)
    requires forall i :: 0 <= i < |steps| ==> steps[i].Discard?
    ensures DoCatch(steps).caught == None && DoCatch(steps).titles == []
    decreases |steps|
  {
    if steps != [] {
      OnlyDiscardsNeverCatch(steps[1..]);
    }
  }

  /**
   * The catch clauses of `alwaysGetTitle`, tried in order: `tooShort`,
   * then `tooLong`, then a catch-all that describes any other error.
   */
  function CatchTitle(e: Error): (s: string)
    ensures e == Validation(TooShort) ==> s == "short error: tooShort."
    ensures e == Validation(TooLong) ==> s == "long error: tooLong."
    ensures e.Other? ==> s == "Unexpected error: " + e.description + "."
  {
    if e == Validation(TooShort) then "short error: " + Name(TooShort) + "."
    else if e == Validation(TooLong) then "long error: " + Name(TooLong) + "."
    else "Unexpected error: " + Describe(e) + "."
  }

  /** Never throws: either the final title or the description of the `tooLong` error. */
  function AlwaysGetTitle(isActive: bool): (s: string)
    ensures isActive ==> s == "FINAL TEXT!"
    ensures !isActive ==> s == "long error: tooLong."
  {
    match GetTitle4(isActive)
    case Success(title) => title
    case Failure(e) => CatchTitle(e)
  }

  /**
   * The `tooShort` clause and the catch-all of `alwaysGetTitle` are never
   * taken: its result is never what either of them would return.
   */
  lemma AlwaysGetTitleSkipsOtherClauses(isActive: bool, description: string)
    ensures AlwaysGetTitle(isActive) != CatchTitle(Validation(TooShort))
    ensures AlwaysGetTitle(isActive) != CatchTitle(Other(description))
  {
    var s := AlwaysGetTitle(isActive);
    var unexpected := CatchTitle(Other(description));
    assert unexpected[0] == 'U';
    assert s[0] != 'U';
    assert CatchTitle(Validation(TooShort))[0] == 's';
  }

  /** With the page's setting every getter takes its error path. */
  lemma InactiveTakesErrorPaths()
    ensures GetTitle(IsActive) == TitleOrError(None, Some(Validation(TooLong)))
    ensures GetTitle2(IsActive) == Failure(Validation(TooShort))
    ensures GetTitle3(IsActive) == Failure(Validation(TooShort))
    ensures GetTitle4(IsActive) == Failure(Validation(TooLong))
    ensures AlwaysGetTitle(IsActive) == "long error: tooLong."
  {
  }
}
