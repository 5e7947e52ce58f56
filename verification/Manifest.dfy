/** A resource type's manifest: its error classification and the validation that
    makes the classification unambiguous. */
module Manifest {
  import opened Conflict

  datatype StatusRange = StatusRange(from: int, to: int) {
    predicate Contains(status: int) {
      from <= status <= to
    }

    /** An interval of HTTP statuses, and not an empty one. */
    predicate IsHttp() {
      100 <= from && to <= 599 && from <= to
    }

    predicate Meets(other: StatusRange) {
      from <= other.to && other.from <= to
    }
  }

  datatype ErrorClassification = ErrorClassification(definitive: seq<StatusRange>, notExecuted: seq<StatusRange>) {
    predicate Declared() {
      |definitive| > 0 || |notExecuted| > 0
    }

    predicate IsDefinitive(status: int) {
      exists i | 0 <= i < |definitive| :: definitive[i].Contains(status)
    }

    predicate IsNotExecuted(status: int) {
      exists i | 0 <= i < |notExecuted| :: notExecuted[i].Contains(status)
    }

    /** No status could ever be read both ways. */
    ghost predicate Separated() {
      forall i, j | 0 <= i < |definitive| && 0 <= j < |notExecuted| :: !definitive[i].Meets(notExecuted[j])
    }

    ghost predicate AllHttp() {
      && (forall i | 0 <= i < |definitive| :: definitive[i].IsHttp())
      && (forall i | 0 <= i < |notExecuted| :: notExecuted[i].IsHttp())
    }
  }

  datatype Document = Document(
    resourceType: string,
    conflictWindowMs: int,
    enforce: bool,
    probePath: string,
    operations: map<string, Operation>,
    errors: ErrorClassification)

  datatype Problem =
    | EmptyType
    | WrongStem
    | NoWindow
    | NoProbePath
    | NoOperations
    | NoClassification
    | BadRange(range: StatusRange)
    | OverlappingRanges(definitive: StatusRange, notExecuted: StatusRange)
    | UnknownClass(name: string)
    | ScopeWithoutMutate(name: string)
    | BadPath(name: string, path: string)

  predicate IsFieldPath(path: string) {
    && path != ""
    && !("." <= path)
    && path[|path| - 1] != '.'
    && NoDoubleDot(path)
  }

  predicate NoDoubleDot(path: string) {
    forall i | 0 <= i < |path| - 1 :: !(path[i] == '.' && path[i + 1] == '.')
  }

  ghost predicate OperationOk(operation: Operation) {
    && operation.class_ in CLASSES
    && (|operation.scope| > 0 ==> operation.class_ == CLASS_MUTATE)
    && forall path | path in operation.scope :: IsFieldPath(path)
  }

  ghost predicate WellFormed(doc: Document, stem: string) {
    && doc.resourceType != "" && doc.resourceType == stem
    && doc.conflictWindowMs > 0
    && "/" <= doc.probePath
    && |doc.operations| > 0
    && doc.errors.Declared()
    && doc.errors.AllHttp()
    && doc.errors.Separated()
    && forall name | name in doc.operations :: OperationOk(doc.operations[name])
  }

  method RangeProblems(ranges: seq<StatusRange>) returns (problems: seq<Problem>)
    ensures problems == [] <==> forall i | 0 <= i < |ranges| :: ranges[i].IsHttp()
  {
    problems := [];
    for i := 0 to |ranges|
      invariant problems == [] <==> forall j | 0 <= j < i :: ranges[j].IsHttp()
    {
      if ranges[i].from < 100 || ranges[i].to > 599 || ranges[i].from > ranges[i].to {
        problems := problems + [BadRange(ranges[i])];
      }
    }
  }

  lemma AllHttpOfConcat(errors: ErrorClassification)
    ensures errors.AllHttp() <==>
            forall i | 0 <= i < |errors.definitive + errors.notExecuted| ::
              (errors.definitive + errors.notExecuted)[i].IsHttp()
  {
    var both := errors.definitive + errors.notExecuted;
    assert forall i | 0 <= i < |errors.definitive| :: both[i] == errors.definitive[i];
    assert forall i | 0 <= i < |errors.notExecuted| ::
        both[|errors.definitive| + i] == errors.notExecuted[i];
    assert forall i | |errors.definitive| <= i < |both| ::
        both[i] == errors.notExecuted[i - |errors.definitive|];
  }

  method OverlapProblems(errors: ErrorClassification) returns (problems: seq<Problem>)
    ensures problems == [] <==> errors.Separated()
  {
    problems := [];
    for i := 0 to |errors.definitive|
      invariant problems == [] <==>
                forall k, l | 0 <= k < i && 0 <= l < |errors.notExecuted| ::
                  !errors.definitive[k].Meets(errors.notExecuted[l])
    {
      ghost var before := problems;
      for j := 0 to |errors.notExecuted|
        invariant problems == [] <==>
                  before == [] && forall l | 0 <= l < j :: !errors.definitive[i].Meets(errors.notExecuted[l])
      {
        var d, n := errors.definitive[i], errors.notExecuted[j];
        if d.from <= n.to && n.from <= d.to {
          problems := problems + [OverlappingRanges(d, n)];
        }
      }
    }
  }

  method OperationProblems(name: string, operation: Operation) returns (problems: seq<Problem>)
    ensures problems == [] <==> OperationOk(operation)
  {
    problems := [];
    if operation.class_ !in CLASSES {
      problems := problems + [UnknownClass(name)];
    }
    if |operation.scope| > 0 && operation.class_ != CLASS_MUTATE {
      problems := problems + [ScopeWithoutMutate(name)];
    }
    ghost var before := problems;
    for i := 0 to |operation.scope|
      invariant problems == [] <==> before == [] && forall j | 0 <= j < i :: IsFieldPath(operation.scope[j])
    {
      if !IsFieldPath(operation.scope[i]) {
        problems := problems + [BadPath(name, operation.scope[i])];
      }
    }
  }

  /** No problem is reported exactly for the well-formed documents. The
      operations are visited in whatever order the map yields them. */
  method Validate(doc: Document, stem: string) returns (problems: seq<Problem>)
    ensures problems == [] <==> WellFormed(doc, stem)
  {
    problems := [];
    if doc.resourceType == "" {
      problems := problems + [EmptyType];
    } else if doc.resourceType != stem {
      problems := problems + [WrongStem];
    }
    if doc.conflictWindowMs <= 0 {
      problems := problems + [NoWindow];
    }
    if !("/" <= doc.probePath) {
      problems := problems + [NoProbePath];
    }
    if |doc.operations| == 0 {
      problems := problems + [NoOperations];
    }
    if !doc.errors.Declared() {
      problems := problems + [NoClassification];
    }
    var ranges := doc.errors.definitive + doc.errors.notExecuted;
    var found := RangeProblems(ranges);
    AllHttpOfConcat(doc.errors);
    problems := problems + found;
    found := OverlapProblems(doc.errors);
    problems := problems + found;

    ghost var before := problems;
    var left := doc.operations.Keys;
    while left != {}
      invariant left <= doc.operations.Keys
      invariant problems == [] <==>
                before == [] && forall name | name in doc.operations && name !in left :: OperationOk(doc.operations[name])
      decreases |left|
    {
      var name :| name in left;
      found := OperationProblems(name, doc.operations[name]);
      problems := problems + found;
      left := left - {name};
    }
  }

  /** In a manifest that validates, no status whatever is both definitive and
      provably not executed; for ranges of HTTP statuses the validator rejects
      no more than that. */
  lemma SeparatedMeansUnambiguous(errors: ErrorClassification)
    requires errors.AllHttp()
    ensures errors.Separated() <==> forall status :: !(errors.IsDefinitive(status) && errors.IsNotExecuted(status))
  {
    if !errors.Separated() {
      var i, j :| 0 <= i < |errors.definitive| && 0 <= j < |errors.notExecuted|
                  && errors.definitive[i].Meets(errors.notExecuted[j]);
      var d, n := errors.definitive[i], errors.notExecuted[j];
      var status := if d.from <= n.from then n.from else d.from;
      assert d.Contains(status) && n.Contains(status);
      assert errors.IsDefinitive(status) && errors.IsNotExecuted(status);
    }
  }

  /** The scope paths that validate are the ones without an empty segment. */
  lemma {:induction false} FieldPathHasNoEmptySegment(path: string)
    ensures IsFieldPath(path) <==> forall segment | segment in Segments(path) :: segment != ""
  {
    FieldPathTail(path);
    var segments := Segments(path);
    assert forall i | 0 <= i < |segments| :: segments[i] in segments;
    if segments[0] != "" && TailFilled(path) {
      forall segment | segment in segments ensures segment != "" {
        var i :| 0 <= i < |segments| && segments[i] == segment;
      }
    }
  }

  /** No empty segment except perhaps the first one. */
  ghost predicate TailFilled(path: string) {
    forall i | 1 <= i < |Segments(path)| :: Segments(path)[i] != ""
  }

  lemma NoDoubleDotStep(path: string)
    requires path != ""
    ensures NoDoubleDot(path) <==> NoDoubleDot(path[1..]) && !(|path| > 1 && path[0] == '.' && path[1] == '.')
  {
    var rest := path[1..];
    assert forall i | 0 <= i < |rest| :: rest[i] == path[i + 1];
    if NoDoubleDot(rest) && !(|path| > 1 && path[0] == '.' && path[1] == '.') {
      forall i | 0 <= i < |path| - 1 ensures !(path[i] == '.' && path[i + 1] == '.') {
        if i > 0 {
          assert !(rest[i - 1] == '.' && rest[i] == '.');
        }
      }
    }
  }

  lemma {:induction false} FieldPathTail(path: string)
    ensures Segments(path)[0] == "" <==> path == "" || path[0] == '.'
    ensures TailFilled(path) <==> NoDoubleDot(path) && (path == "" || path[|path| - 1] != '.')
  {
    if path != "" {
      var rest := path[1..];
      FieldPathTail(rest);
      var tail := Segments(rest);
      NoDoubleDotStep(path);
      if path[0] == '.' {
        assert Segments(path) == [""] + tail;
        assert TailFilled(path) <==> tail[0] != "" && TailFilled(rest) by {
          assert forall i | 0 <= i < |tail| :: Segments(path)[i + 1] == tail[i];
        }
      } else {
        assert Segments(path) == [[path[0]] + tail[0]] + tail[1..];
        assert forall i | 1 <= i < |tail| :: Segments(path)[i] == tail[i];
      }
    }
  }
}
