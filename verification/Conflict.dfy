/** Operation classes, scope selectors and the compatibility matrix of the
    conflict check. */
module Conflict {

  const CLASS_CREATE := "create"
  const CLASS_REPLACE := "replace"
  const CLASS_MUTATE := "mutate"
  const CLASS_APPEND := "append"
  const CLASS_DELETE := "delete"

  const CLASSES := [CLASS_CREATE, CLASS_REPLACE, CLASS_MUTATE, CLASS_APPEND, CLASS_DELETE]

  /** A declared operation: a class and the field paths it writes. */
  datatype Operation = Operation(class_: string, scope: seq<string>)

  predicate Overlaps(a: string, b: string) {
    a == b || b + "." <= a || a + "." <= b
  }

  ghost predicate DisjointScopes(a: seq<string>, b: seq<string>) {
    && a != [] && b != []
    && forall left, right | left in a && right in b :: !Overlaps(left, right)
  }

  ghost predicate Compatible(a: Operation, b: Operation) {
    if a.class_ == CLASS_APPEND && b.class_ == CLASS_APPEND then true
    else if (a.class_ == CLASS_APPEND && b.class_ == CLASS_MUTATE)
         || (a.class_ == CLASS_MUTATE && b.class_ == CLASS_APPEND) then true
    else if a.class_ == CLASS_MUTATE && b.class_ == CLASS_MUTATE then DisjointScopes(a.scope, b.scope)
    else false
  }

  /** `ScopesDisjoint` of the conflict package: nested loops that stop at the first
      overlapping pair. */
  method ScopesDisjoint(a: seq<string>, b: seq<string>) returns (disjoint: bool)
    ensures disjoint <==> DisjointScopes(a, b)
  {
    if |a| == 0 || |b| == 0 {
      return false;
    }
    for i := 0 to |a|
      invariant forall left, right | left in a[..i] && right in b :: !Overlaps(left, right)
    {
      for j := 0 to |b|
        invariant forall right | right in b[..j] :: !Overlaps(a[i], right)
      {
        if Overlaps(a[i], b[j]) {
          return false;
        }
        assert b[..j + 1] == b[..j] + [b[j]];
      }
      assert b[..|b|] == b && a[..i + 1] == a[..i] + [a[i]];
    }
    assert a[..|a|] == a;
    return true;
  }

  /** What `Compatible` costs at run time: one call of the nested loop, and only
      between two mutates. */
  method CheckCompatible(a: Operation, b: Operation) returns (ok: bool)
    ensures ok <==> Compatible(a, b)
  {
    if a.class_ == CLASS_APPEND && b.class_ == CLASS_APPEND {
      return true;
    } else if (a.class_ == CLASS_APPEND && b.class_ == CLASS_MUTATE)
           || (a.class_ == CLASS_MUTATE && b.class_ == CLASS_APPEND) {
      return true;
    } else if a.class_ == CLASS_MUTATE && b.class_ == CLASS_MUTATE {
      ok := ScopesDisjoint(a.scope, b.scope);
    } else {
      return false;
    }
  }

  // ---------------------------------------------------------------------
  // What a scope means: field paths are lists of segments
  // ---------------------------------------------------------------------

  /** The dot-separated segments of a path. Every string has at least one. */
  function Segments(path: string): (segments: seq<string>)
    ensures |segments| >= 1
  {
    if path == "" then [""] else Prepended(path[0], Segments(path[1..]))
  }

  function Prepended(c: char, rest: seq<string>): (segments: seq<string>)
    requires |rest| >= 1
    ensures |segments| >= 1
  {
    if c == '.' then [""] + rest else [[c] + rest[0]] + rest[1..]
  }

  /** The inverse of `Segments`. */
  function Join(segments: seq<string>): (path: string)
    requires |segments| >= 1
  {
    if |segments| == 1 then segments[0]
    else segments[0] + "." + Join(segments[1..])
  }

  lemma {:induction false} JoinSegments(path: string)
    ensures Join(Segments(path)) == path
  {
    if path != "" {
      JoinSegments(path[1..]);
      var rest := Segments(path[1..]);
      if path[0] == '.' {
        assert Segments(path)[1..] == rest;
        assert path == "." + path[1..];
      } else {
        assert Segments(path)[1..] == rest[1..];
        assert path == [path[0]] + path[1..];
        if |rest| > 1 {
          assert Join(rest) == rest[0] + "." + Join(rest[1..]);
          assert [path[0]] + (rest[0] + "." + Join(rest[1..])) == ([path[0]] + rest[0]) + "." + Join(rest[1..]);
        }
      }
    }
  }

  lemma PrependedConcat(c: char, h: seq<string>, t: seq<string>)
    requires |h| >= 1
    ensures Prepended(c, h + t) == Prepended(c, h) + t
  {
    assert (h + t)[0] == h[0] && (h + t)[1..] == h[1..] + t;
  }

  /** Appending a dot and a tail appends the tail's segments. */
  lemma {:induction false} SegmentsOfExtension(head: string, tail: string)
    ensures Segments(head + "." + tail) == Segments(head) + Segments(tail)
  {
    var whole := head + "." + tail;
    if head == "" {
      assert whole[0] == '.' && whole[1..] == tail;
    } else {
      assert whole[0] == head[0] && whole[1..] == head[1..] + "." + tail;
      SegmentsOfExtension(head[1..], tail);
      PrependedConcat(head[0], Segments(head[1..]), Segments(tail));
    }
  }

  /** `b` with a dot is a string prefix of `a` exactly when b's segments are a
      proper prefix of a's. */
  lemma {:induction false} DottedPrefixIsSegmentPrefix(a: string, b: string)
    ensures b + "." <= a <==> Segments(b) < Segments(a)
  {
    if b + "." <= a {
      var tail := a[|b| + 1..];
      assert a == b + "." + tail;
      SegmentsOfExtension(b, tail);
    }
    if Segments(b) < Segments(a) {
      var rest := Segments(a)[|Segments(b)|..];
      assert Segments(a) == Segments(b) + rest;
      JoinOfConcat(Segments(b), rest);
      JoinSegments(a);
      JoinSegments(b);
      assert a == b + "." + Join(rest);
    }
  }

  lemma {:induction false} JoinOfConcat(front: seq<string>, back: seq<string>)
    requires |front| >= 1 && |back| >= 1
    ensures Join(front + back) == Join(front) + "." + Join(back)
  {
    if |front| == 1 {
      assert (front + back)[1..] == back;
    } else {
      JoinOfConcat(front[1..], back);
      assert (front + back)[1..] == front[1..] + back;
    }
  }

  /** For all strings: two paths overlap exactly when the segments of one are a
      prefix of the segments of the other. */
  lemma OverlapIsSegmentPrefix(a: string, b: string)
    ensures Overlaps(a, b) <==> Segments(a) <= Segments(b) || Segments(b) <= Segments(a)
  {
    DottedPrefixIsSegmentPrefix(a, b);
    DottedPrefixIsSegmentPrefix(b, a);
    if Segments(a) == Segments(b) {
      JoinSegments(a);
      JoinSegments(b);
    }
  }

  /** The field `path` is written by an operation that declares `scope`. A
      selector covers its own path and everything below it. */
  ghost predicate Under(path: string, scope: seq<string>) {
    exists selector | selector in scope :: Segments(selector) <= Segments(path)
  }

  /** Two scoped mutates are compatible exactly when no field path lies under
      both of their scopes. */
  lemma ScopedMutatesShareNoField(a: Operation, b: Operation)
    requires a.class_ == CLASS_MUTATE && b.class_ == CLASS_MUTATE
    requires a.scope != [] && b.scope != []
    ensures Compatible(a, b) <==> !exists path :: Under(path, a.scope) && Under(path, b.scope)
  {
    if Compatible(a, b) {
      forall path | Under(path, a.scope) && Under(path, b.scope)
        ensures false
      {
        var left :| left in a.scope && Segments(left) <= Segments(path);
        var right :| right in b.scope && Segments(right) <= Segments(path);
        OverlapIsSegmentPrefix(left, right);
      }
    } else {
      var left, right :| left in a.scope && right in b.scope && Overlaps(left, right);
      OverlapIsSegmentPrefix(left, right);
      var path := if Segments(left) <= Segments(right) then right else left;
      assert Under(path, a.scope) && Under(path, b.scope);
    }
  }

  /** Operations of this class may run beside one another: they add to the resource or
      overwrite fields of it, and do not depend on the rest. */
  predicate MayCommute(op: Operation) {
    op.class_ in {"append", "mutate"}
  }

  /** The operation overwrites the field. A mutate without a scope overwrites every
      field; an append overwrites none. */
  ghost predicate Overwrites(op: Operation, path: string) {
    op.class_ == "mutate" && (op.scope == [] || Under(path, op.scope))
  }

  /** A mutate always overwrites something. */
  lemma MutateOverwrites(op: Operation)
    requires op.class_ == "mutate" && op.scope != []
    ensures Overwrites(op, op.scope[0])
  {
    assert op.scope[0] in op.scope && Segments(op.scope[0]) <= Segments(op.scope[0]);
  }

  /** The matrix, for all pairs of operations: two writes are compatible if and only if
      both may commute and no field is overwritten by both. */
  lemma CompatibleMeaning(a: Operation, b: Operation)
    ensures Compatible(a, b) <==>
            MayCommute(a) && MayCommute(b) && !exists path :: Overwrites(a, path) && Overwrites(b, path)
  {
    if a.class_ == "mutate" && b.class_ == "mutate" {
      if a.scope != [] && b.scope != [] {
        ScopedMutatesShareNoField(a, b);
        assert forall path :: Overwrites(a, path) <==> Under(path, a.scope);
        assert forall path :: Overwrites(b, path) <==> Under(path, b.scope);
      } else {
        var path := if a.scope != [] then a.scope[0] else if b.scope != [] then b.scope[0] else "";
        if a.scope != [] { MutateOverwrites(a); }
        if b.scope != [] { MutateOverwrites(b); }
        assert Overwrites(a, path) && Overwrites(b, path);
      }
    }
  }

  /** The matrix is symmetric: who came first never decides compatibility. */
  lemma CompatibleIsSymmetric(a: Operation, b: Operation)
    ensures Compatible(a, b) <==> Compatible(b, a)
  {
    assert forall left, right :: Overlaps(left, right) <==> Overlaps(right, left);
  }
}
