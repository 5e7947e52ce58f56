/** Where the result of a write is kept, and how a replay finds it again. */
module ResultStore {
  import opened Schema

  /** The text whose digest names a key downstream and in the object store. */
  function CorrelationText(owner: KeyId): string {
    owner.agent + "\0" + owner.key
  }

  function Ref(digest: string -> string, owner: KeyId): string {
    "results/" + digest(CorrelationText(owner)) + ".json"
  }

  /** No two keys share an object name. */
  ghost predicate Collisionless(digest: string -> string) {
    forall a: KeyId, b: KeyId :: Ref(digest, a) == Ref(digest, b) ==> a == b
  }

  ghost predicate Injective(digest: string -> string) {
    forall a, b :: digest(a) == digest(b) ==> a == b
  }

  /** A key holds no NUL, so the text splits in one way only. */
  lemma CorrelationTextIsInjective(a: KeyId, b: KeyId)
    requires CorrelationText(a) == CorrelationText(b)
    ensures a == b
  {
    var text := CorrelationText(a);
    assert text[|a.agent|] == '\0' && text[|b.agent|] == '\0';
    assert text[|a.agent| + 1..] == a.key && text[|b.agent| + 1..] == b.key;
    assert forall i | |a.agent| < i < |text| :: text[i] == a.key[i - |a.agent| - 1];
    assert forall i | |b.agent| < i < |text| :: text[i] == b.key[i - |b.agent| - 1];
    assert |a.agent| == |b.agent|;
    assert text[..|a.agent|] == a.agent && text[..|b.agent|] == b.agent;
  }

  /** Under a digest without collisions two keys share an object name exactly when
      they are the same key. */
  lemma RefsAreDistinct(digest: string -> string, a: KeyId, b: KeyId)
    requires Injective(digest)
    ensures Ref(digest, a) == Ref(digest, b) <==> a == b
  {
    if Ref(digest, a) == Ref(digest, b) {
      var da, db := digest(CorrelationText(a)), digest(CorrelationText(b));
      var name := Ref(digest, a);
      assert |name| == 8 + |da| + 5 == 8 + |db| + 5;
      assert name[8..8 + |da|] == da && name[8..8 + |db|] == db;
      CorrelationTextIsInjective(a, b);
    }
  }

  lemma InjectiveIsCollisionless(digest: string -> string)
    requires Injective(digest)
    ensures Collisionless(digest)
  {
    forall a: KeyId, b: KeyId | Ref(digest, a) == Ref(digest, b) ensures a == b {
      RefsAreDistinct(digest, a, b);
    }
  }

  type Objects = map<string, Json>

  /** The deployment's share in a placement: the naming digest, whether an object
      store is configured, and the inline cap. */
  datatype Layout = Layout(digest: string -> string, configured: bool, inlineCap: int)

  predicate Offloads(layout: Layout, result: Json, accepted: bool) {
    layout.configured && |result| > 0 && |result| > layout.inlineCap && accepted
  }

  /** The placement `Place` decides on when the object store does (`accepted`) or
      does not take the body. */
  function PlacementOf(layout: Layout, owner: KeyId, result: Json, accepted: bool): Placement {
    if Offloads(layout, result, accepted) then Placement(None, Some(Ref(layout.digest, owner)))
    else if |result| == 0 then Placement(None, None)
    else Placement(Some(result), None)
  }

  function ObjectsAfter(layout: Layout, objects: Objects, owner: KeyId, result: Json, accepted: bool): Objects {
    if Offloads(layout, result, accepted) then objects[Ref(layout.digest, owner) := result] else objects
  }

  /** What a replay of a stored row answers; None is the layer failure. */
  function Resolved(layout: Layout, objects: Objects, inline: Option<Json>, ref: Option<string>): Option<Json> {
    match ref
    case None => Some(if inline.Some? then inline.value else "")
    case Some(name) => if layout.configured && name in objects then Some(objects[name]) else None
  }

  /** The result store, over an object store that keeps what it accepts. */
  class Store {
    const layout: Layout
    var objects: Objects

    constructor (layout: Layout)
      ensures this.layout == layout && objects == map[]
    {
      this.layout := layout;
      objects := map[];
    }

    /** Whichever way the body goes -- inline, offloaded, or inline over the cap
        because the object store refused it -- resolving the placement gives it
        back, and no other object changes. */
    method Place(owner: KeyId, result: Json, accepted: bool) returns (placement: Placement, offloaded: bool, fellBack: bool)
      modifies this
      ensures placement == PlacementOf(layout, owner, result, accepted)
      ensures objects == ObjectsAfter(layout, old(objects), owner, result, accepted)
      ensures Resolved(layout, objects, placement.inline, placement.ref) == Some(result)
      ensures PlacementOk(placement)
      ensures offloaded <==> placement.ref.Some?
      ensures placement.ref.Some? ==> |result| > layout.inlineCap && |result| > 0
      ensures placement.inline.Some? && |result| > layout.inlineCap ==> !layout.configured || !accepted
      ensures placement.inline.None? && placement.ref.None? <==> |result| == 0
      ensures fellBack <==> layout.configured && |result| > 0 && |result| > layout.inlineCap && !accepted
      ensures forall name | name != Ref(layout.digest, owner) ::
                (name in objects <==> name in old(objects)) && (name in objects ==> objects[name] == old(objects)[name])
    {
      if |result| == 0 || !layout.configured || |result| <= layout.inlineCap {
        placement := Placement(if |result| == 0 then None else Some(result), None);
        return placement, false, false;
      }
      if !accepted {
        return Placement(Some(result), None), false, true;
      }
      var ref := Ref(layout.digest, owner);
      objects := objects[ref := result];
      return Placement(None, Some(ref)), true, false;
    }

    method Resolve(inline: Option<Json>, ref: Option<string>) returns (result: Option<Json>)
      ensures result == Resolved(layout, objects, inline, ref)
    {
      if ref.None? {
        return Some(if inline.Some? then inline.value else "");
      }
      if !layout.configured {
        return None;
      }
      if ref.value !in objects {
        return None;
      }
      return Some(objects[ref.value]);
    }
  }
}
