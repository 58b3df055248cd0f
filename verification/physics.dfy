/**
 The part of the physics world the chunks use: colliders are opaque handles
 that are registered on creation and unregistered by `removeCollider`.
 Rigid bodies, shapes and stepping are not part of this model.
 */
module Physics {

  type Handle = nat

  /** `registered`: the live colliders; `next`: the next fresh handle;
      `removed`: every `removeCollider` call, in order. */
  datatype World = World(registered: set<Handle>, next: Handle, removed: seq<Handle>)

  ghost predicate Valid(w: World)
  {
    forall h :: h in w.registered ==> h < w.next
  }

  function Elems(hs: seq<Handle>): set<Handle>
  {
    set h | h in hs
  }

  /** `createCollider`: registers a handle never handed out before. */
  function CreateCollider(w: World): (r: (World, Handle))
    ensures r.1 == w.next && r.0.next == w.next + 1
    ensures Valid(w) ==> r.1 !in w.registered && Valid(r.0)
    ensures r.0.registered == w.registered + {r.1} && r.0.removed == w.removed
  {
    (World(w.registered + {w.next}, w.next + 1, w.removed), w.next)
  }

  /** Calls `removeCollider` on each handle in turn. */
  method RemoveColliders(w: World, hs: seq<Handle>) returns (r: World)
    ensures r.registered == w.registered - Elems(hs)
    ensures r.removed == w.removed + hs
    ensures r.next == w.next
  {
    r := w;
    var i := 0;
    while i < |hs|
      invariant 0 <= i <= |hs|
      invariant r.registered == w.registered - Elems(hs[..i])
      invariant r.removed == w.removed + hs[..i]
      invariant r.next == w.next
    {
      assert hs[..i + 1] == hs[..i] + [hs[i]];
      assert Elems(hs[..i + 1]) == Elems(hs[..i]) + {hs[i]};
      r := r.(registered := r.registered - {hs[i]}, removed := r.removed + [hs[i]]);
      i := i + 1;
    }
    assert hs[..i] == hs;
  }
}
