/** The records held in `World.platforms`: a box mesh, its bounding box and its type. */
module Entities {
  import opened Geometry

  /** The `type` tag of an entry. */
  datatype Kind = Platform | Obstacle | CheckpointBeacon

  /** What the generator decides about a new entry: its type, the mesh position and its bounding box. */
  datatype Spawn = Spawn(kind: Kind, position: Vec3, box: Box3)

  /**
   * One entry of the platform list. Everything but `isCollected` is fixed when the entry is
   * created; `isCollected` is set in place by the collision pass the first time a checkpoint
   * platform is touched.
   */
  class Entry {
    const kind: Kind
    const position: Vec3
    const box: Box3
    const isCheckpointPlatform: bool
    var isCollected: bool

    constructor (s: Spawn, checkpoint: bool)
      ensures View() == s && isCheckpointPlatform == checkpoint && !isCollected
    {
      kind, position, box := s.kind, s.position, s.box;
      isCheckpointPlatform := checkpoint;
      isCollected := false;
    }

    function View(): Spawn { Spawn(kind, position, box) }
  }

  /** The fixed part of every entry of a list, in list order. */
  function Views(es: seq<Entry>): (vs: seq<Spawn>)
    ensures |vs| == |es|
  {
    if es == [] then [] else Views(es[..|es| - 1]) + [es[|es| - 1].View()]
  }

  lemma {:induction false} ViewsAppend(a: seq<Entry>, b: seq<Entry>)
    ensures Views(a + b) == Views(a) + Views(b)
    decreases |b|
  {
    if b == [] {
      assert a + b == a;
    } else {
      var b' := b[..|b| - 1];
      assert (a + b)[..|a + b| - 1] == a + b' && (a + b)[|a + b| - 1] == b[|b| - 1];
      ViewsAppend(a, b');
      assert Views(b) == Views(b') + [b[|b| - 1].View()];
    }
  }

  /** A list that starts with `e`. */
  lemma ViewsCons(e: Entry, es: seq<Entry>)
    ensures Views([e] + es) == [e.View()] + Views(es)
  {
    ViewsAppend([e], es);
    assert [e][..0] == [];
  }

  lemma ViewsSuffix(a: seq<Entry>, d: nat)
    requires d <= |a|
    ensures Views(a[d..]) == Views(a)[d..]
  {
    assert a == a[..d] + a[d..];
    ViewsAppend(a[..d], a[d..]);
  }
}
