/**
 * The canvas registry behind `Kernel.updateMaxTexSize`, local to one
 * `gpuFunctionExported` call and shared by the kernels made from that
 * call's class: the list of canvases seen so far and, per canvas index,
 * the largest texture size of any kernel drawing on that canvas. A kernel keeps the index of its
 * entry, so kernels on one canvas share (and grow) one entry.
 */
module Registry {
  import opened Wrappers

  function Max(x: int, y: int): int { if x < y then y else x }

  /** `canvases.indexOf(canvas)`: the first position holding it, or -1. */
  function IndexOf(canvases: seq<nat>, canvas: nat): (r: int)
    ensures -1 <= r < |canvases|
    ensures r == -1 <==> canvas !in canvases
    ensures r >= 0 ==> canvases[r] == canvas && forall i :: 0 <= i < r ==> canvases[i] != canvas
  {
    if |canvases| == 0 then -1
    else if canvases[0] == canvas then 0
    else
      var r := IndexOf(canvases[1..], canvas);
      assert canvas in canvases[1..] ==> canvas in canvases;
      assert canvas in canvases ==> canvas in canvases[1..] by {
        if canvas in canvases {
          var k :| 0 <= k < |canvases| && canvases[k] == canvas;
          assert canvases[1..][k - 1] == canvas;
        }
      }
      if r == -1 then -1 else r + 1
  }

  class TexSizeRegistry {
    /** `canvases`: canvas identities, in the order they were first seen. */
    var canvases: seq<nat>
    /** `maxTexSizes`: per canvas index, the largest [width, height] seen. */
    var maxTexSizes: map<nat, (int, int)>

    /** Each canvas is listed once, every listed canvas has an entry, and entries are positive. */
    ghost predicate Valid()
      reads this
    {
      && (forall i, j :: 0 <= i < j < |canvases| ==> canvases[i] != canvases[j])
      && (forall key: nat :: key in maxTexSizes <==> key < |canvases|)
      && (forall key :: key in maxTexSizes ==> maxTexSizes[key].0 >= 1 && maxTexSizes[key].1 >= 1)
    }

    /** A canvas has one index, so kernels that found it hold the same entry. */
    lemma EntryOfCanvas(i: nat, j: nat)
      requires Valid() && i < |canvases| && j < |canvases| && canvases[i] == canvases[j]
      ensures i == j
    {
    }

    constructor ()
      ensures Valid() && canvases == [] && maxTexSizes == map[]
    {
      canvases := [];
      maxTexSizes := map[];
    }

    /**
     * `updateMaxTexSize` for a kernel whose `maxTexSize` is `key` (None
     * before its first call), drawing on `canvas` with texture size
     * (texW, texH). A kernel without an entry looks its canvas up, adding
     * the canvas with an entry equal to the texture size when it is new;
     * then the entry is raised to at least the texture size. The returned
     * key is the entry the kernel keeps.
     */
    method UpdateMaxTexSize(key: Option<nat>, canvas: nat, texW: int, texH: int) returns (entry: nat)
      requires Valid()
      requires key.Some? ==> key.value in maxTexSizes
      requires texW >= 1 && texH >= 1
      modifies this
      ensures Valid()
      ensures key.Some? ==> entry == key.value && canvases == old(canvases)
      ensures key.None? ==> entry < |canvases| && canvases[entry] == canvas
      ensures key.None? ==> canvases == if canvas in old(canvases) then old(canvases) else old(canvases) + [canvas]
      ensures entry in maxTexSizes
      ensures var before := if entry in old(maxTexSizes) then old(maxTexSizes)[entry] else (texW, texH);
        maxTexSizes[entry] == (Max(before.0, texW), Max(before.1, texH))
      ensures forall k :: k in old(maxTexSizes) && k != entry ==> k in maxTexSizes && maxTexSizes[k] == old(maxTexSizes)[k]
    {
      if key.None? {
        var canvasIndex := IndexOf(canvases, canvas);
        if canvasIndex == -1 {
          canvasIndex := |canvases|;
          canvases := canvases + [canvas];
          maxTexSizes := maxTexSizes[canvasIndex := (texW, texH)];
        }
        entry := canvasIndex;
      } else {
        entry := key.value;
      }
      var size := maxTexSizes[entry];
      if size.0 < texW {
        size := (texW, size.1);
      }
      if size.1 < texH {
        size := (size.0, texH);
      }
      maxTexSizes := maxTexSizes[entry := size];
    }
  }

  /**
   * Entries never shrink and every entry stays at least the size that
   * raised it: the step relation of `UpdateMaxTexSize` on the table.
   */
  ghost predicate Grown(before: map<nat, (int, int)>, after: map<nat, (int, int)>)
  {
    forall k :: k in before ==> k in after && after[k].0 >= before[k].0 && after[k].1 >= before[k].1
  }

  /**
   * Two kernels on one canvas: both are handed the same entry, and it ends
   * up at least as large as each kernel's texture size, whichever order
   * they run in; the canvas list grows by at most one.
   */
  method TwoKernelsOneCanvas(registry: TexSizeRegistry, canvas: nat, w1: int, h1: int, w2: int, h2: int)
    returns (entry1: nat, entry2: nat)
    requires registry.Valid() && w1 >= 1 && h1 >= 1 && w2 >= 1 && h2 >= 1
    modifies registry
    ensures registry.Valid() && entry1 == entry2 && entry1 in registry.maxTexSizes
    ensures var size := registry.maxTexSizes[entry1]; size.0 >= w1 && size.0 >= w2 && size.1 >= h1 && size.1 >= h2
    ensures |old(registry.canvases)| <= |registry.canvases| <= |old(registry.canvases)| + 1
    ensures Grown(old(registry.maxTexSizes), registry.maxTexSizes)
  {
    entry1 := registry.UpdateMaxTexSize(None, canvas, w1, h1);
    entry2 := registry.UpdateMaxTexSize(None, canvas, w2, h2);
  }
}
