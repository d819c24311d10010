/** The outbreak heatmap page (src/pages/Heatmap.tsx): the zoom level that
    the two buttons step down and up, clamped to 4..10. */
module Heatmap {

  const MinZoom: int := 4
  const MaxZoom: int := 10
  const InitialZoom: int := 5

  /** `Math.min(10, zoom + 1)`. */
  function ZoomedIn(z: int): (r: int)
    ensures z < MaxZoom ==> r == z + 1
    ensures z >= MaxZoom ==> r == MaxZoom
  {
    if z + 1 < MaxZoom then z + 1 else MaxZoom
  }

  /** `Math.max(4, zoom - 1)`. */
  function ZoomedOut(z: int): (r: int)
    ensures z > MinZoom ==> r == z - 1
    ensures z <= MinZoom ==> r == MinZoom
  {
    if z - 1 > MinZoom then z - 1 else MinZoom
  }

  /** Zooming in and then out returns to the same level below the top. */
  lemma InThenOut(z: int)
    requires MinZoom <= z < MaxZoom
    ensures ZoomedOut(ZoomedIn(z)) == z
  {
  }

  /** Zooming out and then in returns to the same level above the bottom. */
  lemma OutThenIn(z: int)
    requires MinZoom < z <= MaxZoom
    ensures ZoomedIn(ZoomedOut(z)) == z
  {
  }

  datatype Press = ZoomIn | ZoomOut

  /** The level after a sequence of button presses. */
  function Run(z: int, presses: seq<Press>): int
    decreases |presses|
  {
    if presses == [] then z
    else Run(if presses[0] == ZoomIn then ZoomedIn(z) else ZoomedOut(z), presses[1..])
  }

  /** From any level in range, every sequence of presses stays in range. */
  lemma {:induction false} RunStaysInRange(z: int, presses: seq<Press>)
    requires MinZoom <= z <= MaxZoom
    ensures MinZoom <= Run(z, presses) <= MaxZoom
    decreases |presses|
  {
    if presses != [] {
      RunStaysInRange(if presses[0] == ZoomIn then ZoomedIn(z) else ZoomedOut(z), presses[1..]);
    }
  }

  /** In particular from the initial level 5. */
  lemma FromInitialZoom(presses: seq<Press>)
    ensures MinZoom <= Run(InitialZoom, presses) <= MaxZoom
  {
    RunStaysInRange(InitialZoom, presses);
  }

  /** The page's zoom state. */
  class ZoomControl {
    var zoom: int

    ghost predicate Valid()
      reads this
    {
      MinZoom <= zoom <= MaxZoom
    }

    constructor ()
      ensures Valid() && zoom == InitialZoom
    {
      zoom := InitialZoom;
    }

    method ZoomIn()
      requires Valid()
      modifies this
      ensures Valid()
      ensures zoom == ZoomedIn(old(zoom))
    {
      if zoom + 1 < MaxZoom {
        zoom := zoom + 1;
      } else {
        zoom := MaxZoom;
      }
    }

    method ZoomOut()
      requires Valid()
      modifies this
      ensures Valid()
      ensures zoom == ZoomedOut(old(zoom))
    {
      if zoom - 1 > MinZoom {
        zoom := zoom - 1;
      } else {
        zoom := MinZoom;
      }
    }
  }
}
