/**
 * The repository carries several snapshots of the same library: the
 * released bundle, the split sources, an earlier single-file bundle and
 * the tutorial steps. An `Edition` names one of them; each rule below says
 * which snapshots have a feature, so that one model covers all of them.
 */
module Editions {

  datatype Edition =
    | Release    // release/SimpleSim.js
    | Source     // src/System.js, src/World.js, src/Item.js
    | Bundle     // simplesim.js
    | Tutorial8  // steps/scripts/simplesim_step8.js
    | Tutorial7  // scripts/simplesim_step7.js
    | Tutorial5  // steps/scripts/simplesim_step5.js
    | Tutorial3  // steps/scripts/simplesim_step3.js

  /** Exports an `Item` constructor (the step-3 snapshot has none). */
  predicate HasItemClass(e: Edition) {
    e != Tutorial3
  }

  /** Has `System._update` and `System.getNewId`. */
  predicate HasUpdate(e: Edition) {
    e != Tutorial3
  }

  /** Recycles destroyed items through the world's `_pool`. */
  predicate HasPool(e: Edition) {
    e == Release
  }

  /** `_update` skips the step of a record whose world is paused; `_keyup`, `_stepForward`, `_resetSystem` and the mouse exist. */
  predicate HasControls(e: Edition) {
    e == Release || e == Source
  }

  /** `init` reads `supportedFeatures` (from step 7 on). */
  predicate HasFeatures(e: Edition) {
    e != Tutorial5 && e != Tutorial3
  }

  /** Has `System._resize`. */
  predicate HasResize(e: Edition) {
    e == Release || e == Source || e == Bundle
  }

  /** Items accumulate wind, thermal and gravity divided by their mass. */
  predicate UsesForces(e: Edition) {
    e == Release || e == Source || e == Bundle || e == Tutorial8
  }

  /** Items cap their speed at `maxSpeed`. */
  predicate LimitsSpeed(e: Edition) {
    e == Release || e == Source || e == Bundle
  }

  /** Items carry an `angle`, a `checkWorldEdges` and a `controlCamera` flag; the world has a camera. */
  predicate HasCamera(e: Edition) {
    e == Release || e == Source
  }

  /** The edge check runs only when the item's `checkWorldEdges` flag is set. */
  predicate HasEdgeFlag(e: Edition) {
    e == Release || e == Source || e == Tutorial8
  }

  /** The factor `init` multiplies `width * height` by to obtain the mass. */
  function MassFactor(e: Edition): (f: real)
    ensures UsesForces(e) ==> f > 0.0
    ensures e == Release || e == Source ==> f == 0.025
    ensures e == Bundle || e == Tutorial8 ==> f == 0.01
  {
    if e == Release || e == Source then 0.025
    else if e == Bundle || e == Tutorial8 then 0.01
    else 0.0
  }
}
