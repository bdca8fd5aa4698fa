/** The client's three.js scene, reduced to what the synchronisation code does to it:
    it adds and removes objects. Every `add` call is also kept in order, so that how
    often an object was added can be stated. */
module ClientScene {
  class Scene {
    /** The objects now in the scene. */
    var objects: set<object>
    /** Every object passed to `add`, in call order. */
    var added: seq<object>

    constructor()
      ensures objects == {} && added == []
    {
      objects := {};
      added := [];
    }

    /** `scene.add`. */
    method Add(o: object)
      modifies this
      ensures objects == old(objects) + {o}
      ensures added == old(added) + [o]
    {
      objects := objects + {o};
      added := added + [o];
    }

    /** `scene.remove`. */
    method Remove(o: object)
      modifies this
      ensures objects == old(objects) - {o}
      ensures added == old(added)
    {
      objects := objects - {o};
    }
  }
}
