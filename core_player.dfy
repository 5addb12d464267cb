/**
 * The player as the scenes see it: a game object that can be examined and
 * a store for the items it picks up. The store is the destination of every
 * transfer `Openable.Exec` makes.
 */
module CorePlayer {
  import opened Builtins
  import opened GameObjects
  import opened Actionables

  /** The examine message every player is created with. */
  const PlayerMessage: string := "A Test Player"

  class Player<T> {
    const core: GameObject<Capability<T>>
    const storage: Storageable<T>

    /**
     * `Player(obj_id, obj_name, io, init_items=None)`: a core with the one
     * capability `"examine"`, and a new store holding `init_items` (empty
     * for `None`). The `io` argument only reaches console output.
     */
    constructor (objId: string, objName: string, initItems: Option<seq<T>> := None)
      ensures core.id == objId && core.name == objName
      ensures core.actionables.Keys == {"examine"}
      ensures core.actionables["examine"].Examine?
      ensures core.actionables["examine"].examinable.message == PlayerMessage
      ensures fresh(core.actionables["examine"].examinable)
      ensures fresh(storage)
      ensures storage.inventory == if initItems.Some? then initItems.value else []
    {
      var examinable := new Examinable(PlayerMessage);
      core := NewGameObject(objId, objName, Some(map["examine" := Examine(examinable)]));
      storage := new Storageable(if initItems.Some? then initItems else Some([]));
    }

    /** `get_inventory()`: the store's list. */
    function GetInventory(): (r: seq<T>)
      reads storage
    {
      storage.GetInventory()
    }

    /** `set_inventory(x)`: replaces the store's list, so that `get_inventory()` gives `x`. */
    method SetInventory(newInventory: seq<T>)
      modifies storage
      ensures GetInventory() == newInventory
    {
      storage.SetInventory(newInventory);
    }

    /** `str(player)`: `"Player(<id>)"`, from which the id can be read back. */
    function ToString(): (r: string)
      ensures |r| == |core.id| + 8
      ensures r[..7] == "Player(" && r[|r| - 1] == ')'
      ensures r[7..|r| - 1] == core.GetId()
    {
      "Player(" + core.GetId() + ")"
    }
  }

  /** Players with different ids print differently. */
  lemma ToStringInjective<T>(p: Player<T>, q: Player<T>)
    requires p.core.id != q.core.id
    ensures p.ToString() != q.ToString()
  {
  }
}
