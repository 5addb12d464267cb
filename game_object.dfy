/**
 * The basic game object: an id, a display name and a map from capability
 * name (`"examine"`, `"open"`, ...) to a capability. Everything here is a
 * lookup in that map; the capability type is left open (`A`), exactly as the
 * object itself only cares that a capability can be looked up by name.
 * Running a capability (`execute_actionable`) needs the closed set of
 * capabilities and lives beside them, in `Actionables.ExecuteActionable`.
 */
module GameObjects {
  import opened Builtins

  datatype GameObject<A> = GameObject(id: string, name: string, actionables: map<string, A>) {

    /** `get_id()`. */
    function GetId(): (r: string)
    {
      id
    }

    /** `has_actionable(n)`: `n` is one of the object's capability names. */
    predicate HasActionable(n: string) {
      n in actionables
    }

    /** `get_actionable(n)`: `actionables.get(n)`. */
    function GetActionable(n: string): (r: Option<A>)
      ensures r.Some? ==> n in actionables && r.value == actionables[n]
      ensures n in actionables ==> r == Some(actionables[n])
      ensures n !in actionables ==> r == None
    {
      if n in actionables then Some(actionables[n]) else None
    }
  }

  /**
   * `GameObject(obj_id, obj_name, actionables=None)`: `actionables or {}`, so
   * both `None` and an empty dictionary give an object without capabilities.
   */
  function NewGameObject<A>(id: string, name: string, actionables: Option<map<string, A>> := None): (g: GameObject<A>)
    ensures g.id == id && g.name == name
    ensures actionables.None? ==> g.actionables == map[]
    ensures actionables.Some? ==> g.actionables == actionables.value
  {
    match actionables
    case None => GameObject(id, name, map[])
    case Some(m) => if |m| == 0 then GameObject(id, name, map[]) else GameObject(id, name, m)
  }

  /** `has_actionable` and `get_actionable` agree: a name is present iff it looks up to something. */
  lemma HasIffGet<A>(g: GameObject<A>, n: string)
    ensures g.HasActionable(n) <==> g.GetActionable(n).Some?
    ensures g.HasActionable(n) ==> g.GetActionable(n) == Some(g.actionables[n])
  {
  }
}
