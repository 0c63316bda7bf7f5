/** The mod records the agent reports, and the few list and string helpers the UI uses on them. */
module Mods {
  import opened Wrappers

  /** A mod as the agent reports it; `gameVersion` is `None` when the mod declares no game version. */
  datatype Mod = Mod(id: string, version: string, gameVersion: Option<string>, isEnabled: bool)

  /** Requested enable states by mod id, as sent to `setModStatuses`. */
  type ChangeSet = map<string, bool>

  /** `s.startsWith(prefix)`. */
  predicate StartsWith(s: string, prefix: string)
  {
    |prefix| <= |s| && s[..|prefix|] == prefix
  }

  /** `mods.find(mod => mod.id === id)`, searching from position `from`: the first mod with that id. */
  function FindFrom(mods: seq<Mod>, id: string, from: nat): (r: Option<nat>)
    requires from <= |mods|
    ensures r.Some? ==> from <= r.value < |mods| && mods[r.value].id == id
    ensures r.Some? ==> forall j :: from <= j < r.value ==> mods[j].id != id
    ensures r.None? ==> forall j :: from <= j < |mods| ==> mods[j].id != id
    decreases |mods| - from
  {
    if from == |mods| then None
    else if mods[from].id == id then Some(from)
    else FindFrom(mods, id, from + 1)
  }

  /** The mod `Array.prototype.find` returns for `id`, or `None` where it returns `undefined`. */
  function FindById(mods: seq<Mod>, id: string): (r: Option<Mod>)
    ensures r.Some? ==> r.value in mods && r.value.id == id
    ensures r.None? <==> forall j :: 0 <= j < |mods| ==> mods[j].id != id
    ensures r.Some? ==> exists i :: 0 <= i < |mods| && mods[i] == r.value && forall j :: 0 <= j < i ==> mods[j].id != id
  {
    match FindFrom(mods, id, 0)
    case None => None
    case Some(i) => Some(mods[i])
  }
}
