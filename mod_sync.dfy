/**
 * The installed-mods menu: toggles accumulate in a change set, and the sync
 * button sends the whole set at once and checks the device's answer against it.
 * `setModStatuses` and `removeMod` are not part of this model; their answers
 * are inputs.
 */
module ModSync {
  import opened Wrappers
  import opened Mods

  const MismatchMessage: string :=
    "Not all the selected mods were successfully installed/uninstalled."
    + "\nThis happens when two changes are made that conflict, e.g. trying to install a mod but uninstall one of its dependencies."

  /**
   * The properties every plain object inherits from `Object.prototype`. The
   * change set is such an object, so `id in changes` holds for these ids too,
   * and `changes[id]` is then a function or an object, never a boolean.
   */
  const InheritedKeys: set<string> := {
    "constructor", "hasOwnProperty", "isPrototypeOf", "propertyIsEnumerable",
    "toString", "toLocaleString", "valueOf", "__proto__",
    "__defineGetter__", "__defineSetter__", "__lookupGetter__", "__lookupSetter__"
  }

  /** Assigning a boolean to `__proto__` is ignored: that key never becomes an own entry. */
  const ProtoKey: string := "__proto__"

  /** A change set as the menu builds it: `__proto__` is never one of its own keys. */
  predicate WellFormed(changes: ChangeSet)
  {
    ProtoKey !in changes
  }

  /** `onEnabledChanged`: a copy of the change set in which `id` now asks for `enabled`. */
  function WithToggle(changes: ChangeSet, id: string, enabled: bool): (r: ChangeSet)
    ensures WellFormed(changes) ==> WellFormed(r)
    ensures id != ProtoKey ==> r.Keys == changes.Keys + {id} && r[id] == enabled
    ensures id == ProtoKey ==> r == changes
    ensures forall k :: k in changes && k != id ==> k in r && r[k] == changes[k]
  {
    if id == ProtoKey then changes else changes[id := enabled]
  }

  /** Toggling one mod twice before a sync keeps only the second choice. */
  lemma LastToggleWins(changes: ChangeSet, id: string, first: bool, second: bool)
    ensures WithToggle(WithToggle(changes, id, first), id, second) == WithToggle(changes, id, second)
  {
  }

  /** Toggles of different mods do not interfere. */
  lemma TogglesCommute(changes: ChangeSet, a: string, x: bool, b: string, y: bool)
    requires a != b
    ensures WithToggle(WithToggle(changes, a, x), b, y) == WithToggle(WithToggle(changes, b, y), a, x)
  {
  }

  /** JavaScript's `id in changes`: an own key, or one inherited from `Object.prototype`. */
  predicate HasProperty(changes: ChangeSet, id: string)
  {
    id in changes || id in InheritedKeys
  }

  /**
   * `m.id in changes && m.is_enabled !== changes[m.id]`: the change set has a
   * property named by the mod's id and it is not the mod's state. An inherited
   * property is never a boolean, so it is always a mismatch.
   */
  predicate Mismatch(changes: ChangeSet, m: Mod)
  {
    HasProperty(changes, m.id) && (m.id in changes ==> m.isEnabled != changes[m.id])
  }

  /** Some mod the device returned fails the check. */
  predicate Unfulfilled(updated: seq<Mod>, changes: ChangeSet)
  {
    exists i :: 0 <= i < |updated| && Mismatch(changes, updated[i])
  }

  /** The `allSuccesful` check of the sync button, a pass over the returned mods. */
  method AllSuccessful(updated: seq<Mod>, changes: ChangeSet) returns (allSuccessful: bool)
    ensures allSuccessful <==> !Unfulfilled(updated, changes)
  {
    allSuccessful := true;
    var i := 0;
    while i < |updated|
      invariant 0 <= i <= |updated|
      invariant allSuccessful <==> forall j :: 0 <= j < i ==> !Mismatch(changes, updated[j])
    {
      var m := updated[i];
      if (m.id in changes || m.id in InheritedKeys) && (m.id !in changes || m.isEnabled != changes[m.id]) {
        allSuccessful := false;
      }
      i := i + 1;
    }
  }

  /** Requesting A on and B off, the device leaving both on: B is a mismatch. */
  lemma MismatchExample(a: Mod, b: Mod)
    requires a.id == "A" && b.id == "B" && a.isEnabled && b.isEnabled
    ensures Unfulfilled([a, b], map["A" := true, "B" := false])
  {
    assert Mismatch(map["A" := true, "B" := false], [a, b][1]);
  }

  /** A mod whose id is an inherited property name fails the check, though nobody asked for it. */
  lemma InheritedIdExample(a: Mod, c: Mod)
    requires a.id == "a" && a.isEnabled && c.id == "constructor"
    ensures Unfulfilled([a, c], map["a" := true])
    ensures !Unfulfilled([a], map["a" := true])
  {
    assert Mismatch(map["a" := true], [a, c][1]);
  }

  /** A mod whose id the change set neither holds nor inherits can never be a mismatch. */
  lemma OnlyRequestedModsCount(updated: seq<Mod>, changes: ChangeSet, extra: Mod)
    requires !HasProperty(changes, extra.id)
    ensures Unfulfilled(updated + [extra], changes) <==> Unfulfilled(updated, changes)
  {
    var all := updated + [extra];
    if Unfulfilled(all, changes) {
      var i :| 0 <= i < |all| && Mismatch(changes, all[i]);
      assert i < |updated| && updated[i] == all[i];
    }
    if Unfulfilled(updated, changes) {
      var i :| 0 <= i < |updated| && Mismatch(changes, updated[i]);
      assert all[i] == updated[i];
    }
  }

  /** A returned mod whose id is an inherited property name and not an own key always fails the check. */
  lemma InheritedIdAlwaysMismatches(updated: seq<Mod>, changes: ChangeSet, extra: Mod)
    requires extra.id in InheritedKeys && extra.id !in changes
    ensures Unfulfilled(updated + [extra], changes)
  {
    assert (updated + [extra])[|updated|] == extra;
  }

  /** The menu's state: the pending change set and what it shares with the page. */
  class InstalledModsMenu {
    /** `changes`: the intents not yet sent. */
    var changes: ChangeSet
    /** The displayed mod list (`setMods`). */
    var mods: seq<Mod>
    /** The error modal's text (`setError`), `None` when closed. */
    var error: Option<string>
    /** The "Syncing Mods..." modal (`setWorking`). */
    var working: bool

    constructor (mods: seq<Mod>)
      ensures this.mods == mods && changes == map[] && error == None && !working
      ensures WellFormed(changes)
    {
      this.mods := mods;
      changes := map[];
      error := None;
      working := false;
    }

    /** The sync button is shown only while there is something to send. */
    predicate HasChanges()
      reads this
    {
      |changes| > 0
    }

    /** A mod card's toggle. */
    method OnEnabledChanged(id: string, enabled: bool)
      modifies this
      ensures changes == WithToggle(old(changes), id, enabled)
      ensures WellFormed(old(changes)) ==> WellFormed(changes)
      ensures mods == old(mods) && error == old(error) && working == old(working)
    {
      changes := WithToggle(changes, id, enabled);
    }

    /**
     * The sync button: the change set is emptied before the request, the whole
     * set is the request, the answer replaces the mod list, and a mismatch with
     * the request is reported as one error. `reply` is what `setModStatuses`
     * returns or throws.
     */
    method Sync(reply: Result<seq<Mod>, string>) returns (request: ChangeSet)
      requires HasChanges()
      modifies this
      ensures request == old(changes) && changes == map[]
      ensures !working
      ensures reply.Ok? ==> mods == reply.value
      ensures reply.Ok? ==> error == if Unfulfilled(reply.value, request) then Some(MismatchMessage) else old(error)
      ensures reply.Err? ==> mods == old(mods) && error == Some(reply.error)
    {
      request := changes;
      changes := map[];
      working := true;
      match reply {
        case Ok(updated) =>
          var allSuccessful := AllSuccessful(updated, request);
          mods := updated;
          if !allSuccessful {
            error := Some(MismatchMessage);
          }
        case Err(e) =>
          error := Some(e);
      }
      working := false;
    }

    /**
     * The remove button of the card showing `card`; `reply` is what `removeMod`
     * returns or throws. The request names the card's own mod.
     */
    method OnRemoved(card: Mod, reply: Result<seq<Mod>, string>) returns (request: string)
      requires card in mods
      modifies this
      ensures request == card.id && card in old(mods)
      ensures changes == old(changes) && !working
      ensures reply.Ok? ==> mods == reply.value && error == old(error)
      ensures reply.Err? ==> mods == old(mods) && error == Some(reply.error)
    {
      request := card.id;
      working := true;
      match reply {
        case Ok(updated) => mods := updated;
        case Err(e) => error := Some(e);
      }
      working := false;
    }
  }
}
