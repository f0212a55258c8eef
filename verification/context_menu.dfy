/** The toolbar context menu (`src/js/context-menu-manager.js`): the pause entry's title
    follows the pause flag, and a per-entry cache of titles keeps the browser from being
    asked to set a title the entry already has. */
module ContextMenu {
  import opened Common

  const PauseMenuId: string := "pause"
  const LockMenuId: string := "lock"

  /** What clicking an entry does: `setPaused(paused)`. */
  datatype MenuAction = SetPaused(paused: bool)

  datatype MenuEntry = MenuEntry(title: string, onclick: MenuAction)

  /** One call to the browser's `updateContextMenu`. */
  datatype MenuUpdate = MenuUpdate(id: string, title: string, onclick: MenuAction)

  /** The pause entry for a pause state: while paused it offers to unpause, otherwise to pause. */
  function PauseEntry(paused: bool): (e: MenuEntry)
    ensures e.onclick == SetPaused(!paused)
    ensures paused ==> e.title == "Unpause ModHeader"
    ensures !paused ==> e.title == "Pause ModHeader"
  {
    if paused then MenuEntry("Unpause ModHeader", SetPaused(false))
    else MenuEntry("Pause ModHeader", SetPaused(true))
  }

  /** The cached title of `id` differs from `title` (a missing entry differs from every title). */
  predicate NeedsUpdate(cache: map<string, string>, id: string, title: string) {
    id !in cache || cache[id] != title
  }

  /** The two pause entries are told apart by their titles, so the cache updates on every
      change of the pause state and never when it stays the same. */
  lemma PauseEntryChanges(cache: map<string, string>, before: bool, after: bool)
    requires PauseMenuId in cache && cache[PauseMenuId] == PauseEntry(before).title
    ensures NeedsUpdate(cache, PauseMenuId, PauseEntry(after).title) <==> before != after
  {
  }

  /** The context-menu state of the worker: the title cache and every update made. */
  class MenuManager {
    var currentSettings: map<string, string>
    var updates: seq<MenuUpdate>

    constructor ()
      ensures currentSettings == map[] && updates == []
    {
      currentSettings := map[];
      updates := [];
    }

    /** `updateContextMenuIfNeeded`: update the entry only when its cached title differs. */
    method UpdateContextMenuIfNeeded(id: string, entry: MenuEntry)
      modifies this
      ensures currentSettings == old(currentSettings)[id := entry.title]
      ensures updates == if NeedsUpdate(old(currentSettings), id, entry.title)
        then old(updates) + [MenuUpdate(id, entry.title, entry.onclick)]
        else old(updates)
    {
      if id in currentSettings && currentSettings[id] == entry.title {
        return;
      }
      currentSettings := currentSettings[id := entry.title];
      updates := updates + [MenuUpdate(id, entry.title, entry.onclick)];
    }

    /** `resetContextMenu`: only the pause entry's cache slot can change. */
    method ResetContextMenu(local: map<string, Json>)
      modifies this
      ensures currentSettings == old(currentSettings)[PauseMenuId := PauseEntry(Truthy(Get(local, "isPaused"))).title]
      ensures var e := PauseEntry(Truthy(Get(local, "isPaused")));
        updates == if NeedsUpdate(old(currentSettings), PauseMenuId, e.title)
          then old(updates) + [MenuUpdate(PauseMenuId, e.title, e.onclick)]
          else old(updates)
    {
      if Truthy(Get(local, "isPaused")) {
        UpdateContextMenuIfNeeded(PauseMenuId, MenuEntry("Unpause ModHeader", SetPaused(false)));
      } else {
        UpdateContextMenuIfNeeded(PauseMenuId, MenuEntry("Pause ModHeader", SetPaused(true)));
      }
    }

    /** Two resets with the same pause state update the menu at most once. */
    method ResetTwice(local: map<string, Json>)
      modifies this
      ensures |updates| <= |old(updates)| + 1
      ensures PauseMenuId in currentSettings && currentSettings[PauseMenuId] == PauseEntry(Truthy(Get(local, "isPaused"))).title
    {
      ResetContextMenu(local);
      ghost var between := updates;
      ResetContextMenu(local);
      assert updates == between;
    }
  }
}
