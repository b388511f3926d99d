/**
 * The dashboard page: the shortcut list and its add/edit/delete handlers,
 * the context menu and dialog state, the theme, and the effect that
 * persists the list through the quota-safe save.
 */
module Dashboard {
  import opened Wrappers
  import opened ListOps
  import opened Shortcuts
  import opened BrowserStorage
  import opened QuotaSafeStore

  /** Storage key of the shortcut list. */
  const ShortcutsKey: string := "nexus_shortcuts"

  /** The list shown on first use. */
  const DefaultShortcuts: seq<Shortcut> := [
    Shortcut("1", "ChatGPT", "https://chat.openai.com", None),
    Shortcut("2", "Gemini", "https://gemini.google.com", None),
    Shortcut("3", "GitHub", "https://github.com", None),
    Shortcut("4", "X", "https://x.com", None),
    Shortcut("5", "BiliBili", "https://bilibili.com", None)
  ]

  lemma DefaultShortcutsUnique()
    ensures UniqueIds(DefaultShortcuts) && |DefaultShortcuts| == 5
  {
  }

  /** A truthy id: present and not the empty string. */
  predicate Truthy(id: Option<string>) {
    id.Some? && id.value != ""
  }

  datatype ContextMenuState = ContextMenuState(visible: bool, x: int, y: int, shortcutId: Option<string>)

  datatype ModalKind = AddKind | EditKind | NoKind

  datatype ModalState = ModalState(isOpen: bool, kind: ModalKind, shortcutId: Option<string>)

  /** The record the add branch appends. */
  function NewShortcut(id: string, title: string, url: string, customIcon: Option<string>): (s: Shortcut)
    ensures s.customIcon.Some? <==> customIcon.Some? && customIcon.value != ""
  {
    Shortcut(id, title, url, if customIcon.Some? && customIcon.value != "" then customIcon else None)
  }

  /** `prev.map(s => s.id === id ? { ...s, title, url, customIcon } : s)`. */
  function EditById(list: seq<Shortcut>, id: string, title: string, url: string, customIcon: Option<string>): (r: seq<Shortcut>)
    ensures |r| == |list|
  {
    seq(|list|, i requires 0 <= i < |list| =>
      if list[i].id == id then list[i].(title := title, url := url, customIcon := customIcon) else list[i])
  }

  /** Editing overwrites title, address and icon of the matching records
      only, keeping every id and position; with no match nothing changes. */
  lemma EditByIdSpec(list: seq<Shortcut>, id: string, title: string, url: string, customIcon: Option<string>)
    ensures var r := EditById(list, id, title, url, customIcon);
      && (forall i :: 0 <= i < |list| ==> r[i].id == list[i].id)
      && (forall i :: 0 <= i < |list| && list[i].id == id ==>
            r[i] == Shortcut(id, title, url, customIcon))
      && (forall i :: 0 <= i < |list| && list[i].id != id ==> r[i] == list[i])
      && ((forall s :: s in list ==> s.id != id) ==> r == list)
      && (UniqueIds(list) ==> UniqueIds(r))
  {
    var r := EditById(list, id, title, url, customIcon);
    if forall s :: s in list ==> s.id != id {
      assert forall i :: 0 <= i < |list| ==> r[i] == list[i] by {
        forall i | 0 <= i < |list| ensures r[i] == list[i] {
          assert list[i] in list;
        }
      }
    }
  }

  /** `'light'` becomes `'dark'`; anything else becomes `'light'`. */
  function Toggled(theme: string): string {
    if theme == "light" then "dark" else "light"
  }

  /** Toggling twice gives back either of the two themes. */
  lemma ToggledTwice(theme: string)
    requires theme == "light" || theme == "dark"
    ensures Toggled(Toggled(theme)) == theme
    ensures Toggled(theme) != theme
  {
  }

  class Home {
    var shortcuts: seq<Shortcut>
    var theme: string
    var isClient: bool
    var contextMenu: ContextMenuState
    var modal: ModalState
    /** The browser store the list is persisted to. */
    const store: ShortcutStorage

    /** Ids stay unique, in the page and in what is stored. */
    ghost predicate Valid()
      reads this, store
    {
      && UniqueIds(shortcuts)
      && (ShortcutsKey in store.items ==> UniqueIds(store.items[ShortcutsKey]))
    }

    constructor (store: ShortcutStorage)
      requires ShortcutsKey in store.items ==> UniqueIds(store.items[ShortcutsKey])
      ensures Valid()
      ensures this.store == store && shortcuts == DefaultShortcuts && theme == "light" && !isClient
      ensures contextMenu == ContextMenuState(false, 0, 0, None) && modal == ModalState(false, NoKind, None)
    {
      this.store := store;
      shortcuts := DefaultShortcuts;
      theme := "light";
      isClient := false;
      contextMenu := ContextMenuState(false, 0, 0, None);
      modal := ModalState(false, NoKind, None);
    }

    /** The mount effect: the stored list replaces the defaults; a stored
        theme (any non-empty string) wins over the system preference. */
    method Mount(savedTheme: string, prefersDark: bool)
      requires Valid()
      modifies this
      ensures Valid() && isClient
      ensures shortcuts == if ShortcutsKey in store.items then store.items[ShortcutsKey] else old(shortcuts)
      ensures theme == if savedTheme != "" then savedTheme else if prefersDark then "dark" else old(theme)
      ensures contextMenu == old(contextMenu) && modal == old(modal)
    {
      isClient := true;
      if ShortcutsKey in store.items {
        shortcuts := store.items[ShortcutsKey];
      }
      if savedTheme != "" {
        theme := savedTheme;
      } else if prefersDark {
        theme := "dark";
      }
    }

    /** The persistence effect after a change of the list. When the save
        fails, the list is replaced by what the store still holds, if that
        differs. */
    method Persist()
      requires Valid()
      modifies this, store
      ensures Valid()
      ensures !old(isClient) ==> shortcuts == old(shortcuts) && store.items == old(store.items)
      ensures old(isClient) ==>
        var rep := SaveSpec(store.attempt, old(shortcuts));
        if rep.stored.Some? then
          && store.items == old(store.items)[ShortcutsKey := rep.stored.value]
          && shortcuts == old(shortcuts)
        else
          && store.items == old(store.items)
          && shortcuts == if ShortcutsKey in old(store.items) then old(store.items)[ShortcutsKey] else old(shortcuts)
      ensures contextMenu == old(contextMenu) && modal == old(modal) && theme == old(theme)
    {
      if !isClient {
        return;
      }
      ghost var data := shortcuts;
      var success := store.SaveToLocalStorage(ShortcutsKey, shortcuts);
      if success {
        StoredKeepsIds(store.attempt, data);
      }
      if !success {
        if ShortcutsKey in store.items {
          var saved := store.items[ShortcutsKey];
          if saved != shortcuts {
            shortcuts := saved;
          }
        }
      }
    }

    /** `closeContextMenu()`: hides the menu and keeps where it was and for
        which shortcut. */
    method CloseContextMenu()
      modifies this
      ensures contextMenu == old(contextMenu).(visible := false)
      ensures shortcuts == old(shortcuts) && modal == old(modal) && theme == old(theme) && isClient == old(isClient)
    {
      contextMenu := contextMenu.(visible := false);
    }

    /** `handleContextMenu`: opens the menu at the pointer for a shortcut,
        or for the background when `shortcutId` is `None`. */
    method OpenContextMenu(x: int, y: int, shortcutId: Option<string>)
      modifies this
      ensures contextMenu == ContextMenuState(true, x, y, shortcutId)
      ensures shortcuts == old(shortcuts) && modal == old(modal) && theme == old(theme) && isClient == old(isClient)
    {
      contextMenu := ContextMenuState(true, x, y, shortcutId);
    }

    /** `openAddModal()`. */
    method OpenAddModal()
      modifies this
      ensures contextMenu == old(contextMenu).(visible := false)
      ensures modal == ModalState(true, AddKind, None)
      ensures shortcuts == old(shortcuts) && theme == old(theme) && isClient == old(isClient)
    {
      CloseContextMenu();
      modal := ModalState(true, AddKind, None);
    }

    /** `openEditModal()`: only for a menu opened on a shortcut. */
    method OpenEditModal()
      modifies this
      ensures contextMenu == old(contextMenu).(visible := false)
      ensures modal == if Truthy(old(contextMenu).shortcutId)
        then ModalState(true, EditKind, old(contextMenu).shortcutId) else old(modal)
      ensures shortcuts == old(shortcuts) && theme == old(theme) && isClient == old(isClient)
    {
      CloseContextMenu();
      if Truthy(contextMenu.shortcutId) {
        modal := ModalState(true, EditKind, contextMenu.shortcutId);
      }
    }

    /** `deleteShortcut()`: closes the menu and removes the records with the
        menu's shortcut id, if it has one. */
    method DeleteShortcut()
      requires Valid()
      modifies this
      ensures Valid()
      ensures contextMenu == old(contextMenu).(visible := false)
      ensures shortcuts == if Truthy(old(contextMenu).shortcutId)
        then WithoutKey(old(shortcuts), ShortcutId, old(contextMenu).shortcutId.value) else old(shortcuts)
      ensures modal == old(modal) && theme == old(theme) && isClient == old(isClient)
    {
      CloseContextMenu();
      if Truthy(contextMenu.shortcutId) {
        WithoutKeyUnique(shortcuts, ShortcutId, contextMenu.shortcutId.value);
        shortcuts := WithoutKey(shortcuts, ShortcutId, contextMenu.shortcutId.value);
      }
    }

    /** `handleSaveShortcut(title, url, customIcon)`; `newId` is the fresh
        id the generator yields. Adding appends one record, editing rewrites
        the dialog's shortcut, and the dialog closes either way. */
    method HandleSaveShortcut(newId: string, title: string, url: string, customIcon: Option<string>)
      requires Valid()
      requires forall s :: s in shortcuts ==> s.id != newId
      modifies this
      ensures Valid()
      ensures shortcuts ==
        if old(modal).kind == AddKind then old(shortcuts) + [NewShortcut(newId, title, url, customIcon)]
        else if old(modal).kind == EditKind && Truthy(old(modal).shortcutId) then
          EditById(old(shortcuts), old(modal).shortcutId.value, title, url, customIcon)
        else old(shortcuts)
      ensures modal == ModalState(false, NoKind, None)
      ensures contextMenu == old(contextMenu) && theme == old(theme) && isClient == old(isClient)
    {
      if modal.kind == AddKind {
        shortcuts := shortcuts + [NewShortcut(newId, title, url, customIcon)];
      } else if modal.kind == EditKind && Truthy(modal.shortcutId) {
        EditByIdSpec(shortcuts, modal.shortcutId.value, title, url, customIcon);
        shortcuts := EditById(shortcuts, modal.shortcutId.value, title, url, customIcon);
      }
      modal := ModalState(false, NoKind, None);
    }

    /** `toggleTheme()`. */
    method ToggleTheme()
      modifies this
      ensures theme == Toggled(old(theme))
      ensures shortcuts == old(shortcuts) && modal == old(modal) && contextMenu == old(contextMenu) && isClient == old(isClient)
    {
      theme := if theme == "light" then "dark" else "light";
    }
  }

  /** What a successful save stores has the same ids in the same places. */
  lemma StoredKeepsIds(attempt: seq<Shortcut> -> WriteOutcome, data: seq<Shortcut>)
    requires UniqueIds(data) && SaveSpec(attempt, data).stored.Some?
    ensures UniqueIds(SaveSpec(attempt, data).stored.value)
  {
    var rep := SaveSpec(attempt, data);
    SaveSpecBounds(attempt, data);
    StripFirstNSpec(data, rep.attempts - 1);
    var w := rep.stored.value;
    assert forall i :: 0 <= i < |data| ==> w[i].id == data[i].id;
  }
}
