/** The shortcut record shared by the grid, the editor, the page and the quota-safe store. */
module Shortcuts {
  import opened Wrappers
  import opened ListOps

  /** `{ id, title, url, customIcon? }`; `customIcon` is an inline image
      (a data URL) or absent. */
  datatype Shortcut = Shortcut(id: string, title: string, url: string, customIcon: Option<string>)

  /** `!!s.customIcon`: an icon is present and is not the empty string. */
  predicate HasCustomIcon(s: Shortcut) {
    s.customIcon.Some? && s.customIcon.value != ""
  }

  function ShortcutId(s: Shortcut): string {
    s.id
  }

  /** No two records share an id (ids come from a unique-id generator). */
  predicate UniqueIds(list: seq<Shortcut>) {
    UniqueKeys(list, ShortcutId)
  }
}
