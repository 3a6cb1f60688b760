/**
 * The decision logic of `FileManager` (filemanager.py): the right-click menu
 * built from the configured items, the plugin chosen for a tapped menu item,
 * the extension-to-icon table, click routing, and the context-menu flag.
 *
 * Widgets are reduced to the state the manager keeps about them: the tabs
 * (their shown name and directory), the entries of the open context menu,
 * and the events the manager dispatches.
 */
module Manager {
  import opened Wrappers
  import opened PosixPath
  import ContextMenu

  // ---------------------------------------------------------------------------
  // Configured context-menu items

  /**
   * One item of `menu_right_click_items`: `list(d.items())` of its dict, so
   * the keys are distinct and in insertion order. The first pair is
   * (icon, caption); an optional `"cls"` pair names the plugin; an empty dict
   * is a separator.
   */
  datatype ConfigItem = ConfigItem(pairs: seq<(string, string)>)

  /** `item.get(key)`: the value of the pair with that key (the first, should keys repeat). */
  function Lookup(item: ConfigItem, key: string): (r: Option<string>)
    ensures r.Some? <==> exists k :: 0 <= k < |item.pairs| && item.pairs[k].0 == key
    ensures r.Some? ==> exists k :: 0 <= k < |item.pairs| && item.pairs[k] == (key, r.value)
    decreases |item.pairs|
  {
    if item.pairs == [] then None
    else if item.pairs[0].0 == key then Some(item.pairs[0].1)
    else
      var r := Lookup(ConfigItem(item.pairs[1..]), key);
      assert forall k :: 0 <= k < |item.pairs| - 1 ==> item.pairs[1..][k] == item.pairs[k + 1];
      r
  }

  /**
   * The item a tap on `text` selects in `tap_to_context_menu_item`: it is not
   * empty, `text` is its icon or its caption (membership in the first pair),
   * and it has a `"cls"` key.
   */
  predicate Qualifies(item: ConfigItem, text: string)
    ensures Qualifies(item, text) ==> exists k :: 0 <= k < |item.pairs| && item.pairs[k].0 == "cls"
  {
    item.pairs != [] && (text == item.pairs[0].0 || text == item.pairs[0].1) && Lookup(item, "cls").Some?
  }

  /** The first index from `from` on whose item qualifies for `text`. */
  function FirstQualifying(items: seq<ConfigItem>, text: string, from: nat): Option<nat>
    decreases |items| - from
  {
    if from >= |items| then None
    else if Qualifies(items[from], text) then Some(from)
    else FirstQualifying(items, text, from + 1)
  }

  /** The index of the configured item a tap on `text` invokes, if any. */
  function PluginIndex(items: seq<ConfigItem>, text: string): Option<nat>
  {
    FirstQualifying(items, text, 0)
  }

  /** The plugin name a tap on `text` invokes, if any. */
  function PluginChoice(items: seq<ConfigItem>, text: string): Option<string>
  {
    match PluginIndex(items, text)
    case Some(i) => if i < |items| then Lookup(items[i], "cls") else None
    case None => None
  }

  /** `FirstQualifying` finds exactly the first qualifying item from `from` on. */
  lemma {:induction false} FirstQualifyingIsFirst(items: seq<ConfigItem>, text: string, from: nat, i: nat)
    ensures FirstQualifying(items, text, from) == Some(i) <==>
              from <= i < |items| && Qualifies(items[i], text) &&
              forall j :: from <= j < i ==> !Qualifies(items[j], text)
    decreases |items| - from
  {
    if from < |items| && !Qualifies(items[from], text) {
      FirstQualifyingIsFirst(items, text, from + 1, i);
    }
  }

  /** `FirstQualifying` finds nothing exactly when no item from `from` on qualifies. */
  lemma {:induction false} FirstQualifyingNone(items: seq<ConfigItem>, text: string, from: nat)
    ensures FirstQualifying(items, text, from) == None <==>
              forall j :: from <= j < |items| ==> !Qualifies(items[j], text)
    decreases |items| - from
  {
    if from < |items| && !Qualifies(items[from], text) {
      FirstQualifyingNone(items, text, from + 1);
    }
  }

  /**
   * A tap invokes the first configured item whose first pair holds the
   * tapped text and that has a `"cls"` key; matching items without `"cls"`
   * are passed over.
   */
  lemma PluginIndexIsFirst(items: seq<ConfigItem>, text: string, i: nat)
    ensures PluginIndex(items, text) == Some(i) <==>
              i < |items| && Qualifies(items[i], text) && forall j :: 0 <= j < i ==> !Qualifies(items[j], text)
  {
    FirstQualifyingIsFirst(items, text, 0, i);
  }

  /** A tap invokes no plugin exactly when no item qualifies. */
  lemma PluginChoiceNone(items: seq<ConfigItem>, text: string)
    ensures PluginChoice(items, text) == None <==> forall j :: 0 <= j < |items| ==> !Qualifies(items[j], text)
  {
    FirstQualifyingNone(items, text, 0);
    if PluginIndex(items, text).Some? {
      PluginIndexIsFirst(items, text, PluginIndex(items, text).value);
    }
  }

  // ---------------------------------------------------------------------------
  // Right-click menu entries

  /** An entry of the dropdown menu: a separator, or an item with text. */
  datatype MenuEntry =
    | SeparatorEntry
    | TextEntry(icon: Option<string>, text: string, rightArrow: bool)

  /** The text of the one entry of the list-view menu. */
  const OpenInNewTab: string := "Open in new tab"

  const IconChooser: string := "FileChooserIcon"
  const ListChooser: string := "FileChooserList"

  /** A caption ending in `>` announces a submenu. */
  predicate EndsWithArrow(caption: string)
  {
    caption != [] && caption[|caption| - 1] == '>'
  }

  /** `caption[:-2]`: the caption without its last two characters. */
  function DropLastTwo(caption: string): (r: string)
    ensures r <= caption
    ensures |r| == if |caption| >= 2 then |caption| - 2 else 0
  {
    caption[..if |caption| >= 2 then |caption| - 2 else 0]
  }

  /**
   * How `get_menu_right_click` renders one configured item: an empty item
   * is a separator; a caption ending in `>` loses its last two characters and
   * gains a right arrow; any other item keeps its icon and caption.
   */
  function RenderItem(item: ConfigItem): (e: MenuEntry)
    ensures e.SeparatorEntry? <==> item.pairs == []
    ensures item.pairs != [] ==> e.icon == Some(item.pairs[0].0)
    ensures item.pairs != [] ==> (e.rightArrow <==> EndsWithArrow(item.pairs[0].1))
    ensures item.pairs != [] ==> e.text <= item.pairs[0].1
    ensures item.pairs != [] && !e.rightArrow ==> e.text == item.pairs[0].1
    ensures item.pairs != [] && e.rightArrow ==> |e.text| == |item.pairs[0].1| - 2 || (|item.pairs[0].1| < 2 && e.text == [])
  {
    if item.pairs == [] then SeparatorEntry
    else
      var (icon, caption) := item.pairs[0];
      if EndsWithArrow(caption) then TextEntry(Some(icon), DropLastTwo(caption), true)
      else TextEntry(Some(icon), caption, false)
  }

  /** The menu `get_menu_right_click` builds for a chooser type. */
  function MenuFor(items: seq<ConfigItem>, chooser: string): (r: seq<MenuEntry>)
    ensures chooser == IconChooser ==>
              |r| == |items| && forall i :: 0 <= i < |items| ==> r[i] == RenderItem(items[i])
    ensures chooser == ListChooser ==> r == [TextEntry(None, OpenInNewTab, false)]
    ensures chooser != IconChooser && chooser != ListChooser ==> r == []
  {
    if chooser == IconChooser then seq(|items|, i requires 0 <= i < |items| => RenderItem(items[i]))
    else if chooser == ListChooser then [TextEntry(None, OpenInNewTab, false)]
    else []
  }

  /**
   * Tapping the entry rendered for a plain item (no arrow) with a plugin
   * invokes that item's plugin, unless an earlier item with a plugin also
   * holds its caption.
   */
  lemma TapOnRenderedEntry(items: seq<ConfigItem>, i: nat)
    requires i < |items| && items[i].pairs != [] && !EndsWithArrow(items[i].pairs[0].1)
    requires Lookup(items[i], "cls").Some?
    requires forall j :: 0 <= j < i ==> !Qualifies(items[j], items[i].pairs[0].1)
    ensures MenuFor(items, IconChooser)[i].TextEntry?
    ensures PluginChoice(items, MenuFor(items, IconChooser)[i].text) == Lookup(items[i], "cls")
  {
    var text := MenuFor(items, IconChooser)[i].text;
    assert text == items[i].pairs[0].1;
    PluginIndexIsFirst(items, text, i);
  }

  // ---------------------------------------------------------------------------
  // Extension-to-icon table

  /** The skin table after the first `i` names of the listing of `dir`. */
  function SkinTableUpTo(dir: string, listing: seq<string>, i: nat): map<string, string>
    requires i <= |listing|
  {
    if i == 0 then map[]
    else SkinTableUpTo(dir, listing, i - 1)[Stem(listing[i - 1]) := Join(dir, listing[i - 1])]
  }

  /** The table `__init__` builds from the listing of the skin's `files` directory. */
  function SkinTable(dir: string, listing: seq<string>): map<string, string>
  {
    SkinTableUpTo(dir, listing, |listing|)
  }

  /**
   * The loop of `__init__` over `os.listdir(<skin>/files)`: each file is
   * entered under its name up to the first dot, with its full path.
   */
  method LoadSkinTable(dir: string, listing: seq<string>) returns (table: map<string, string>)
    ensures table == SkinTable(dir, listing)
    ensures forall name :: name in listing ==> Stem(name) in table
    ensures forall key :: key in table ==> exists j :: 0 <= j < |listing| && Stem(listing[j]) == key && table[key] == Join(dir, listing[j])
  {
    table := map[];
    for i := 0 to |listing|
      invariant table == SkinTableUpTo(dir, listing, i)
    {
      var nameFile := listing[i];
      table := table[Stem(nameFile) := Join(dir, nameFile)];
    }
    forall name | name in listing ensures Stem(name) in table {
      var j :| 0 <= j < |listing| && listing[j] == name;
      SkinTableLastWins(dir, listing, |listing|, j);
    }
    forall key | key in table
      ensures exists j :: 0 <= j < |listing| && Stem(listing[j]) == key && table[key] == Join(dir, listing[j])
    {
      SkinTableOrigin(dir, listing, |listing|, key);
    }
  }

  /**
   * A later file with the same stem overwrites an earlier one: the entry
   * for a stem is the path of the last file with that stem.
   */
  lemma {:induction false} SkinTableLastWins(dir: string, listing: seq<string>, i: nat, j: nat)
    requires j < i <= |listing|
    ensures Stem(listing[j]) in SkinTableUpTo(dir, listing, i)
    ensures (forall m :: j < m < i ==> Stem(listing[m]) != Stem(listing[j])) ==>
              SkinTableUpTo(dir, listing, i)[Stem(listing[j])] == Join(dir, listing[j])
  {
    if j < i - 1 {
      SkinTableLastWins(dir, listing, i - 1, j);
    }
  }

  /** Every entry of the table comes from a file of the listing with that stem. */
  lemma {:induction false} SkinTableOrigin(dir: string, listing: seq<string>, i: nat, key: string)
    requires i <= |listing| && key in SkinTableUpTo(dir, listing, i)
    ensures exists j :: 0 <= j < i && Stem(listing[j]) == key && SkinTableUpTo(dir, listing, i)[key] == Join(dir, listing[j])
  {
    if Stem(listing[i - 1]) != key {
      SkinTableOrigin(dir, listing, i - 1, key);
    }
  }

  /**
   * The table `__init__` settles on: the skin's table when a skin path is
   * set and exists and its `files` directory lists something, the bundled
   * default table otherwise.
   */
  function ExtFilesFor(pathToSkin: string, skinExists: bool, listing: seq<string>, defaults: map<string, string>): (r: map<string, string>)
    ensures pathToSkin == "" || !skinExists || listing == [] ==> r == defaults
  {
    var table := if pathToSkin != "" && skinExists then SkinTable(Join(pathToSkin, "files"), listing) else map[];
    if table == map[] then defaults else table
  }

  /** A skin that is set, exists and lists a file replaces the default table by its own. */
  lemma ExtFilesFromSkin(pathToSkin: string, listing: seq<string>, defaults: map<string, string>)
    requires pathToSkin != "" && listing != []
    ensures ExtFilesFor(pathToSkin, true, listing, defaults) == SkinTable(Join(pathToSkin, "files"), listing)
    ensures SkinTable(Join(pathToSkin, "files"), listing) != map[]
  {
    SkinTableLastWins(Join(pathToSkin, "files"), listing, |listing|, 0);
  }

  /** The key `get_icon_file` looks up: the extension with its dots removed. */
  function IconKey(path: string): string
  {
    Remove(Ext(path), '.')
  }

  /** A string without `c` is unchanged by removing `c`. */
  lemma {:induction false} RemoveAbsent(s: string, c: char)
    requires c !in s
    ensures Remove(s, c) == s
  {
    if s != [] {
      RemoveAbsent(s[1..], c);
    }
  }

  /** The icon key is the extension without its leading dot, or empty when there is none. */
  lemma IconKeyIsExtension(path: string)
    ensures IconKey(path) == if Ext(path) == [] then [] else Ext(path)[1..]
  {
    var e := Ext(path);
    if e != [] {
      RemoveAbsent(e[1..], '.');
      assert e == [e[0]] + e[1..];
    }
  }

  /** The icon `get_icon_file` gives a path, from the extension table and the skin setting. */
  function IconFile(extFiles: map<string, string>, pathToSkin: string, path: string): (r: string)
    ensures var e := Ext(path);
            var key := if e == [] then [] else e[1..];
            r == if key in extFiles then extFiles[key]
                 else if pathToSkin != "" then Join(pathToSkin, "file.png")
                 else "file-outline"
  {
    IconKeyIsExtension(path);
    var key := IconKey(path);
    if key in extFiles then extFiles[key]
    else if pathToSkin != "" then Join(pathToSkin, "file.png")
    else "file-outline"
  }

  /**
   * With a skin, a file whose extension is the stem of a skin file (the
   * last one with that stem) is shown with that skin file.
   */
  lemma IconFromSkin(pathToSkin: string, listing: seq<string>, defaults: map<string, string>, path: string, j: nat)
    requires pathToSkin != "" && j < |listing|
    requires Ext(path) != [] && Stem(listing[j]) == Ext(path)[1..]
    requires forall m :: j < m < |listing| ==> Stem(listing[m]) != Stem(listing[j])
    ensures IconFile(ExtFilesFor(pathToSkin, true, listing, defaults), pathToSkin, path)
            == Join(Join(pathToSkin, "files"), listing[j])
  {
    ExtFilesFromSkin(pathToSkin, listing, defaults);
    SkinTableLastWins(Join(pathToSkin, "files"), listing, |listing|, j);
  }

  // ---------------------------------------------------------------------------
  // The manager

  /** An open tab: the name it shows and the directory its chooser lists. */
  datatype Tab = Tab(text: string, path: string)

  /** The tab shown for a directory: labelled with the last component of its path. */
  function TabFor(path: string): Tab
  {
    Tab(Basename(path), path)
  }

  /** A second update at the same index overrides the first. */
  lemma UpdateTwice<T>(s: seq<T>, i: nat, a: T, b: T)
    requires i < |s|
    ensures s[i := a][i := b] == s[i := b]
  {
  }

  /** An event the manager dispatches itself. */
  datatype Event = TapDir(path: string) | TapFile(path: string)

  /** The parent entry of a listing. */
  const ParentEntry: string := "../"

  /** The path a tap on `entryPath` concerns: `../` stands for the parent of the shown path. */
  function TapTarget(path: string, entryPath: string): (r: string)
    ensures entryPath == ParentEntry ==> r == Dirname(path)
    ensures entryPath != ParentEntry ==> r == entryPath
  {
    if entryPath == ParentEntry then Dirname(path) else entryPath
  }

  /** A listing entry (`FileThumbEntry`): the path it stands for, which a tap on `../` rewrites. */
  class Entry {
    var path: string

    constructor (path: string)
      ensures this.path == path
    {
      this.path := path;
    }
  }

  class FileManager {
    /** `menu_right_click_items`, read from the bundled configuration. */
    const menuItems: seq<ConfigItem>
    /** `path_to_skin`; empty when no skin is set. */
    const pathToSkin: string
    /** `ext_files`: extension to icon. */
    var extFiles: map<string, string>
    /** `path`: the directory shown. */
    var path: string
    /** `context_menu_open`. */
    var contextMenuOpen: bool
    /** The open tabs, oldest first. */
    var tabs: seq<Tab>
    /** The index in `tabs` of `current_open_tab_manager`. */
    var current: nat
    /** The entries of the last context menu opened. */
    var menu: seq<MenuEntry>
    /** The events dispatched, oldest first. */
    var events: seq<Event>

    /** Once a tab is open, `current` designates one. */
    predicate Valid()
      reads this
    {
      tabs != [] ==> current < |tabs|
    }

    /**
     * `__init__`: no tab, no menu, no event yet; the icon table from the
     * skin's `files` listing, or the default table.
     */
    constructor (menuItems: seq<ConfigItem>, pathToSkin: string, skinExists: bool,
                 skinListing: seq<string>, defaults: map<string, string>, path: string)
      ensures Valid()
      ensures this.menuItems == menuItems && this.pathToSkin == pathToSkin && this.path == path
      ensures extFiles == ExtFilesFor(pathToSkin, skinExists, skinListing, defaults)
      ensures !contextMenuOpen && tabs == [] && menu == [] && events == []
    {
      this.menuItems := menuItems;
      this.pathToSkin := pathToSkin;
      this.path := path;
      contextMenuOpen := false;
      tabs := [];
      current := 0;
      menu := [];
      events := [];
      var table := map[];
      if pathToSkin != "" && skinExists {
        table := LoadSkinTable(Join(pathToSkin, "files"), skinListing);
      }
      extFiles := if table == map[] then defaults else table;
    }

    /** `get_icon_file`. */
    function GetIconFile(pathToFile: string): (r: string)
      reads this
      ensures var e := Ext(pathToFile);
              var key := if e == [] then [] else e[1..];
              key in extFiles ==> r == extFiles[key]
    {
      IconFile(extFiles, pathToSkin, pathToFile)
    }

    /**
     * `get_menu_right_click`: for the icon chooser, one entry per configured
     * item in order; for the list chooser, the single "Open in new tab"
     * entry; for anything else, nothing.
     */
    method GetMenuRightClick(chooser: string) returns (entries: seq<MenuEntry>)
      ensures chooser == IconChooser ==>
                |entries| == |menuItems| &&
                forall i :: 0 <= i < |menuItems| ==> entries[i] == RenderItem(menuItems[i])
      ensures chooser == ListChooser ==> entries == [TextEntry(None, OpenInNewTab, false)]
      ensures chooser != IconChooser && chooser != ListChooser ==> entries == []
      ensures entries == MenuFor(menuItems, chooser)
    {
      entries := [];
      if chooser == IconChooser {
        for i := 0 to |menuItems|
          invariant |entries| == i
          invariant forall k :: 0 <= k < i ==> entries[k] == RenderItem(menuItems[k])
        {
          var dataItem := menuItems[i];
          if dataItem.pairs != [] {
            var (icon, caption) := dataItem.pairs[0];
            if EndsWithArrow(caption) {
              entries := entries + [TextEntry(Some(icon), DropLastTwo(caption), true)];
            } else {
              entries := entries + [TextEntry(Some(icon), caption, false)];
            }
          } else {
            entries := entries + [SeparatorEntry];
          }
        }
      }
      if chooser == ListChooser {
        entries := entries + [TextEntry(None, OpenInNewTab, false)];
      }
    }

    /**
     * The loop of `tap_to_context_menu_item`: the plugin of the first item
     * that qualifies for the tapped text, stopping there.
     */
    method ChoosePlugin(text: string) returns (name: Option<string>)
      ensures name == PluginChoice(menuItems, text)
      ensures name.Some? ==> exists i :: 0 <= i < |menuItems| && Qualifies(menuItems[i], text) &&
                                         Lookup(menuItems[i], "cls") == name
    {
      name := None;
      var i := 0;
      while i < |menuItems|
        invariant 0 <= i <= |menuItems|
        invariant FirstQualifying(menuItems, text, i) == PluginIndex(menuItems, text)
      {
        var dataItem := menuItems[i];
        if dataItem.pairs != [] && (text == dataItem.pairs[0].0 || text == dataItem.pairs[0].1) {
          var cls := Lookup(dataItem, "cls");
          if cls.Some? {
            name := cls;
            break;
          }
        }
        i := i + 1;
      }
    }

    /** `set_path`: the manager and the current tab show `p`, labelled by its last component. */
    method SetPath(p: string)
      requires Valid() && tabs != []
      modifies this`path, this`tabs
      ensures Valid()
      ensures path == p && tabs == old(tabs)[current := TabFor(p)]
    {
      path := p;
      tabs := tabs[current := TabFor(p)];
    }

    /** `add_tab`: a new tab for `p` becomes current and the manager shows `p`. */
    method AddTab(p: string)
      modifies this`tabs, this`current, this`path
      ensures Valid()
      ensures tabs == old(tabs) + [TabFor(p)] && current == |old(tabs)| && path == p
    {
      tabs := tabs + [TabFor(p)];
      current := |tabs| - 1;
      path := p;
    }

    /** `on_open`: the first tab shows the manager's path. */
    method OnOpen()
      modifies this`tabs, this`current, this`path
      ensures Valid()
      ensures tabs == old(tabs) + [TabFor(old(path))] && current == |old(tabs)| && path == old(path)
    {
      AddTab(path);
    }

    /** `open_context_menu`: builds the menu for the chooser type and marks it open. */
    method OpenContextMenu(chooser: string)
      modifies this`menu, this`contextMenuOpen
      ensures menu == MenuFor(menuItems, chooser) && contextMenuOpen
    {
      menu := GetMenuRightClick(chooser);
      contextMenuOpen := true;
    }

    /** `context_menu_dismiss`: the menu's dismiss callback. */
    method ContextMenuDismiss()
      modifies this`contextMenuOpen
      ensures !contextMenuOpen
    {
      contextMenuOpen := false;
    }

    /**
     * `dismiss_context_menu`: while a menu is open, dismisses it, which runs
     * its dismiss callback; while none is open, does nothing.
     */
    method DismissContextMenu()
      modifies this`contextMenuOpen
      ensures !contextMenuOpen
      ensures !old(contextMenuOpen) ==> unchanged(this)
    {
      if contextMenuOpen {
        ContextMenuDismiss();
      }
    }

    /**
     * `tap_on_file_dir`: a right click on anything but `../` opens the
     * context menu and dispatches nothing; otherwise an entry `../` is
     * rewritten to the parent of the current path, a directory is shown and
     * reported with `on_tap_dir`, and a file is reported with `on_tap_file`.
     * `isDir` answers `os.path.isdir`.
     */
    method TapOnFileDir(button: string, entry: Entry, chooser: string, isDir: string -> bool)
      requires Valid() && tabs != []
      modifies this`menu, this`contextMenuOpen, this`path, this`tabs, this`events, entry`path
      ensures Valid()
      ensures entry.path == TapTarget(old(path), old(entry.path))
      ensures button == "right" && old(entry.path) != ParentEntry ==>
                contextMenuOpen && menu == MenuFor(menuItems, chooser) &&
                events == old(events) && path == old(path) && tabs == old(tabs)
      ensures !(button == "right" && old(entry.path) != ParentEntry) ==>
                menu == old(menu) && contextMenuOpen == old(contextMenuOpen) &&
                var target := TapTarget(old(path), old(entry.path));
                (isDir(target) ==> path == target && tabs == old(tabs)[current := TabFor(target)] &&
                                   events == old(events) + [TapDir(target)]) &&
                (!isDir(target) ==> path == old(path) && tabs == old(tabs) &&
                                    events == old(events) + [TapFile(target)])
    {
      if button == "right" && entry.path != ParentEntry {
        OpenContextMenu(chooser);
      } else {
        FollowEntry(entry, isDir);
      }
    }

    /**
     * The non-menu branch of `tap_on_file_dir`: an entry `../` is rewritten
     * to the parent of the current path, and the entry is then opened.
     */
    method FollowEntry(entry: Entry, isDir: string -> bool)
      requires Valid() && tabs != []
      modifies this`path, this`tabs, this`events, entry`path
      ensures Valid()
      ensures entry.path == TapTarget(old(path), old(entry.path))
      ensures isDir(entry.path) ==> path == entry.path && tabs == old(tabs)[current := TabFor(entry.path)] &&
                                    events == old(events) + [TapDir(entry.path)]
      ensures !isDir(entry.path) ==> path == old(path) && tabs == old(tabs) &&
                                     events == old(events) + [TapFile(entry.path)]
    {
      var target := TapTarget(path, entry.path);
      if entry.path == ParentEntry {
        entry.path := target;
      }
      OpenEntry(target, isDir(target));
    }

    /**
     * The non-menu branch of `tap_on_file_dir`: a directory is shown in the
     * current tab and reported with `on_tap_dir`; a file is reported with
     * `on_tap_file`.
     */
    method OpenEntry(target: string, isDir: bool)
      requires Valid() && tabs != []
      modifies this`path, this`tabs, this`events
      ensures Valid()
      ensures isDir ==> path == target && tabs == old(tabs)[current := TabFor(target)] &&
                        events == old(events) + [TapDir(target)]
      ensures !isDir ==> path == old(path) && tabs == old(tabs) && events == old(events) + [TapFile(target)]
    {
      if isDir {
        SetPath(target);
        events := events + [TapDir(target)];
      } else {
        events := events + [TapFile(target)];
      }
    }

    /**
     * `tap_to_context_menu_item`: invokes the chosen plugin, if any, through
     * a new `ContextMenuPlugin` for the entry; for "Open in new tab" it opens
     * the entry in a new tab and dismisses the menu.
     */
    method TapToContextMenuItem(text: string, entryPath: string) returns (plugin: ContextMenu.ContextMenuPlugin?)
      requires Valid()
      modifies this`tabs, this`current, this`path, this`contextMenuOpen
      ensures Valid()
      ensures plugin != null <==> PluginChoice(menuItems, text).Some?
      ensures plugin != null ==>
                fresh(plugin) && plugin.entryPath == entryPath &&
                plugin.pluginDialogs == ContextMenu.PluginDialogs &&
                plugin.trace == match ContextMenu.DialogFor(PluginChoice(menuItems, text).value)
                                case Some(kind) => [ContextMenu.OpenDialog(kind)]
                                case None => []
      ensures text == OpenInNewTab ==>
                tabs == old(tabs) + [TabFor(entryPath)] && current == |old(tabs)| && path == entryPath &&
                !contextMenuOpen
      ensures text != OpenInNewTab ==>
                tabs == old(tabs) && current == old(current) && path == old(path) &&
                contextMenuOpen == old(contextMenuOpen)
    {
      var name := ChoosePlugin(text);
      if name.Some? {
        plugin := new ContextMenu.ContextMenuPlugin(entryPath);
        plugin.Launch(name.value);
      } else {
        plugin := null;
      }
      if text == OpenInNewTab {
        AddTab(entryPath);
        DismissContextMenu();
      }
    }

    /**
     * `update_files`: shows the working directory, then the parent of
     * `entryPath`, so that the current tab lists that parent afresh.
     */
    method UpdateFiles(cwd: string, entryPath: string)
      requires Valid() && tabs != []
      modifies this`path, this`tabs
      ensures Valid()
      ensures path == Dirname(entryPath) && tabs == old(tabs)[current := TabFor(Dirname(entryPath))]
    {
      ghost var tabs0 := tabs;
      SetPath(cwd);
      var parent := Dirname(entryPath);
      SetPath(parent);
      UpdateTwice(tabs0, current, TabFor(cwd), TabFor(parent));
    }
  }
}
