# kivymd filemanager — a verified model of its decision logic

This project models the deterministic core of the kivymd desktop file
manager extension in Dafny and proves what that core promises:

- **Display helpers** (`libs/tools.py`, module `Tools`):
  - the unit `convert_bytes` chooses for a byte count (bytes, KB, MB, GB, TB);
  - the `rwx` access string;
  - the tree-view icon of an entry.
- **The file manager** (`filemanager.py`, module `Manager`), as the class
  `FileManager`:
  - the right-click menu built from the configured items;
  - the single plugin a tapped menu item invokes;
  - the extension-to-icon table (skin loading, default table, lookup);
  - click routing for files, directories and `../`;
  - the `context_menu_open` flag;
  - the tabs `set_path`, `add_tab` and `update_files` relabel or open.
- **Context-menu plugin dispatch** (`libs/plugins/contextmenu/__init__.py`,
  module `ContextMenu`): the class `ContextMenuPlugin` holds the closed
  four-entry table from plugin name to dialog. It records every effect it
  has on the manager and the dialogs, in order, in its `trace`.
- **The zip dialog** (`libs/plugins/contextmenu/ziparchive/__init__.py`,
  module `ZipArchive`), as the class `DialogZipArchive`:
  - which `(file_path, archive_name)` writes go into `<path>.zip`, and in
    which order;
  - the running file count and the progress value;
  - closing the archive and dismissing the dialog.

Supporting modules:

- `PosixPath` writes out the POSIX `os.path` operations the core uses:
  `split`, `basename`, `dirname`, `join`, `splitext`, `str.replace` and
  `str.split(".")[0]`. The core's naming decisions can then be stated exactly.
- `Wrappers` holds the `Option` type.

The filesystem, the toolkit and `zipfile` become inputs or recorded effects:

- `os.access` becomes the booleans of `Tools.Access`;
- `os.path.isdir` becomes a predicate parameter;
- `os.listdir` of the skin's `files` directory becomes a sequence of names;
- each `os.walk` becomes a sequence of `WalkStep`s. A step names its
  directory by its components below the archived root and lists its file
  names;
- dispatched events and `zip_file.write` calls are appended to sequences.

`convert_bytes` is modelled on exact rationals (`real`). The unit it picks
is the same as on integers, since dividing by 1024 is exact in binary
floating point at these magnitudes. The reported amount is the exact
quotient.

## Model

| member | source | states |
|---|---|---|
| Tools.ConvertBytes | kivymd_extensions/filemanager/libs/tools.py:10-16 | the result is the first unit that fits, with the amount divided by 1024 once per unit skipped; below 1024 the count is reported unscaled in "bytes" |
| Tools.UnitIndexIsFirst | kivymd_extensions/filemanager/libs/tools.py:13-15 | unit k is chosen exactly when the scaled amount is below 1024 at k and at no earlier unit, in the order bytes, KB, MB, GB, TB |
| Tools.ScaledAmountInRange | kivymd_extensions/filemanager/libs/tools.py:14-16 | past bytes, the reported amount num/1024^k lies in [1, 1024) |
| Tools.NoUnitBeyondTB | kivymd_extensions/filemanager/libs/tools.py:13-16 | nothing is returned exactly when num >= 1024^5 |
| Tools.FitsUpward | kivymd_extensions/filemanager/libs/tools.py:13-16 | an amount that fits one unit fits every larger one |
| Tools.ConvertBytesExamples | kivymd_extensions/filemanager/libs/tools.py:13-16 | 1536 bytes give 1.5 KB; 1024^4 bytes give TB |
| Tools.AccessString | kivymd_extensions/filemanager/libs/tools.py:27-34 | three characters; the string holds r, w or x exactly when that access is granted |
| Tools.GetAccessString | kivymd_extensions/filemanager/libs/tools.py:30-34 | for r, w, x in that order, the letter where the access is granted and '-' where not |
| Tools.IconForTreeview | kivymd_extensions/filemanager/libs/tools.py:37-48 | a directory gets "folder-lock" exactly when it is not readable and "folder" otherwise, whatever its extension; a file gets "language-python" exactly for ".py" and "file" otherwise |
| ContextMenu.DialogFor | kivymd_extensions/filemanager/libs/plugins/contextmenu/__init__.py:14-19 | exactly the four names rename, move_to_trash, create_zip and show_properties are recognised, each mapped to its own dialog class |
| ContextMenu.DialogForInjective | kivymd_extensions/filemanager/libs/plugins/contextmenu/__init__.py:14-19 | each recognised name maps to a dialog class of its own |
| ContextMenu.DismissEffects | kivymd_extensions/filemanager/libs/plugins/contextmenu/__init__.py:21-32 | rename, move_to_trash and create_zip refresh the entry's files, then dispatch on_context_menu with the name; show_properties and unknown names dispatch on_dismiss_plugin_dialog alone; on_dismiss_plugin_dialog always comes last, exactly once |
| ContextMenu.ContextMenuPlugin.constructor | kivymd_extensions/filemanager/libs/plugins/contextmenu/__init__.py:8-19 | the plugin holds the entry and the four-entry table, with no effect yet |
| ContextMenu.ContextMenuPlugin.Launch | kivymd_extensions/filemanager/libs/plugins/contextmenu/__init__.py:34-44 | `main`: a recognised name opens exactly one dialog, of its class; any other name does nothing |
| ContextMenu.ContextMenuPlugin.OnOpenPluginDialog | kivymd_extensions/filemanager/libs/plugins/contextmenu/__init__.py:46-49 | opening a plugin dialog dispatches on_open_plugin_dialog |
| ContextMenu.ContextMenuPlugin.DismissPluginDialog | kivymd_extensions/filemanager/libs/plugins/contextmenu/__init__.py:21-32 | dismissal appends exactly the effects DismissEffects lists |
| ContextMenu.Session | kivymd_extensions/filemanager/libs/plugins/contextmenu/__init__.py:34-49 | a whole session of a recognised plugin: dialog opened, on_open_plugin_dialog, then the dismissal effects |
| ZipArchive.FilesCount | kivymd_extensions/filemanager/libs/plugins/contextmenu/ziparchive/__init__.py:47 | the walk meets exactly as many files as count_files counts |
| ZipArchive.ArchiveWritesOnePerFile | kivymd_extensions/filemanager/libs/plugins/contextmenu/ziparchive/__init__.py:30-39 | one write per counted file; the k-th write reads the k-th file met, from its path below the archived path |
| ZipArchive.ArchiveWritesPerFile | kivymd_extensions/filemanager/libs/plugins/contextmenu/ziparchive/__init__.py:30-39 | the writes made directory by directory are exactly one write per file, in the order the walk meets the files |
| ZipArchive.LastNameIsLastFile | kivymd_extensions/filemanager/libs/plugins/contextmenu/ziparchive/__init__.py:30-35 | after packing, the label shows the name of the last file the walk meets |
| ZipArchive.ArchiveNamesUnderRoot | kivymd_extensions/filemanager/libs/plugins/contextmenu/ziparchive/__init__.py:28-38 | every entry is named basename(path), a separator, and the file's path relative to the root |
| ZipArchive.EntryNameUnderRoot | kivymd_extensions/filemanager/libs/plugins/contextmenu/ziparchive/__init__.py:36-39 | the write for one file (EntryFor) is named by the root's name, one separator and a non-empty relative path that does not start with a separator; the relative path alone when the root's name is empty |
| ZipArchive.Progress | kivymd_extensions/filemanager/libs/plugins/contextmenu/ziparchive/__init__.py:20 | the progress value is the floor of count * 100 / count_files: the largest r with r * count_files <= count * 100 |
| ZipArchive.NestedDirectoryExample | kivymd_extensions/filemanager/libs/plugins/contextmenu/ziparchive/__init__.py:26-39 | archiving /d holding a and s/b stores d/a and d/s/b |
| ZipArchive.ProgressBounds | kivymd_extensions/filemanager/libs/plugins/contextmenu/ziparchive/__init__.py:19-20 | progress lies in 0..100 while count runs up to count_files, and is 100 at the last file |
| ZipArchive.ProgressMonotone | kivymd_extensions/filemanager/libs/plugins/contextmenu/ziparchive/__init__.py:19-20 | progress never goes back as count grows |
| ZipArchive.WritesForConcat | kivymd_extensions/filemanager/libs/plugins/contextmenu/ziparchive/__init__.py:30-39 | the writes of two runs of files are the writes of each, in order |
| ZipArchive.DialogZipArchive.constructor | kivymd_extensions/filemanager/libs/plugins/contextmenu/ziparchive/__init__.py:16-17 | a fresh dialog for an entry: nothing written, not closed, not dismissed |
| ZipArchive.DialogZipArchive.SetProgressValue | kivymd_extensions/filemanager/libs/plugins/contextmenu/ziparchive/__init__.py:19-20 | the progress value is floor(count * 100 / count_files); the call fails, changing nothing, exactly when count_files is 0 |
| ZipArchive.DialogZipArchive.SetNamePackedFile | kivymd_extensions/filemanager/libs/plugins/contextmenu/ziparchive/__init__.py:22-23 | the label shows the given file name |
| ZipArchive.DialogZipArchive.OnOpen | kivymd_extensions/filemanager/libs/plugins/contextmenu/ziparchive/__init__.py:25-49 | the archive is `<path>.zip`; count_files counts the first walk; for a directory, unless the progress division fails, the returned count is the number of files packed and the label shows the last file, and progress is that count over count_files; a non-directory returns count 0; when no file is packed (a non-directory, an empty directory, or the failed division) the label and progress are left as they were; when both walks see the same number of files there is no division by zero, the archive is closed, the dialog dismissed once, and, for a non-empty directory, progress ends at 100 |
| ZipArchive.DialogZipArchive.CreateZip | kivymd_extensions/filemanager/libs/plugins/contextmenu/ziparchive/__init__.py:26-44 | a directory gets one write per file in walk order and a non-directory one write named by its last component; then close and one dismissal; with count_files 0 and files to pack, the division fails at the first file and nothing is written or closed; the label changes only when a file is packed |
| ZipArchive.DialogZipArchive.PackWalk | kivymd_extensions/filemanager/libs/plugins/contextmenu/ziparchive/__init__.py:30-39 | over the whole walk: count is the number of files, the writes are exactly the archive writes in order, the label shows the last file; with no file, or on the failed division, label and progress are unchanged |
| ZipArchive.DialogZipArchive.PackFiles | kivymd_extensions/filemanager/libs/plugins/contextmenu/ziparchive/__init__.py:32-39 | within one directory, count goes up by one per file, and each file is counted, shown, then written; the failed division happens before any label change |
| PosixPath.SplitParts | kivymd_extensions/filemanager/filemanager.py:466 | `os.path.split` (Split, Basename, Dirname): the tail is everything after the last separator, or the whole path when there is none; the head is what precedes it with trailing separators removed unless it is separators only, and it is empty exactly when the path has no separator |
| PosixPath.Join | kivymd_extensions/filemanager/filemanager.py:449-451 | `os.path.join`: a component starting with a separator replaces the base, and an empty base gives the component |
| PosixPath.JoinParts | kivymd_extensions/filemanager/filemanager.py:449-451 | below a non-empty base, a relative component follows the base after exactly one separator, added only when the base does not end in one |
| PosixPath.Stem | kivymd_extensions/filemanager/filemanager.py:449 | the skin key is the longest prefix of the file name without a dot |
| PosixPath.Ext | kivymd_extensions/filemanager/filemanager.py:677 | the extension is empty or a dot followed by dot-free text that ends the last path component; it is non-empty exactly when the last component has a dot preceded by a character other than a dot |
| Manager.Lookup | kivymd_extensions/filemanager/filemanager.py:601-603 | a value is found exactly when some pair has the key, and it is that pair's value |
| Manager.PluginIndexIsFirst | kivymd_extensions/filemanager/filemanager.py:596-605 | a tap selects the first item whose first pair holds the tapped text and that has "cls"; matching items without "cls" do not stop the scan |
| Manager.PluginChoiceNone | kivymd_extensions/filemanager/filemanager.py:596-605 | no plugin is invoked exactly when no item qualifies |
| Manager.Qualifies | kivymd_extensions/filemanager/filemanager.py:597-601 | an item is selected by a tap only if it is not empty, the text is in its first pair, and it has a "cls" key |
| Manager.MenuFor | kivymd_extensions/filemanager/filemanager.py:623-671 | icon chooser: one rendered entry per configured item, in order; list chooser: exactly "Open in new tab"; any other chooser: no entry |
| Manager.RenderItem | kivymd_extensions/filemanager/filemanager.py:629-659 | an empty item is a separator; a caption ending in ">" loses its last two characters and gets a right arrow; any other item keeps its icon and caption |
| Manager.DropLastTwo | kivymd_extensions/filemanager/filemanager.py:637 | a prefix of the caption, two characters shorter, or empty when it is shorter than two |
| Manager.TapOnRenderedEntry | kivymd_extensions/filemanager/filemanager.py:596-605 | tapping the entry shown for a plain item with "cls" invokes that item's plugin unless an earlier item with "cls" holds the same caption |
| Manager.LoadSkinTable | kivymd_extensions/filemanager/filemanager.py:446-451 | every listed file's stem is a key, and every key maps to the full path of a listed file with that stem |
| Manager.SkinTableLastWins | kivymd_extensions/filemanager/filemanager.py:448-451 | a later file with the same stem overwrites an earlier one |
| Manager.SkinTableOrigin | kivymd_extensions/filemanager/filemanager.py:448-451 | each table entry comes from a listed file with that stem |
| Manager.ExtFilesFor | kivymd_extensions/filemanager/filemanager.py:446-459 | without a set, existing skin, or when its files directory lists nothing, the default table is used |
| Manager.ExtFilesFromSkin | kivymd_extensions/filemanager/filemanager.py:446-459 | with a set, existing skin whose files directory lists something, the skin table is non-empty and is used |
| Manager.IconKeyIsExtension | kivymd_extensions/filemanager/filemanager.py:677 | the lookup key is the extension without its leading dot, or empty when there is none |
| Manager.IconFile | kivymd_extensions/filemanager/filemanager.py:673-681 | the table entry for the extension without its dot; when absent, `<skin>/file.png` with a skin, "file-outline" without |
| Manager.IconFromSkin | kivymd_extensions/filemanager/filemanager.py:673-681 | with a skin, a file is shown with the last skin file whose stem is its extension |
| Manager.FileManager.constructor | kivymd_extensions/filemanager/filemanager.py:436-459 | no tab, no menu, no event; the icon table chosen by ExtFilesFor |
| Manager.FileManager.GetIconFile | kivymd_extensions/filemanager/filemanager.py:673-681 | an extension in the table gets that table entry |
| Manager.FileManager.GetMenuRightClick | kivymd_extensions/filemanager/filemanager.py:623-671 | icon chooser: one rendered entry per configured item, in order; list chooser: exactly "Open in new tab"; any other chooser: no entry |
| Manager.FileManager.ChoosePlugin | kivymd_extensions/filemanager/filemanager.py:596-605 | the scan returns the "cls" of an item that qualifies for the text, namely PluginChoice's, or none |
| Manager.FileManager.SetPath | kivymd_extensions/filemanager/filemanager.py:461-467 | the path is stored and the current tab shows it, labelled with its last component |
| Manager.FileManager.AddTab | kivymd_extensions/filemanager/filemanager.py:479-491 | a new tab for the path, labelled with its last component, is appended and becomes current; the path is stored |
| Manager.FileManager.OnOpen | kivymd_extensions/filemanager/filemanager.py:707-711 | a tab showing the manager's path is appended and becomes current |
| Manager.FileManager.OpenContextMenu | kivymd_extensions/filemanager/filemanager.py:535-552 | the menu holds the entries for the chooser and the flag is set |
| Manager.FileManager.ContextMenuDismiss | kivymd_extensions/filemanager/filemanager.py:618-621 | the flag is cleared |
| Manager.FileManager.DismissContextMenu | kivymd_extensions/filemanager/filemanager.py:611-616 | the flag ends cleared; with no menu open nothing changes |
| Manager.FileManager.TapOnFileDir | kivymd_extensions/filemanager/filemanager.py:554-577 | a right click on anything but "../" opens the menu and dispatches nothing; otherwise an entry "../" is rewritten in place to the parent of the current path, a directory is shown and dispatches on_tap_dir, a file dispatches on_tap_file |
| Manager.FileManager.FollowEntry | kivymd_extensions/filemanager/filemanager.py:565-577 | the entry ends holding its target (the parent for "../"); a directory target is shown and reported with on_tap_dir, a file target only reported with on_tap_file |
| Manager.TapTarget | kivymd_extensions/filemanager/filemanager.py:566-567 | "../" stands for the parent of the shown path; any other entry for its own path |
| Manager.FileManager.OpenEntry | kivymd_extensions/filemanager/filemanager.py:573-577 | a directory is shown in the current tab and reported with on_tap_dir; a file is only reported with on_tap_file |
| Manager.FileManager.TapToContextMenuItem | kivymd_extensions/filemanager/filemanager.py:579-609 | a plugin object for the entry is made exactly when some item qualifies, and it opens that item's dialog; the plugin holds the four-entry dialog table, so its dialog can be dismissed; "Open in new tab" opens the entry in a new tab, which becomes current, and dismisses the menu; any other text leaves the tabs and the flag alone |
| Manager.FileManager.UpdateFiles | kivymd_extensions/filemanager/filemanager.py:683-687 | the current tab ends showing the parent of the entry's path |

## Left out

- Float formatting: `convert_bytes` returns `"%3.1f %s"` text; the model returns the pair (amount, unit).
- ZipArchive.Progress: computed exactly as floor(count * 100 / count_files). The source computes `int(count / count_files * 100)` in binary floating point, which can come out one lower (29 of 100 files gives 28.999…, shown as 28).
- `asynckivy` cooperative yielding: the packing coroutine is modelled as running to its end in one call.
- `zipfile` compression: the archive is modelled as the sequence of writes made into it.
- ZipArchive.DialogZipArchive.OnOpen: creating `<path>.zip` and every `zip_file.write` are taken to succeed. In the source, an archive that cannot be created, or a file that is unreadable or gone by the second walk, raises; the coroutine then ends with the archive unclosed and the dialog not dismissed. The only failure modelled is the division by a zero `count_files`.
- The file system (`os.walk`, `os.listdir`, `os.path.isdir`, `os.path.exists`, `os.access`, `os.getcwd`) is supplied as inputs.
- `os.path.relpath`: the walk supplies each directory's components below the root, and relpath is their join. Symbolic links and `..` components are not modelled.
- Widgets, layout strings, theming, `MDTabs`, `MDDropdownMenu` and the tab markup of `get_formatting_text_for_tab`: UI rendering. A tab is modelled by its plain label (the last path component) and its path.
- `switch_tab` in `add_tab`, `remove_tab`, `_on_tab_switch` and `create_header_menu`: toolkit widget handling.
- The touch position test and `entry_touched` in `tap_on_file_dir`: input handling inside the toolkit.
- `call_context_menu_plugin`'s dynamic import: replaced by a direct construction of `ContextMenuPlugin`.
- Manager.FileManager.constructor: takes the skin's `files` directory to be listable. When `path_to_skin` exists without it, `os.listdir` raises and `__init__` fails; the model always builds a table.
- Manager.FileManager.DismissContextMenu: takes an open menu to be found among the window's children and its dismissal to run `context_menu_dismiss`. The window's widget list is not modelled.
- The effects of a plugin on the manager (`update_files` and the dispatches) are recorded in the plugin's trace rather than applied. `on_open_plugin_dialog` and `on_dismiss_plugin_dialog` are not among the four event types the manager registers (filemanager.py:441-444); what the toolkit does with them is not modelled.
- The dialogs' own work (renaming, moving to the trash, the properties view): file system calls and UI.
- `file_size`, `get_home_directory` and `get_drives`: operating-system probing.
- `file_chooser_icon.py`: a touch and scroll override of the toolkit's file chooser.
- The threaded filename search: it is not in the modules modelled here.
