/**
 * Context-menu plugin dispatch (libs/plugins/contextmenu/__init__.py): a
 * closed table from plugin name to dialog, the dialog opened for a name, and
 * what happens when a dialog opens and when it is dismissed.
 *
 * The plugin acts only through side effects on the file manager and the
 * dialogs; the model records each of them, in order, in the plugin's trace.
 */
module ContextMenu {
  import opened Wrappers

  /** The dialog classes a plugin name can open. */
  datatype DialogKind = RenameDialog | MoveToTrashDialog | ZipArchiveDialog | PropertiesDialog

  /** One side effect of the plugin, in the order it happens. */
  datatype Effect =
    | OpenDialog(kind: DialogKind)     // a dialog of that class is built and opened
    | UpdateFiles(path: string)        // `instance_manager.update_files(..., path)`
    | ContextMenuEvent(name: string)   // `on_context_menu` dispatched with the plugin name
    | OpenPluginDialogEvent            // `on_open_plugin_dialog` dispatched
    | DismissPluginDialogEvent         // `on_dismiss_plugin_dialog` dispatched

  /** The `plugin_dialogs` table built by `ContextMenuPlugin.__init__`. */
  const PluginDialogs: map<string, DialogKind> := map[
    "rename" := RenameDialog,
    "move_to_trash" := MoveToTrashDialog,
    "create_zip" := ZipArchiveDialog,
    "show_properties" := PropertiesDialog
  ]

  /** The plugins whose dismissal refreshes the listing and reports the action. */
  const RefreshingPlugins: set<string> := {"rename", "move_to_trash", "create_zip"}

  /** The dialog a plugin name opens, if the name is recognised. */
  function DialogFor(name: string): (d: Option<DialogKind>)
    ensures d.Some? <==> name in {"rename", "move_to_trash", "create_zip", "show_properties"}
    ensures d == Some(PropertiesDialog) <==> name == "show_properties"
    ensures d == Some(ZipArchiveDialog) <==> name == "create_zip"
    ensures d == Some(RenameDialog) <==> name == "rename"
    ensures d == Some(MoveToTrashDialog) <==> name == "move_to_trash"
  {
    if name in PluginDialogs then Some(PluginDialogs[name]) else None
  }

  /** Each recognised name opens a dialog of its own: the table is one-to-one. */
  lemma DialogForInjective(a: string, b: string)
    requires DialogFor(a).Some? && DialogFor(a) == DialogFor(b)
    ensures a == b
  {
  }

  /**
   * What `dismiss_plugin_dialog` does for `name`: for rename, move-to-trash
   * and zip it refreshes the files of the entry's path and then reports the
   * action; for properties (or an unknown name) it does neither. In every
   * case it ends by dispatching `on_dismiss_plugin_dialog`, exactly once.
   */
  function DismissEffects(name: string, entryPath: string): (effects: seq<Effect>)
    ensures |effects| >= 1 && effects[|effects| - 1] == DismissPluginDialogEvent
    ensures forall i :: 0 <= i < |effects| - 1 ==> effects[i] != DismissPluginDialogEvent
    ensures ContextMenuEvent(name) in effects <==> name in RefreshingPlugins
    ensures UpdateFiles(entryPath) in effects <==> name in RefreshingPlugins
    ensures name in RefreshingPlugins ==>
              effects == [UpdateFiles(entryPath), ContextMenuEvent(name), DismissPluginDialogEvent]
    ensures name !in RefreshingPlugins ==> effects == [DismissPluginDialogEvent]
  {
    (if name in PluginDialogs && name != "show_properties"
     then [UpdateFiles(entryPath), ContextMenuEvent(name)]
     else [])
    + [DismissPluginDialogEvent]
  }

  /** A `ContextMenuPlugin` for one right-clicked entry. */
  class ContextMenuPlugin {
    /** The path of the entry the menu was opened on. */
    const entryPath: string
    /** `plugin_dialogs`: plugin name to dialog class. */
    const pluginDialogs: map<string, DialogKind>
    /** Every side effect so far, oldest first. */
    var trace: seq<Effect>

    constructor (entryPath: string)
      ensures this.entryPath == entryPath
      ensures pluginDialogs == PluginDialogs
      ensures trace == []
    {
      this.entryPath := entryPath;
      pluginDialogs := PluginDialogs;
      trace := [];
    }

    /** The plugin's `main` entry point: opens the one dialog of a recognised name; any other name does nothing. */
    method Launch(name: string)
      requires pluginDialogs == PluginDialogs
      modifies this`trace
      ensures trace == old(trace) + match DialogFor(name)
                                    case Some(kind) => [OpenDialog(kind)]
                                    case None => []
    {
      if name in pluginDialogs {
        trace := trace + [OpenDialog(pluginDialogs[name])];
      }
    }

    /** `_on_open_plugin_dialog`: the open callback of every plugin dialog. */
    method OnOpenPluginDialog()
      modifies this`trace
      ensures trace == old(trace) + [OpenPluginDialogEvent]
    {
      trace := trace + [OpenPluginDialogEvent];
    }

    /** `dismiss_plugin_dialog`: the dismiss callback of the dialog opened for `name`. */
    method DismissPluginDialog(name: string)
      requires pluginDialogs == PluginDialogs
      modifies this`trace
      ensures trace == old(trace) + DismissEffects(name, entryPath)
    {
      if name in pluginDialogs && name != "show_properties" {
        trace := trace + [UpdateFiles(entryPath)];
        trace := trace + [ContextMenuEvent(name)];
      }
      trace := trace + [DismissPluginDialogEvent];
    }
  }

  /**
   * A full plugin session: `main` opens the dialog of a recognised name, the
   * dialog's open callback fires, and its dismissal follows. The trace is the
   * opening, then `on_open_plugin_dialog`, then the dismissal effects.
   */
  method Session(entryPath: string, name: string) returns (plugin: ContextMenuPlugin)
    requires DialogFor(name).Some?
    ensures fresh(plugin) && plugin.entryPath == entryPath
    ensures plugin.trace == [OpenDialog(DialogFor(name).value), OpenPluginDialogEvent] + DismissEffects(name, entryPath)
  {
    plugin := new ContextMenuPlugin(entryPath);
    plugin.Launch(name);
    plugin.OnOpenPluginDialog();
    plugin.DismissPluginDialog(name);
  }
}
