# File-chooser portal handshake

This project models the file-chooser portal of the file manager, in
`src/nautilus-portal.c`. The portal is a D-Bus service that answers the
`OpenFile`, `SaveFile` and `SaveFiles` calls of the xdg-desktop-portal
`org.freedesktop.impl.portal.FileChooser` interface by opening a chooser
window. One call creates a `FileChooserData` record. The record is ended by
exactly one of two triggers:

- the window's `close-request`, which answers with response 1 (user cancelled);
- the caller's `Close` on the request object (`handle-close`), which answers
  with response 2 (other) and then acknowledges the Close.

Response codes are those of the Response signal of
`org.freedesktop.portal.Request`: 0 success, 1 user cancelled, 2 other.

The model has three modules:

- `PortalOptions` (`portal_options.dfy`): the pure option resolution of
  `handle_open_file`. It covers the `modal`, `multiple`, `accept_label` and
  `current_folder` lookups with their defaults, and the default accept label.
- `PortalProtocol` (`portal_protocol.dfy`): a pure reference for the
  handshake. Every call the code makes to D-Bus or GTK is an `Event`.
  `OpenEvents` is what `handle_open_file` does. `CompletionEvents` is what
  `complete_file_chooser` does. `Reaction` is what one trigger does to a
  pending or a freed record, and `Run` folds `Reaction` over a sequence of
  triggers. The exactly-once, ordering and "never success" lemmas are stated
  over `Run`.
- `Portal` (`portal.dfy`): the imperative part. `FileChooserData` is a class
  whose fields are the record's fields: the invocation, the request, the
  external parent and the weak window reference. It also holds one flag per
  connected handler, a freed flag and the log of calls made. Its methods are
  the steps of `handle_open_file`, `complete_file_chooser`,
  `file_chooser_data_free` and the two handlers. Each method's `ensures`
  says how it extends the log, in terms of the `PortalProtocol` functions.
  `NautilusPortal` holds the skeleton's export state and the handlers
  connected by `nautilus_portal_register`.

Foreign results are parameters of the model: the home directory, the
outcome of `create_external_window_from_handle`, the window that
`nautilus_file_chooser_new` returns, and the outcome of exporting the
skeleton.

Facts of the code that the model keeps:

- Parent resolution is attempted for any parent handle that is not NULL,
  even an empty one.
- The default label is "_Save" for every method other than `OpenFile`.
- The handlers are disconnected when the record is freed, after completion.
  Exactly-once completion still holds because the main loop is
  single-threaded (`ExactlyOnce`, `DeliverTwoTriggers`).
- Completion is chosen by method name, so no method is answered by another
  method's completion (`CompletionFor`).
- The `current_folder` option is read as g_variant_get_bytestring reads it.
  A byte array that ends in NUL gives the bytes before its first NUL. Any
  other byte array gives the empty path (`BytestringPath`).

## Model

| member | source | states |
|---|---|---|
| PortalOptions.UpToNul | src/nautilus-portal.c:183-187 | the path read from the byte string is its longest NUL-free prefix: it contains no NUL and is followed by a NUL or the end of the bytes |
| PortalOptions.BytestringPath | src/nautilus-portal.c:183-187 | a byte array ending in NUL gives the bytes before its first NUL; one that does not end in NUL gives the empty path |
| PortalOptions.BytestringRoundTrip | src/nautilus-portal.c:183-187 | a NUL-free path sent with its terminator comes back unchanged |
| PortalOptions.DefaultAcceptLabel | src/nautilus-portal.c:161-171 | the default label is "_Open" exactly for OpenFile with multiple, "_Select" exactly for OpenFile without it, and "_Save" exactly for every other method |
| PortalOptions.ResolveOptions | src/nautilus-portal.c:147-187 | modal defaults to true and multiple to false, and a well-typed entry overrides each; an explicit accept_label always wins, otherwise the method's default applies; the starting location is the path read from a byte-string current_folder when given, otherwise the home directory |
| PortalOptions.EmptyOptionsDefaults | src/nautilus-portal.c:147-148 | with no options the settings are modal, not multiple, the method's default label and the home directory |
| PortalProtocol.CompletionFor | src/nautilus-portal.c:79-103 | the completion chosen for a method name is exactly the one that answers that method, so methods are never cross-answered; only OpenFile, SaveFile and SaveFiles have one, and any other name is the assertion branch |
| PortalProtocol.OpenEvents | src/nautilus-portal.c:173-212 | opening ends by presenting the window and then exporting the request |
| PortalProtocol.OpenEventsCases | src/nautilus-portal.c:173-212 | the calls made on opening, for each combination of parent given or not and resolved or not |
| PortalProtocol.OpenExportsOnce | src/nautilus-portal.c:200-214 | opening presents the window even when the parent could not be resolved, exports the request exactly once, and sends no response, unexport or destroy |
| PortalProtocol.OpenParentHandling | src/nautilus-portal.c:173-208 | a warning is logged exactly when a given parent handle fails to resolve; the window is parented, and modal is applied from the options, exactly when a parent was resolved |
| PortalProtocol.OpenRealizesBeforeParenting | src/nautilus-portal.c:200-208 | parenting and the modal flag come only after the window has been realized |
| PortalProtocol.OpenConfiguresWindow | src/nautilus-portal.c:189-193 | the created window gets the resolved starting location and accept label and the caller's title |
| PortalProtocol.CompletionEvents | src/nautilus-portal.c:70-108 | completion sends the response with an empty results dictionary through the completion matching the method, then unexports the request, then destroys the window |
| PortalProtocol.ResponseFor | src/nautilus-portal.c:110-130 | a window close answers "user cancelled" and a caller Close answers "other"; neither answers success |
| PortalProtocol.Reaction | src/nautilus-portal.c:110-130 | a freed record makes no call; a pending one completes with the trigger's response code, then unexports and destroys, and only a Close is acknowledged, last |
| PortalProtocol.Run | src/nautilus-portal.c:48-130 | over any sequence of triggers, only the first has an effect, because it frees the record; with no trigger nothing happens |
| PortalProtocol.FirstTriggerWins | src/nautilus-portal.c:110-130 | the first trigger alone decides the outcome: response with its code, then unexport, then destroy, and for a Close the acknowledgement last |
| PortalProtocol.ExactlyOnce | src/nautilus-portal.c:48-130 | for any sequence of triggers there is exactly one response, one unexport and one destroy once a trigger arrives and none before; the Close is acknowledged only when it came first |
| PortalProtocol.NeverSuccess | src/nautilus-portal.c:110-130 | no path of the handshake sends response 0 (success) |
| Portal.FileChooserData.constructor | src/nautilus-portal.c:143-156 | the new record holds the invocation and the call's request, with the handle-close handler connected and nothing else set |
| Portal.FileChooserData.ResolveParent | src/nautilus-portal.c:173-181 | with a parent handle, the external parent becomes the resolution's outcome, and a failure only logs a warning |
| Portal.FileChooserData.OpenWindow | src/nautilus-portal.c:189-198 | the window is created and configured, weakly referenced, and its close-request handler is connected |
| Portal.FileChooserData.RealizeAndParent | src/nautilus-portal.c:200-208 | the window is realized, then parented and given the modal flag only if a parent was resolved |
| Portal.FileChooserData.PresentAndExport | src/nautilus-portal.c:210-212 | the window is presented, then the request is exported |
| Portal.FileChooserData.Complete | src/nautilus-portal.c:70-108 | the log grows by exactly the completion events of the record's session: response, unexport, destroy |
| Portal.FileChooserData.Free | src/nautilus-portal.c:48-67 | both handlers are disconnected; request, external parent and window reference are cleared; the log is unchanged |
| Portal.FileChooserData.OnWindowClose | src/nautilus-portal.c:110-116 | the window-close handler completes with "user cancelled" and leaves the record freed |
| Portal.FileChooserData.OnHandleClose | src/nautilus-portal.c:118-130 | the Close handler completes with "other", then acknowledges the Close, reports it handled, and leaves the record freed |
| Portal.FileChooserData.EmitCloseRequest | src/nautilus-portal.c:110-116 | a close-request reaches the record only while it is pending; after it is freed the log is unchanged |
| Portal.FileChooserData.EmitHandleClose | src/nautilus-portal.c:118-130 | a Close is handled only while the record is pending; after it is freed it is not handled and the log is unchanged |
| Portal.HandleOpenFile | src/nautilus-portal.c:132-215 | the call leaves a pending, fully wired record whose parent is the resolved one, whose log is the opening calls, and reports the call handled |
| Portal.Deliver | src/nautilus-portal.c:110-130 | delivering a trigger extends the log by that trigger's reaction and leaves the record freed |
| Portal.DeliverTwoTriggers | src/nautilus-portal.c:48-130 | two triggers back to back, in either order, give exactly one response, one unexport and one destroy, all from the first trigger |
| Portal.PortalRoutes | src/nautilus-portal.c:261-266 | all three methods reach handle_open_file, and exactly the methods that reach it have a matching completion |
| Portal.NautilusPortal.constructor | src/nautilus-portal.c:236-246 | a new portal is not exported and has no handlers connected |
| Portal.NautilusPortal.Register | src/nautilus-portal.c:248-269 | if the skeleton export fails, nothing changes and false is returned; otherwise the skeleton is exported, the three handlers are connected, and true is returned |
| Portal.NautilusPortal.Unregister | src/nautilus-portal.c:271-275 | the skeleton is no longer exported |

## Left out

- D-Bus transport: the skeleton's export and unexport, and the internals of `request_new`, `request_export`, `request_unexport`, the completion calls and `xdp_impl_request_complete_close`. They are events in the log, and the export outcome is an input.
- Dispatch from a D-Bus method name to its `handle-*` signal is done by code that gdbus-codegen generates. That code is not part of this model. `Portal.SignalOf` states the usual naming.
- GTK: the window widget, `gtk_widget_realize`, `gtk_window_present`, `gtk_window_set_title`, native surfaces, `create_external_window_from_handle` and `external_window_set_parent_of`. These calls are events, and the parent resolution is an input.
- `g_get_home_dir` is an input. `g_file_new_for_path` is left out, so the starting location is kept as its path.
- Translation of the labels by gettext: the model uses the literal strings.
- A success path carrying the selected files: the code has none.
- ResolveOptions: an a{sv} dictionary may repeat a key, and g_variant_lookup then takes the first entry. The model's dictionary is a map with one value per key, so repeated keys are not represented.
- Portal.FileChooserData.Free: the weak window reference is cleared explicitly. GTK may also clear it earlier, when the destroyed window is finalized. Either way, no close-request handler of a freed record remains.
- Portal.FileChooserData.EmitHandleClose: after the request is unexported, a real Close can no longer reach it. The model only states that the freed record no longer handles one.
- `on_window_close_request` is connected to a signal that expects a boolean return value, but the function returns nothing. That return value is not modelled.
- `data->self`, the back-pointer to the portal whose skeleton completes the call, is not modelled. There is only one portal.
- Each record has its own log. Events interleaved across several concurrent requests are not modelled.
- `nautilus_portal_dispose`, `class_init` and `init` are GObject boilerplate. A repeated `Register` connects handlers twice in GLib, but the model's map of connected handlers records each signal once.
- `src/gtk/nautilusgtkplacesview.c` is not part of this model. Its recent-servers list is file I/O over `GBookmarkFile`, with a file monitor, and its other code is widget glue.
- `src/nautilus-file-chooser.c` is not part of this model. It is template binding and slot/sidebar glue. Its setters appear only as the `StartingLocationSet` and `AcceptLabelSet` events.
- `src/nautilus-file-chooser.h` and `src/nautilus-recent-servers.h` hold declarations only.
