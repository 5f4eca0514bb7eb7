/** The stateful half of src/nautilus-portal.c: the per-call FileChooserData
    record, the handler that creates it (handle_open_file), the completion
    routine, the two trigger handlers, the routine that frees it, and the
    registration of the handler on the portal skeleton. Calls into D-Bus and
    GTK are appended to the record's event log. */
module Portal {
  import opened PortalOptions
  import opened PortalProtocol

  /** FileChooserData: what one pending OpenFile / SaveFile / SaveFiles call
      holds. `window` is a weak reference; the two flags say whether the
      record's "handle-close" handler is connected on the request and its
      "close-request" handler on the window; `freed` says the record has been
      released. */
  class FileChooserData {
    const invocation: Invocation
    var request: Option<Request>
    var externalParent: Option<ExternalWindow>
    var window: Option<Window>
    var handleCloseConnected: bool
    var closeRequestConnected: bool
    var freed: bool
    var log: seq<Event>
    /** The request and window of this call, kept after they are cleared. */
    ghost var session: Session

    /** Handlers are connected only on objects the record still references. */
    ghost predicate Wired()
      reads this
    {
      (handleCloseConnected ==> request.Some?) && (closeRequestConnected ==> window.Some?)
    }

    /** A pending record is fully wired to its request and window; a freed one
        references nothing and has no handler connected anywhere. */
    ghost predicate Valid()
      reads this
    {
      CompletionFor(invocation.methodName).Some? &&
      session.invocation == invocation &&
      if freed then
        request.None? && externalParent.None? && window.None? &&
        !handleCloseConnected && !closeRequestConnected
      else
        handleCloseConnected && closeRequestConnected &&
        request == Some(session.request) && window == Some(session.window)
    }

    predicate Pending()
      reads this
    {
      !freed
    }

    /** The first step of handle_open_file: allocate the record (g_new0),
        keep the invocation, create the request for the call and connect the
        record's handle-close handler on it. */
    constructor (invocation: Invocation, request: Request)
      ensures this.invocation == invocation && this.request == Some(request)
      ensures handleCloseConnected && !closeRequestConnected && !freed
      ensures externalParent.None? && window.None? && log == []
    {
      this.invocation := invocation;
      this.request := Some(request);
      handleCloseConnected := true;
      externalParent, window := None, None;
      closeRequestConnected, freed := false, false;
      log := [];
    }

    /** The parent step of handle_open_file: a given parent handle is
        resolved (the outcome `resolved` is an input); a failure only logs a
        warning. */
    method ResolveParent(parentWindow: Option<string>, resolved: Option<ExternalWindow>)
      modifies this`externalParent, this`log
      ensures parentWindow.Some? ==> externalParent == resolved
      ensures parentWindow.None? ==> externalParent == old(externalParent)
      ensures log == old(log) + ParentResolutionEvents(parentWindow, resolved)
    {
      if parentWindow.Some? {
        externalParent := resolved;
        if externalParent.None? {
          log := log + [ParentWarning(parentWindow.value)];
        }
      }
    }

    /** Create the chooser window, give it the starting location, accept
        label and title, keep a weak reference to it and connect the record's
        close-request handler on it. */
    method OpenWindow(newWindow: Window, settings: ChooserSettings, title: string)
      modifies this`window, this`closeRequestConnected, this`log
      ensures window == Some(newWindow) && closeRequestConnected
      ensures log == old(log) + WindowSetupEvents(newWindow, settings, title)
    {
      log := log + [WindowCreated(newWindow), StartingLocationSet(settings.startingLocation),
                    AcceptLabelSet(settings.acceptLabel), TitleSet(title)];
      window := Some(newWindow);
      closeRequestConnected := true;
    }

    /** Realize the window, then, only if a parent was resolved, make its
        surface a child of that parent and apply `modal`. */
    method RealizeAndParent(modal: bool)
      requires window.Some?
      modifies this`log
      ensures log == old(log) + RealizeEvents(window.value, externalParent, modal)
    {
      log := log + [Realized(window.value)];
      if externalParent.Some? {
        log := log + [ParentSet(externalParent.value, window.value), ModalSet(modal)];
      }
    }

    /** Present the window, then export the request on the caller's
        connection. */
    method PresentAndExport()
      requires window.Some? && request.Some?
      modifies this`log
      ensures log == old(log) + PresentEvents(window.value, request.value)
    {
      log := log + [Presented(window.value)];
      log := log + [Exported(request.value)];
    }

    /** complete_file_chooser: answer through the completion that matches the
        invocation's method, with an empty results dictionary, then unexport
        the request, then destroy the window. */
    method Complete(response: int)
      requires Valid() && Pending()
      modifies this`log
      ensures log == old(log) + CompletionEvents(session, response)
    {
      var methodName := invocation.methodName;
      if methodName == "OpenFile" {
        log := log + [Responded(CompleteOpenFile, invocation, response, map[])];
      } else if methodName == "SaveFile" {
        log := log + [Responded(CompleteSaveFile, invocation, response, map[])];
      } else if methodName == "SaveFiles" {
        log := log + [Responded(CompleteSaveFiles, invocation, response, map[])];
      } else {
        assert false;  // g_assert_not_reached
      }
      log := log + [Unexported(request.value)];
      log := log + [Destroyed(window.value)];
    }

    /** file_chooser_data_free: disconnect the record's handlers from the
        request and the window, drop the request and the external parent,
        clear the weak window reference and release the record. */
    method Free()
      requires Wired() && !freed
      modifies this
      ensures freed && request.None? && externalParent.None? && window.None?
      ensures !handleCloseConnected && !closeRequestConnected
      ensures session == old(session) && log == old(log)
    {
      if request.Some? {
        handleCloseConnected := false;
      }
      request := None;
      externalParent := None;
      if window.Some? {
        closeRequestConnected := false;
      }
      window := None;
      freed := true;
    }

    /** on_window_close_request: the user closed the window; complete with
        "user cancelled" and free the record. */
    method OnWindowClose()
      requires Valid() && closeRequestConnected
      modifies this
      ensures Valid() && !Pending() && session == old(session)
      ensures log == old(log) + Reaction(true, session, WindowCloseRequest)
    {
      Complete(ResponseUserCancelled);
      Free();
    }

    /** handle_close: the caller closed the request; complete with "other",
        acknowledge the Close, report it handled, and free the record when the
        handler returns. */
    method OnHandleClose(closeInvocation: Invocation) returns (handled: bool)
      requires Valid() && handleCloseConnected
      modifies this
      ensures Valid() && !Pending() && session == old(session)
      ensures log == old(log) + Reaction(true, session, HandleClose(closeInvocation))
      ensures handled
    {
      Complete(ResponseOther);
      log := log + [CloseAcknowledged(closeInvocation)];
      handled := true;
      Free();
    }

    /** The window emits close-request: the record's handler runs only while
        it is connected, so after the record is freed this is a no-op. */
    method EmitCloseRequest()
      requires Valid()
      modifies this
      ensures Valid() && !Pending() && session == old(session)
      ensures log == old(log) + Reaction(old(Pending()), session, WindowCloseRequest)
    {
      if closeRequestConnected {
        OnWindowClose();
      }
    }

    /** The request emits handle-close for a Close call: handled only while the
        record's handler is connected. */
    method EmitHandleClose(closeInvocation: Invocation) returns (handled: bool)
      requires Valid()
      modifies this
      ensures Valid() && !Pending() && session == old(session)
      ensures log == old(log) + Reaction(old(Pending()), session, HandleClose(closeInvocation))
      ensures handled == old(Pending())
    {
      handled := false;
      if handleCloseConnected {
        handled := OnHandleClose(closeInvocation);
      }
    }
  }

  /** handle_open_file: set up the record for an inbound call, open the
      chooser window and export the request; the response comes later from
      one of the two triggers. `homeDir`, `resolved` (the outcome of
      create_external_window_from_handle) and `newWindow` (the window
      nautilus_file_chooser_new returns) are the results of foreign calls. */
  method HandleOpenFile(call: OpenCall, homeDir: string, resolved: Option<ExternalWindow>, newWindow: Window)
    returns (data: FileChooserData, handled: bool)
    requires CompletionFor(call.invocation.methodName).Some?
    ensures fresh(data) && data.Valid() && data.Pending()
    ensures data.session == Session(call.invocation, RequestOf(call), newWindow)
    ensures data.externalParent == ParentOf(call, resolved)
    ensures data.log == OpenEvents(call, homeDir, resolved, newWindow)
    ensures handled
  {
    data := new FileChooserData(call.invocation, RequestOf(call));
    var settings := ResolveOptions(call.invocation.methodName, call.options, homeDir);
    data.ResolveParent(call.parentWindow, resolved);
    data.OpenWindow(newWindow, settings, call.title);
    data.RealizeAndParent(settings.modal);
    data.PresentAndExport();
    data.session := Session(call.invocation, RequestOf(call), newWindow);
    handled := true;
  }

  /** Two triggers delivered back to back, in either order, to a freshly
      opened call: the log is the opening followed by the first trigger's
      reaction alone, with exactly one response, one unexport and one window
      destruction. */
  method DeliverTwoTriggers(call: OpenCall, homeDir: string, resolved: Option<ExternalWindow>, newWindow: Window,
                            first: Trigger, second: Trigger)
    returns (log: seq<Event>)
    requires CompletionFor(call.invocation.methodName).Some?
    ensures var s := Session(call.invocation, RequestOf(call), newWindow);
      log == OpenEvents(call, homeDir, resolved, newWindow) + Reaction(true, s, first)
    ensures var after := log[|OpenEvents(call, homeDir, resolved, newWindow)|..];
      CountIf(after, IsResponse) == 1 && CountIf(after, IsUnexport) == 1 && CountIf(after, IsDestroy) == 1
  {
    var data, _ := HandleOpenFile(call, homeDir, resolved, newWindow);
    ghost var atOpen := data.log;
    Deliver(data, first);
    Deliver(data, second);
    log := data.log;
    ghost var s := Session(call.invocation, RequestOf(call), newWindow);
    assert log == atOpen + (Reaction(true, s, first) + Reaction(false, s, second));
    assert Run(true, s, [first, second]) == Reaction(true, s, first) + Reaction(false, s, second);
    ExactlyOnce(s, [first, second]);
    assert log[|atOpen|..] == Run(true, s, [first, second]);
  }

  /** The main loop delivering one trigger to the object that emits it. */
  method Deliver(data: FileChooserData, t: Trigger)
    requires data.Valid()
    modifies data
    ensures data.Valid() && !data.Pending() && data.session == old(data.session)
    ensures data.log == old(data.log) + Reaction(old(data.Pending()), data.session, t)
  {
    match t
    case WindowCloseRequest =>
      data.EmitCloseRequest();
    case HandleClose(closeInvocation) =>
      var _ := data.EmitHandleClose(closeInvocation);
  }

  /** The only handler the portal connects on its skeleton. */
  datatype Handler = HandleOpenFileHandler

  /** The handle-* signal the generated org.freedesktop.impl.portal.FileChooser
      skeleton emits for each method it implements. */
  function SignalOf(methodName: string): Option<string>
  {
    if methodName == "OpenFile" then Some("handle-open-file")
    else if methodName == "SaveFile" then Some("handle-save-file")
    else if methodName == "SaveFiles" then Some("handle-save-files")
    else None
  }

  /** The handler an incoming call reaches, given the connected signals. */
  function Dispatch(routes: map<string, Handler>, methodName: string): Option<Handler>
  {
    match SignalOf(methodName)
    case Some(signal) => if signal in routes then Some(routes[signal]) else None
    case None => None
  }

  /** The handlers nautilus_portal_register connects: all three methods reach
      handle_open_file, and exactly the calls that reach it have a matching
      completion, so complete_file_chooser's assertion is never reached. */
  function PortalRoutes(): (routes: map<string, Handler>)
    ensures forall m :: Dispatch(routes, m).Some? <==> CompletionFor(m).Some?
    ensures forall m :: Dispatch(routes, m).Some? ==> Dispatch(routes, m) == Some(HandleOpenFileHandler)
  {
    map["handle-open-file" := HandleOpenFileHandler,
        "handle-save-file" := HandleOpenFileHandler,
        "handle-save-files" := HandleOpenFileHandler]
  }

  /** NautilusPortal: the file-chooser skeleton's export state and the
      handlers connected on it. */
  class NautilusPortal {
    var exported: bool
    var routes: map<string, Handler>

    constructor ()
      ensures !exported && routes == map[]
    {
      exported := false;
      routes := map[];
    }

    /** nautilus_portal_register: export the skeleton (a foreign call whose
        outcome is `exportSucceeds`); only on success connect the handlers. */
    method Register(exportSucceeds: bool) returns (ok: bool)
      modifies this
      ensures ok == exportSucceeds
      ensures ok ==> exported && routes == old(routes) + PortalRoutes()
      ensures !ok ==> exported == old(exported) && routes == old(routes)
    {
      if !exportSucceeds {
        return false;
      }
      exported := true;
      routes := routes["handle-open-file" := HandleOpenFileHandler];
      routes := routes["handle-save-file" := HandleOpenFileHandler];
      routes := routes["handle-save-files" := HandleOpenFileHandler];
      return true;
    }

    /** nautilus_portal_unregister: unexport the skeleton. */
    method Unregister()
      modifies this`exported
      ensures !exported
    {
      exported := false;
    }
  }
}
