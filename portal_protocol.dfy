/** The request/response handshake of the file-chooser portal
    (src/nautilus-portal.c) as a pure reference: the calls the handshake makes
    to D-Bus and GTK are events, and the reaction of a request to each of its
    two triggers (the window's close-request, the caller's handle-close) is a
    function of whether the request is still pending. */
module PortalProtocol {
  import opened PortalOptions

  /** Response codes of the Response signal of org.freedesktop.portal.Request. */
  const ResponseSuccess := 0
  const ResponseUserCancelled := 1
  const ResponseOther := 2

  /** The three completion calls of the org.freedesktop.impl.portal.FileChooser
      skeleton: complete_open_file, complete_save_file, complete_save_files. */
  datatype Completion = CompleteOpenFile | CompleteSaveFile | CompleteSaveFiles

  /** The method whose call each completion answers. */
  function MethodOf(c: Completion): string
  {
    match c
    case CompleteOpenFile => "OpenFile"
    case CompleteSaveFile => "SaveFile"
    case CompleteSaveFiles => "SaveFiles"
  }

  /** The completion complete_file_chooser selects by the invocation's method
      name; None is the g_assert_not_reached branch. A completion is chosen
      exactly when it answers that method, so no method is ever answered by
      another method's completion. */
  function CompletionFor(methodName: string): (r: Option<Completion>)
    ensures forall c :: r == Some(c) <==> MethodOf(c) == methodName
    ensures r.Some? <==> methodName == "OpenFile" || methodName == "SaveFile" || methodName == "SaveFiles"
  {
    if methodName == "OpenFile" then Some(CompleteOpenFile)
    else if methodName == "SaveFile" then Some(CompleteSaveFile)
    else if methodName == "SaveFiles" then Some(CompleteSaveFiles)
    else None
  }

  /** An in-flight D-Bus method call (GDBusMethodInvocation); `serial` tells
      two calls from the same sender apart. */
  datatype Invocation = Invocation(sender: string, methodName: string, serial: nat)

  /** The org.freedesktop.impl.portal.Request object that request_new creates
      for a call; it is identified by the caller-supplied handle. */
  datatype Request = Request(sender: string, appId: string, handle: string)

  /** Identity of the chooser window nautilus_file_chooser_new creates. */
  datatype Window = Window(id: nat)

  /** A foreign parent window resolved by create_external_window_from_handle. */
  datatype ExternalWindow = ExternalWindow(id: nat)

  /** The calls the handshake makes to its collaborators, in the order made. */
  datatype Event =
    | ParentWarning(parentHandle: string)
    | WindowCreated(window: Window)
    | StartingLocationSet(path: string)
    | AcceptLabelSet(text: string)
    | TitleSet(title: string)
    | Realized(window: Window)
    | ParentSet(parent: ExternalWindow, window: Window)
    | ModalSet(modal: bool)
    | Presented(window: Window)
    | Exported(request: Request)
    | Responded(completion: Completion, invocation: Invocation, response: int, results: VarDict)
    | Unexported(request: Request)
    | Destroyed(window: Window)
    | CloseAcknowledged(closeInvocation: Invocation)

  /** The inbound OpenFile / SaveFile / SaveFiles call: its invocation and
      arguments. A NULL parent_window is None. */
  datatype OpenCall = OpenCall(
    invocation: Invocation,
    handle: string,
    appId: string,
    parentWindow: Option<string>,
    title: string,
    options: VarDict)

  /** The request object request_new builds for a call. */
  function RequestOf(call: OpenCall): Request
  {
    Request(call.invocation.sender, call.appId, call.handle)
  }

  /** The parent the window ends up with: resolution is attempted whenever a
      parent handle is given (the code tests only for NULL), and its result,
      which the model takes as an input, may be a failure. */
  function ParentOf(call: OpenCall, resolved: Option<ExternalWindow>): Option<ExternalWindow>
  {
    if call.parentWindow.Some? then resolved else None
  }

  /** The parent step of handle_open_file: a warning when a given parent
      handle could not be resolved. */
  function ParentResolutionEvents(parentWindow: Option<string>, resolved: Option<ExternalWindow>): seq<Event>
  {
    if parentWindow.Some? && resolved.None? then [ParentWarning(parentWindow.value)] else []
  }

  /** Creating the window and giving it its starting location, accept label
      and title. */
  function WindowSetupEvents(window: Window, settings: ChooserSettings, title: string): seq<Event>
  {
    [WindowCreated(window), StartingLocationSet(settings.startingLocation),
     AcceptLabelSet(settings.acceptLabel), TitleSet(title)]
  }

  /** Realizing the window, then parenting it and applying `modal` when a
      parent was resolved. */
  function RealizeEvents(window: Window, parent: Option<ExternalWindow>, modal: bool): seq<Event>
  {
    [Realized(window)] + if parent.Some? then [ParentSet(parent.value, window), ModalSet(modal)] else []
  }

  /** Presenting the window, then exporting the request. */
  function PresentEvents(window: Window, request: Request): seq<Event>
  {
    [Presented(window), Exported(request)]
  }

  /** The calls handle_open_file makes, given the outcome of the parent
      resolution, the home directory and the window it creates. */
  function OpenEvents(call: OpenCall, homeDir: string, resolved: Option<ExternalWindow>, window: Window): (evs: seq<Event>)
    // the request is exported last, once the window has been presented
    ensures |evs| >= 2 && evs[|evs| - 2] == Presented(window) && evs[|evs| - 1] == Exported(RequestOf(call))
  {
    var settings := ResolveOptions(call.invocation.methodName, call.options, homeDir);
    ParentResolutionEvents(call.parentWindow, resolved) + WindowSetupEvents(window, settings, call.title) +
    RealizeEvents(window, ParentOf(call, resolved), settings.modal) + PresentEvents(window, RequestOf(call))
  }

  /** handle_open_file exports the request exactly once, presents the window
      even when the parent could not be resolved, and sends no response,
      unexports nothing and destroys nothing. */
  lemma OpenExportsOnce(call: OpenCall, homeDir: string, resolved: Option<ExternalWindow>, window: Window)
    ensures var evs := OpenEvents(call, homeDir, resolved, window);
      Presented(window) in evs &&
      (forall i :: 0 <= i < |evs| - 1 ==> !evs[i].Exported?) &&
      (forall e :: e in evs ==> !e.Responded? && !e.Unexported? && !e.Destroyed?)
  {
    OpenEventsCases(call, homeDir, resolved, window);
  }

  /** The three shapes of OpenEvents, by whether a parent handle was given and
      whether it was resolved. */
  lemma OpenEventsCases(call: OpenCall, homeDir: string, resolved: Option<ExternalWindow>, window: Window)
    ensures var settings := ResolveOptions(call.invocation.methodName, call.options, homeDir);
      var setup := [WindowCreated(window), StartingLocationSet(settings.startingLocation),
                    AcceptLabelSet(settings.acceptLabel), TitleSet(call.title), Realized(window)];
      var tail := [Presented(window), Exported(RequestOf(call))];
      OpenEvents(call, homeDir, resolved, window) ==
        if call.parentWindow.None? then setup + tail
        else if resolved.None? then [ParentWarning(call.parentWindow.value)] + setup + tail
        else setup + [ParentSet(resolved.value, window), ModalSet(settings.modal)] + tail
  {
  }

  /** Parent handling of handle_open_file: a warning is logged exactly when a
      given parent handle could not be resolved; the window is parented, and
      its modal flag set from the options, exactly when a parent was
      resolved. */
  lemma OpenParentHandling(call: OpenCall, homeDir: string, resolved: Option<ExternalWindow>, window: Window)
    ensures var evs := OpenEvents(call, homeDir, resolved, window);
      (forall h :: ParentWarning(h) in evs <==> call.parentWindow == Some(h) && resolved.None?) &&
      (forall p :: ParentSet(p, window) in evs <==> ParentOf(call, resolved) == Some(p)) &&
      (forall b :: ModalSet(b) in evs <==>
         ParentOf(call, resolved).Some? && b == ResolveOptions(call.invocation.methodName, call.options, homeDir).modal)
  {
    OpenEventsCases(call, homeDir, resolved, window);
  }

  /** The window is parented and made modal only after it has been realized,
      since parenting needs its native surface. */
  lemma OpenRealizesBeforeParenting(call: OpenCall, homeDir: string, resolved: Option<ExternalWindow>, window: Window)
    ensures var evs := OpenEvents(call, homeDir, resolved, window);
      forall i :: 0 <= i < |evs| && (evs[i].ParentSet? || evs[i].ModalSet?) ==> Realized(window) in evs[..i]
  {
    var evs := OpenEvents(call, homeDir, resolved, window);
    OpenEventsCases(call, homeDir, resolved, window);
    if call.parentWindow.Some? && resolved.Some? {
      assert evs[4] == Realized(window);
      forall i | 0 <= i < |evs| && (evs[i].ParentSet? || evs[i].ModalSet?)
        ensures Realized(window) in evs[..i]
      {
        assert 5 <= i && evs[..i][4] == Realized(window);
      }
    }
  }

  /** The window handle_open_file creates shows the resolved accept label and
      starting location, and the caller's title. */
  lemma OpenConfiguresWindow(call: OpenCall, homeDir: string, resolved: Option<ExternalWindow>, window: Window)
    ensures var evs := OpenEvents(call, homeDir, resolved, window);
      var settings := ResolveOptions(call.invocation.methodName, call.options, homeDir);
      WindowCreated(window) in evs && AcceptLabelSet(settings.acceptLabel) in evs &&
      StartingLocationSet(settings.startingLocation) in evs && TitleSet(call.title) in evs
  {
    OpenEventsCases(call, homeDir, resolved, window);
  }

  /** What complete_file_chooser reads from a pending request. */
  datatype Session = Session(invocation: Invocation, request: Request, window: Window)

  /** The calls complete_file_chooser makes: the response with an empty
      results dictionary through the completion matching the method, then the
      request's unexport, then the window's destruction. */
  function CompletionEvents(s: Session, response: int): (evs: seq<Event>)
    requires CompletionFor(s.invocation.methodName).Some?
    ensures |evs| == 3
    ensures evs[0].Responded? && evs[0].invocation == s.invocation && evs[0].response == response
    ensures evs[0].results == map[] && MethodOf(evs[0].completion) == s.invocation.methodName
    ensures evs[1] == Unexported(s.request) && evs[2] == Destroyed(s.window)
  {
    [Responded(CompletionFor(s.invocation.methodName).value, s.invocation, response, map[]),
     Unexported(s.request),
     Destroyed(s.window)]
  }

  /** The two events that end a pending request. */
  datatype Trigger = WindowCloseRequest | HandleClose(closeInvocation: Invocation)

  /** The response each trigger completes with: a window closed by the user is
      a cancellation, a Close from the caller is "other"; neither is success. */
  function ResponseFor(t: Trigger): (code: int)
    ensures code == ResponseUserCancelled <==> t.WindowCloseRequest?
    ensures code == ResponseOther <==> t.HandleClose?
    ensures code != ResponseSuccess
  {
    match t
    case WindowCloseRequest => ResponseUserCancelled
    case HandleClose(_) => ResponseOther
  }

  /** The calls a trigger causes. While the request is pending its handler is
      connected: it completes, and handle_close then acknowledges the Close.
      Once the request data is freed no handler is connected: nothing happens. */
  function Reaction(pending: bool, s: Session, t: Trigger): (evs: seq<Event>)
    requires CompletionFor(s.invocation.methodName).Some?
    // a freed record makes no call at all
    ensures !pending ==> evs == []
    // a pending one completes first, with the trigger's response code ...
    ensures pending ==> |evs| >= 3 && evs[..3] == CompletionEvents(s, ResponseFor(t))
    // ... and only a Close is acknowledged, after the completion
    ensures pending && t.WindowCloseRequest? ==> |evs| == 3
    ensures pending && t.HandleClose? ==> |evs| == 4 && evs[3] == CloseAcknowledged(t.closeInvocation)
  {
    if !pending then []
    else
      CompletionEvents(s, ResponseFor(t)) +
      match t
      case WindowCloseRequest => []
      case HandleClose(closeInvocation) => [CloseAcknowledged(closeInvocation)]
  }

  /** The calls caused by a sequence of triggers. Each handler frees the
      request data after completing, so after the first trigger the request
      is no longer pending. */
  function Run(pending: bool, s: Session, ts: seq<Trigger>): (evs: seq<Event>)
    requires CompletionFor(s.invocation.methodName).Some?
    // only the first trigger has any effect; no trigger, no call
    ensures evs == if ts == [] then [] else Reaction(pending, s, ts[0])
    decreases |ts|
  {
    if ts == [] then [] else Reaction(pending, s, ts[0]) + Run(false, s, ts[1..])
  }

  predicate IsResponse(e: Event) { e.Responded? }
  predicate IsUnexport(e: Event) { e.Unexported? }
  predicate IsDestroy(e: Event) { e.Destroyed? }
  predicate IsCloseAck(e: Event) { e.CloseAcknowledged? }

  /** The number of events of a sequence satisfying `p`. */
  function CountIf(evs: seq<Event>, p: Event -> bool): nat
    decreases |evs|
  {
    if evs == [] then 0 else (if p(evs[0]) then 1 else 0) + CountIf(evs[1..], p)
  }

  /** Whichever trigger fires first decides the outcome; every later one is a
      no-op. The first one's events are the response (with that trigger's
      code, through the completion matching the method), the unexport and the
      destruction, in that order, and for handle-close the acknowledgement. */
  lemma FirstTriggerWins(s: Session, ts: seq<Trigger>)
    requires CompletionFor(s.invocation.methodName).Some?
    requires ts != []
    ensures Run(true, s, ts) == Reaction(true, s, ts[0])
    ensures var evs := Run(true, s, ts);
      evs[0].Responded? && evs[0].response == ResponseFor(ts[0]) &&
      MethodOf(evs[0].completion) == s.invocation.methodName &&
      evs[1] == Unexported(s.request) && evs[2] == Destroyed(s.window) &&
      |evs| == (if ts[0].HandleClose? then 4 else 3) &&
      (ts[0].HandleClose? ==> evs[3] == CloseAcknowledged(ts[0].closeInvocation))
  {
  }

  /** Exactly-once completion: whatever triggers arrive, and in whatever
      number, a pending request produces one response, one unexport and one
      window destruction once any trigger has arrived, none before; the Close
      is acknowledged only when handle-close was the first trigger. */
  lemma ExactlyOnce(s: Session, ts: seq<Trigger>)
    requires CompletionFor(s.invocation.methodName).Some?
    ensures CountIf(Run(true, s, ts), IsResponse) == (if ts == [] then 0 else 1)
    ensures CountIf(Run(true, s, ts), IsUnexport) == (if ts == [] then 0 else 1)
    ensures CountIf(Run(true, s, ts), IsDestroy) == (if ts == [] then 0 else 1)
    ensures CountIf(Run(true, s, ts), IsCloseAck) == (if ts != [] && ts[0].HandleClose? then 1 else 0)
  {
    if ts != [] {
      FirstTriggerWins(s, ts);
      var evs := Run(true, s, ts);
      var n := |evs|;
      assert evs[n..] == [];
      forall p: Event -> bool
        ensures CountIf(evs, p) == (if p(evs[0]) then 1 else 0) + (if p(evs[1]) then 1 else 0)
                                   + (if p(evs[2]) then 1 else 0) + (if n == 4 && p(evs[3]) then 1 else 0)
      {
        assert CountIf(evs[n..], p) == 0;
        if n == 4 {
          assert evs[3..][1..] == evs[4..];
          assert CountIf(evs[3..], p) == (if p(evs[3]) then 1 else 0);
        }
        assert CountIf(evs[3..], p) == (if n == 4 && p(evs[3]) then 1 else 0);
        assert evs[2..][1..] == evs[3..];
        assert evs[1..][1..] == evs[2..];
        assert CountIf(evs[2..], p) == (if p(evs[2]) then 1 else 0) + CountIf(evs[3..], p);
        assert CountIf(evs[1..], p) == (if p(evs[1]) then 1 else 0) + CountIf(evs[2..], p);
      }
    }
  }

  /** No path of the handshake ever sends a success response. */
  lemma NeverSuccess(s: Session, ts: seq<Trigger>)
    requires CompletionFor(s.invocation.methodName).Some?
    ensures forall e :: e in Run(true, s, ts) && e.Responded? ==> e.response != ResponseSuccess
  {
    if ts != [] {
      FirstTriggerWins(s, ts);
    }
  }
}
