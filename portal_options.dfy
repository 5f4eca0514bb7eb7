/** Resolution of the loosely-typed a{sv} options dictionary that an OpenFile,
    SaveFile or SaveFiles call of the file-chooser portal carries
    (src/nautilus-portal.c, handle_open_file). Every decision here is free of
    side effects: a missing or wrongly-typed entry falls back to a default. */
module PortalOptions {

  datatype Option<+T> = None | Some(value: T)

  /** A value of the options dictionary, distinguished by its D-Bus type:
      'b', 's', 'ay' (a byte string, here a path, conventionally NUL-terminated)
      or anything else. */
  datatype Variant = Boolean(b: bool) | Str(s: string) | ByteString(bytes: string) | OtherType

  /** One value per key: the dictionary as g_variant_lookup sees it. */

  type VarDict = map<string, Variant>

  /** g_variant_lookup with format "b": succeeds only when the key is present
      with a boolean value. */
  function LookupBool(options: VarDict, key: string): (r: Option<bool>)
  {
    if key in options && options[key].Boolean? then Some(options[key].b) else None
  }

  /** g_variant_lookup with format "&s": succeeds only for a string value. */
  function LookupString(options: VarDict, key: string): (r: Option<string>)
  {
    if key in options && options[key].Str? then Some(options[key].s) else None
  }

  /** g_variant_lookup with format "^&ay": succeeds only for a byte string,
      and yields g_variant_get_bytestring's view of it. */
  function LookupByteString(options: VarDict, key: string): (r: Option<string>)
  {
    if key in options && options[key].ByteString? then Some(BytestringPath(options[key].bytes)) else None
  }

  /** The bytes before the first NUL: what a C string pointing at `bytes`
      reads. */
  function UpToNul(bytes: string): (r: string)
    ensures '\0' !in r
    ensures |r| <= |bytes| && r == bytes[..|r|]
    ensures |r| < |bytes| ==> bytes[|r|] == '\0'
    decreases |bytes|
  {
    if bytes == [] || bytes[0] == '\0' then []
    else [bytes[0]] + UpToNul(bytes[1..])
  }

  /** The path a byte-string option gives: g_variant_get_bytestring returns
      the array as a C string when it ends in NUL, and "" when it does not;
      the path is then read up to its first NUL. */
  function BytestringPath(bytes: string): (path: string)
    ensures '\0' !in path
    ensures (|bytes| == 0 || bytes[|bytes| - 1] != '\0') ==> path == ""
    ensures |bytes| > 0 && bytes[|bytes| - 1] == '\0' ==>
              |path| < |bytes| && path == bytes[..|path|] && bytes[|path|] == '\0'
  {
    if |bytes| > 0 && bytes[|bytes| - 1] == '\0' then UpToNul(bytes) else ""
  }

  /** A NUL-free path sent as a byte string with its terminator, as
      g_variant_new_bytestring does, comes back unchanged. */
  lemma BytestringRoundTrip(path: string)
    requires '\0' !in path
    ensures BytestringPath(path + ['\0']) == path
  {
  }

  /** A failed lookup leaves the caller's default untouched. */
  function BoolOr(found: Option<bool>, default: bool): bool
  {
    match found
    case Some(b) => b
    case None => default
  }

  /** What handle_open_file derives from the call before it builds the window. */
  datatype ChooserSettings = ChooserSettings(
    modal: bool,
    multiple: bool,
    acceptLabel: string,
    startingLocation: string)

  /** The accept-button label used when the caller gives none: an OpenFile call
      selects ("_Select") or, with `multiple`, opens ("_Open"); every other
      method name saves ("_Save"). */
  function DefaultAcceptLabel(methodName: string, multiple: bool): (text: string)
    ensures text == "_Open" <==> methodName == "OpenFile" && multiple
    ensures text == "_Select" <==> methodName == "OpenFile" && !multiple
    ensures text == "_Save" <==> methodName != "OpenFile"
  {
    if methodName == "OpenFile" then
      if multiple then "_Open" else "_Select"
    else
      "_Save"
  }

  /** Option resolution of handle_open_file. `homeDir` stands for
      g_get_home_dir (), which the model does not call. */
  function ResolveOptions(methodName: string, options: VarDict, homeDir: string): (r: ChooserSettings)
    // modal defaults to true, multiple to false; a well-typed entry overrides
    ensures "modal" in options && options["modal"].Boolean? ==> r.modal == options["modal"].b
    ensures !("modal" in options && options["modal"].Boolean?) ==> r.modal
    ensures "multiple" in options && options["multiple"].Boolean? ==> r.multiple == options["multiple"].b
    ensures !("multiple" in options && options["multiple"].Boolean?) ==> !r.multiple
    // an explicit accept_label always wins over the method's default
    ensures "accept_label" in options && options["accept_label"].Str? ==>
              r.acceptLabel == options["accept_label"].s
    ensures !("accept_label" in options && options["accept_label"].Str?) ==>
              r.acceptLabel == DefaultAcceptLabel(methodName, r.multiple)
    // the chooser starts in current_folder when given, else in the home directory
    ensures "current_folder" in options && options["current_folder"].ByteString? ==>
              r.startingLocation == BytestringPath(options["current_folder"].bytes)
    ensures !("current_folder" in options && options["current_folder"].ByteString?) ==>
              r.startingLocation == homeDir
  {
    var modal := BoolOr(LookupBool(options, "modal"), true);
    var multiple := BoolOr(LookupBool(options, "multiple"), false);
    var acceptLabel :=
      match LookupString(options, "accept_label")
      case Some(text) => text
      case None => DefaultAcceptLabel(methodName, multiple);
    var startingLocation :=
      match LookupByteString(options, "current_folder")
      case Some(path) => path
      case None => homeDir;
    ChooserSettings(modal, multiple, acceptLabel, startingLocation)
  }

  /** An empty options dictionary yields exactly the documented defaults. */
  lemma EmptyOptionsDefaults(methodName: string, homeDir: string)
    ensures ResolveOptions(methodName, map[], homeDir) ==
            ChooserSettings(true, false, DefaultAcceptLabel(methodName, false), homeDir)
  {
  }
}
