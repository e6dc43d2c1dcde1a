/**
 * The intent bridge of the Android host activity: it keeps at most one pending
 * file reference, taken from "open with" and "share" intents, and hands it to the
 * Flutter side through the `getSharedFile` method of the `com.maid/file_intent`
 * channel, clearing it as it does.
 */
module IntentBridge {
  import opened Wrappers
  import opened Android

  const Channel: string := "com.maid/file_intent"
  const GetSharedFileMethod: string := "getSharedFile"
  const PdfMimeType: string := "application/pdf"
  const ContentScheme: string := "content"
  const FileScheme: string := "file"

  /** The answer sent back over the channel: a success carrying the (nullable) path, or "not implemented". */
  datatype Reply = Success(value: Option<string>) | NotImplemented

  /**
   * Resolves a URI to the string handed to Flutter: a content URI is passed on
   * whole, a file URI gives its path (or "" without one), anything else gives "".
   */
  function PathFromUri(uri: Uri): (r: string)
    ensures uri.scheme == Some(ContentScheme) ==> r == uri.text
    ensures uri.scheme == Some(FileScheme) ==> r == (if uri.path.Some? then uri.path.value else "")
    ensures uri.scheme != Some(ContentScheme) && uri.scheme != Some(FileScheme) ==> r == ""
  {
    match uri.scheme
    case Some(s) =>
      if s == ContentScheme then uri.text
      else if s == FileScheme then (match uri.path case Some(p) => p case None => "")
      else ""
    case None => ""
  }

  /** A non-empty resolution names its origin: the whole content URI, or the path of a file URI. */
  lemma NonEmptyPathOrigin(uri: Uri)
    ensures PathFromUri(uri) != "" <==>
      (uri.scheme == Some(ContentScheme) && uri.text != "") ||
      (uri.scheme == Some(FileScheme) && uri.path.Some? && uri.path.value != "")
    ensures PathFromUri(uri) != "" ==>
      (uri.scheme == Some(ContentScheme) && PathFromUri(uri) == uri.text) ||
      (uri.scheme == Some(FileScheme) && uri.path == Some(PathFromUri(uri)))
  {
  }

  /**
   * The intents that carry a reference for the bridge: a VIEW intent with a data
   * URI, or a SEND intent declaring exactly the PDF MIME type with a stream URI.
   */
  predicate Qualifies(intent: Option<Intent>)
  {
    intent.Some? &&
    ((intent.value.action == View && intent.value.data.Some?) ||
     (intent.value.action == Send && intent.value.mimeType == Some(PdfMimeType) && intent.value.stream.Some?))
  }

  /** The URI a qualifying intent carries. */
  function CarriedUri(intent: Option<Intent>): Uri
    requires Qualifies(intent)
  {
    if intent.value.action == View then intent.value.data.value else intent.value.stream.value
  }

  /**
   * The reference an intent delivers, following the branches of the intent
   * handler: None for a null intent, another action, a VIEW without data, a SEND
   * of another type or without a stream.
   */
  function Delivered(intent: Option<Intent>): (r: Option<string>)
    ensures r.Some? <==> Qualifies(intent)
    ensures r.Some? ==> r.value == PathFromUri(CarriedUri(intent))
  {
    match intent
    case None => None
    case Some(i) =>
      match i.action
      case View =>
        (match i.data case Some(uri) => Some(PathFromUri(uri)) case None => None)
      case Send =>
        if i.mimeType == Some(PdfMimeType) then
          (match i.stream case Some(uri) => Some(PathFromUri(uri)) case None => None)
        else None
      case Other => None
  }

  /** A SEND intent of any type other than PDF delivers nothing, even when it carries a stream URI. */
  lemma NonPdfShareIgnored(intent: Intent)
    requires intent.action == Send && intent.mimeType != Some(PdfMimeType)
    ensures Delivered(Some(intent)) == None
  {
  }

  /** What happens to the bridge, one call at a time. */
  datatype Event = NewIntent(intent: Option<Intent>) | MethodCall(name: string)

  /** An event that replaces the pending reference. */
  predicate Overwrites(e: Event)
  {
    e.NewIntent? && Qualifies(e.intent)
  }

  /** An event that takes the pending reference and clears it. */
  predicate Clears(e: Event)
  {
    e.MethodCall? && e.name == GetSharedFileMethod
  }

  /** The pending reference after one event. */
  function Step(pending: Option<string>, e: Event): (p: Option<string>)
    ensures Overwrites(e) ==> p.Some? && p == Delivered(e.intent)
    ensures Clears(e) ==> p == None
    ensures !Overwrites(e) && !Clears(e) ==> p == pending
  {
    match e
    case NewIntent(intent) =>
      (match Delivered(intent) case Some(path) => Some(path) case None => pending)
    case MethodCall(name) =>
      if name == GetSharedFileMethod then None else pending
  }

  /** The reply to a method call on the channel, given the pending reference. */
  function Answer(pending: Option<string>, name: string): (r: Reply)
    ensures name == GetSharedFileMethod ==> r == Success(pending)
    ensures name != GetSharedFileMethod ==> r == NotImplemented
  {
    if name == GetSharedFileMethod then Success(pending) else NotImplemented
  }

  /** Any method other than getSharedFile is refused explicitly and leaves the pending reference alone. */
  lemma UnknownMethodRefused(pending: Option<string>, name: string)
    requires name != GetSharedFileMethod
    ensures Answer(pending, name) == NotImplemented
    ensures Step(pending, MethodCall(name)) == pending
  {
  }

  /** Two getSharedFile calls in a row: the first gives the pending value, the second gives null. */
  lemma TakeThenEmpty(pending: Option<string>)
    ensures Answer(pending, GetSharedFileMethod) == Success(pending)
    ensures Answer(Step(pending, MethodCall(GetSharedFileMethod)), GetSharedFileMethod) == Success(None)
  {
  }

  /** The host activity, reduced to the field it mutates and the three pieces of logic that touch it. */
  class MainActivity {
    var sharedFilePath: Option<string>

    constructor ()
      ensures sharedFilePath == None
    {
      sharedFilePath := None;
    }

    /** Records the reference an intent carries, overwriting any earlier one. */
    method HandleIntent(intent: Option<Intent>)
      modifies this
      ensures sharedFilePath == Step(old(sharedFilePath), NewIntent(intent))
      ensures Qualifies(intent) ==> sharedFilePath == Some(PathFromUri(CarriedUri(intent)))
      ensures !Qualifies(intent) ==> sharedFilePath == old(sharedFilePath)
    {
      if intent.Some? {
        var i := intent.value;
        match i.action
        case View =>
          if i.data.Some? {
            sharedFilePath := Some(PathFromUri(i.data.value));
          }
        case Send =>
          if i.mimeType == Some(PdfMimeType) {
            if i.stream.Some? {
              sharedFilePath := Some(PathFromUri(i.stream.value));
            }
          }
        case Other =>
      }
    }

    /** Cold start: the launching intent (possibly null) goes through HandleIntent. */
    method OnCreate(launch: Option<Intent>)
      modifies this
      ensures sharedFilePath == Step(old(sharedFilePath), NewIntent(launch))
    {
      HandleIntent(launch);
    }

    /** Resume with a new intent: the same handling as at cold start. */
    method OnNewIntent(intent: Intent)
      modifies this
      ensures sharedFilePath == Step(old(sharedFilePath), NewIntent(Some(intent)))
    {
      HandleIntent(Some(intent));
    }

    /** The channel's method-call handler: getSharedFile hands over the pending value and clears it. */
    method OnMethodCall(name: string) returns (reply: Reply)
      modifies this
      ensures reply == Answer(old(sharedFilePath), name)
      ensures sharedFilePath == Step(old(sharedFilePath), MethodCall(name))
      ensures name == GetSharedFileMethod ==> reply == Success(old(sharedFilePath)) && sharedFilePath == None
      ensures name != GetSharedFileMethod ==> reply == NotImplemented && sharedFilePath == old(sharedFilePath)
    {
      if name == GetSharedFileMethod {
        reply := Success(sharedFilePath);
        sharedFilePath := None;
      } else {
        reply := NotImplemented;
      }
    }
  }
}
