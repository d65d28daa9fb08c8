/**
 * The SDK's catalogue of error records (Ext.io.Errors): a closed table of
 * named records, each with a code, a message template, an optional kind
 * that says whose fault the error is, and a suggestion for the developer.
 */
module Errors {
  import opened Js

  datatype ErrorRecord = ErrorRecord(code: string, message: string, kind: Option<string>, suggest: string)

  /** The names under which the records are registered, in table order. */
  datatype ErrorName =
      ServiceVersionUnknown
    | NetworkError
    | WebsocketNotReady
    | UnknownError
    | UnknownRpcError
    | ParamMissing
    | ParamsLengthMismatch
    | ParamTypeMismatch
    | RpcParamFunctionError
    | RpcTimeout
    | AuthRequired
    | ChannelNameMissing
    | ChannelAppIdMissing
    | ServiceNameMissing
    | ServiceDescriptorLoadError
    | MessageNotJson
    | NoAppId
    | FileParamsMissing
    | DeveloperNotLoggedIn
    | NoDeviceId
    | NoCurrentUser
    | UserNotAuthenticated
    | PicOpNotSupported
    | PushNotificationsNotSupported
    | UnableReadFile

  /**
   * The property name a record is registered under in `Ext.io.Errors`.
   * `Code` below is the record's own `code` field; the two tables are kept
   * apart because the source writes them apart, and `CodeIsName` ties them.
   */
  function Name(n: ErrorName): string {
    match n
    case ServiceVersionUnknown => "SERVICE_VERSION_UNKNOWN"
    case NetworkError => "NETWORK_ERROR"
    case WebsocketNotReady => "WEBSOCKET_NOT_READY"
    case UnknownError => "UNKNOWN_ERROR"
    case UnknownRpcError => "UNKNOWN_RPC_ERROR"
    case ParamMissing => "PARAM_MISSING"
    case ParamsLengthMismatch => "PARAMS_LENGTH_MISMATCH"
    case ParamTypeMismatch => "PARAM_TYPE_MISMATCH"
    case RpcParamFunctionError => "RPC_PARAM_FUNCTION_ERROR"
    case RpcTimeout => "RPC_TIMEOUT"
    case AuthRequired => "AUTH_REQUIRED"
    case ChannelNameMissing => "CHANNEL_NAME_MISSING"
    case ChannelAppIdMissing => "CHANNEL_APP_ID_MISSING"
    case ServiceNameMissing => "SERVICE_NAME_MISSING"
    case ServiceDescriptorLoadError => "SERVICE_DESCRIPTOR_LOAD_ERROR"
    case MessageNotJson => "MESSAGE_NOT_JSON"
    case NoAppId => "NO_APP_ID"
    case FileParamsMissing => "FILE_PARAMS_MISSING"
    case DeveloperNotLoggedIn => "DEVELOPER_NOT_LOGGED_IN"
    case NoDeviceId => "NO_DEVICE_ID"
    case NoCurrentUser => "NO_CURRENT_USER"
    case UserNotAuthenticated => "USER_NOT_AUTHENTICATED"
    case PicOpNotSupported => "PIC_OP_NOT_SUPPORTED"
    case PushNotificationsNotSupported => "PUSH_NOTIFICATIONS_NOT_SUPPORTED"
    case UnableReadFile => "UNABLE_READ_FILE"
  }

  /** The errors the SDK puts down to the service itself rather than to the developer. */
  predicate ServiceSide(n: ErrorName) {
    n in {ServiceVersionUnknown, UnknownError, UnknownRpcError, ChannelAppIdMissing, NoDeviceId}
  }

  /** The errors whose record carries no kind at all. */
  predicate Unclassified(n: ErrorName) {
    n == NetworkError || n == WebsocketNotReady
  }

  /** The `code` field of the record registered under `n` (its registry key is `Name`). */
  function Code(n: ErrorName): string {
    match n
    case ServiceVersionUnknown => "SERVICE_VERSION_UNKNOWN"
    case NetworkError => "NETWORK_ERROR"
    case WebsocketNotReady => "WEBSOCKET_NOT_READY"
    case UnknownError => "UNKNOWN_ERROR"
    case UnknownRpcError => "UNKNOWN_RPC_ERROR"
    case ParamMissing => "PARAM_MISSING"
    case ParamsLengthMismatch => "PARAMS_LENGTH_MISMATCH"
    case ParamTypeMismatch => "PARAM_TYPE_MISMATCH"
    case RpcParamFunctionError => "RPC_PARAM_FUNCTION_ERROR"
    case RpcTimeout => "RPC_TIMEOUT"
    case AuthRequired => "AUTH_REQUIRED"
    case ChannelNameMissing => "CHANNEL_NAME_MISSING"
    case ChannelAppIdMissing => "CHANNEL_APP_ID_MISSING"
    case ServiceNameMissing => "SERVICE_NAME_MISSING"
    case ServiceDescriptorLoadError => "SERVICE_DESCRIPTOR_LOAD_ERROR"
    case MessageNotJson => "MESSAGE_NOT_JSON"
    case NoAppId => "NO_APP_ID"
    case FileParamsMissing => "FILE_PARAMS_MISSING"
    case DeveloperNotLoggedIn => "DEVELOPER_NOT_LOGGED_IN"
    case NoDeviceId => "NO_DEVICE_ID"
    case NoCurrentUser => "NO_CURRENT_USER"
    case UserNotAuthenticated => "USER_NOT_AUTHENTICATED"
    case PicOpNotSupported => "PIC_OP_NOT_SUPPORTED"
    case PushNotificationsNotSupported => "PUSH_NOTIFICATIONS_NOT_SUPPORTED"
    case UnableReadFile => "UNABLE_READ_FILE"
  }

  /** The `kind` field, absent on two records. */
  function Kind(n: ErrorName): Option<string> {
    match n
    case ServiceVersionUnknown => Some("sio")
    case NetworkError => None
    case WebsocketNotReady => None
    case UnknownError => Some("sio")
    case UnknownRpcError => Some("sio")
    case ParamMissing => Some("developer")
    case ParamsLengthMismatch => Some("developer")
    case ParamTypeMismatch => Some("developer")
    case RpcParamFunctionError => Some("developer")
    case RpcTimeout => Some("developer")
    case AuthRequired => Some("developer")
    case ChannelNameMissing => Some("developer")
    case ChannelAppIdMissing => Some("sio")
    case ServiceNameMissing => Some("developer")
    case ServiceDescriptorLoadError => Some("developer")
    case MessageNotJson => Some("developer")
    case NoAppId => Some("developer")
    case FileParamsMissing => Some("developer")
    case DeveloperNotLoggedIn => Some("developer")
    case NoDeviceId => Some("sio")
    case NoCurrentUser => Some("developer")
    case UserNotAuthenticated => Some("developer")
    case PicOpNotSupported => Some("developer")
    case PushNotificationsNotSupported => Some("developer")
    case UnableReadFile => Some("developer")
  }

  /** A piece of a message template: literal text, or a `:name` placeholder. */
  datatype Piece = Text(text: string) | Slot(name: string)

  /** The template as the message string the table holds. */
  function Render(t: seq<Piece>): string {
    if t == [] then ""
    else (if t[0].Text? then t[0].text else Placeholder(t[0].name)) + Render(t[1..])
  }

  /** The placeholder names of a template, in order. */
  function Slots(t: seq<Piece>): seq<string> {
    if t == [] then []
    else (if t[0].Slot? then [t[0].name] else []) + Slots(t[1..])
  }

  /** The `message` template of each record; its `:word` parts are placeholders. */
  function Template(n: ErrorName): seq<Piece> {
    match n
    case ServiceVersionUnknown => [Text("The SDK doesn't know which version of the service is to be used")]
    case NetworkError => [Text("The request could not be made due to the network being down")]
    case WebsocketNotReady => [Text("The request could not be made as the websocket is not ready yet")]
    case UnknownError => [Text("Unknown error")]
    case UnknownRpcError => [Text("Unknown RPC error")]
    case ParamMissing =>
      [Text("Mandatory parameter '"),
       Slot("name"),
       Text("' is missing")]
    case ParamsLengthMismatch =>
      [Text("The method was passed "),
       Slot("actual"),
       Text(" params instead of the expected "),
       Slot("expected")]
    case ParamTypeMismatch =>
      [Text("Parameter '"),
       Slot("name"),
       Text("' data type mismatch. Expected '"),
       Slot("expected"),
       Text("', actual '"),
       Slot("actual"),
       Text("'")]
    case RpcParamFunctionError =>
      [Text("Parameter number "),
       Slot("index"),
       Text(" ("),
       Slot("name"),
       Text(") is a function, but only the first parameter must be a function")]
    case RpcTimeout => [Text("RPC request has timed out as there was no reply from the server")]
    case AuthRequired =>
      [Text("This request requires an authenticated "),
       Slot("kind"),
       Text(" session")]
    case ChannelNameMissing => [Text("Channel name is missing")]
    case ChannelAppIdMissing => [Text("Channel appId is missing")]
    case ServiceNameMissing => [Text("Service name is missing")]
    case ServiceDescriptorLoadError => [Text("Error loading service descriptor from the server")]
    case MessageNotJson => [Text("message is not a JSON object")]
    case NoAppId => [Text("App ID not found")]
    case FileParamsMissing => [Text("File or data parameters are missing")]
    case DeveloperNotLoggedIn => [Text("Developer is not logged in")]
    case NoDeviceId => [Text("Device ID not found")]
    case NoCurrentUser => [Text("User ID not found")]
    case UserNotAuthenticated => [Text("User not authenticated")]
    case PicOpNotSupported => [Text("This class of object does not support picture operations")]
    case PushNotificationsNotSupported => [Text("Push Notifications are not supported in this execution environment")]
    case UnableReadFile => [Text("Unable to read selected file")]
  }

  function Message(n: ErrorName): string {
    Render(Template(n))
  }

  function Suggest(n: ErrorName): string {
    match n
    case ServiceVersionUnknown =>
      "If the service name is not misspelt, contact support@sencha.io"
    case NetworkError =>
      "Check network connectivity from your device"
    case WebsocketNotReady =>
      "The websocket should connect automatically within some time"
    case UnknownError =>
      "Contact support@sencha.io with a description of what caused the error"
    case UnknownRpcError =>
      "Fix the RPC service to return a valid error object"
    case ParamMissing =>
      "Provide the required parameter during the method call"
    case ParamsLengthMismatch =>
      "Check the number of parameters you are passing to the method"
    case ParamTypeMismatch =>
      "Correct the data type of the parameter"
    case RpcParamFunctionError =>
      "Ensure that only the first parameter is a function"
    case RpcTimeout =>
      "Check if this was caused by network connectivity issues. If not, the service might be down." + " Also, see documentation for Ext.Io.setup (rpcTimeoutDuration, rpcTimeoutCheckInterval) to configure the timeout check"
    case AuthRequired =>
      "Retry the request with a valid session"
    case ChannelNameMissing =>
      "Provide the channel name"
    case ChannelAppIdMissing =>
      "Potential bug in the SIO SDK, attempting to get a channel without an appId"
    case ServiceNameMissing =>
      "Provide the service name"
    case ServiceDescriptorLoadError =>
      "Service name is most likely misspelt. If not, contact support@sencha.io"
    case MessageNotJson =>
      "Use a valid JSON object instead of basic data types"
    case NoAppId =>
      "Use a valid App ID"
    case FileParamsMissing =>
      "File or data parameters are missing"
    case DeveloperNotLoggedIn =>
      "Retry the request after Developer login"
    case NoDeviceId =>
      "Might be a bug in device allocation"
    case NoCurrentUser =>
      "Retry with a valid User ID"
    case UserNotAuthenticated =>
      "Retry the request after User login"
    case PicOpNotSupported =>
      "This class of object does not support picture operations"
    case PushNotificationsNotSupported =>
      "Try building this application as a Packaged ST2 + SIO iOS Application"
    case UnableReadFile =>
      "File is not provided or your browser does not support this operation"
  }

  /** The record registered under `n`. */
  function Entry(n: ErrorName): (e: ErrorRecord)
  {
    ErrorRecord(Code(n), Message(n), Kind(n), Suggest(n))
  }

  /**
   * The only name a code of this length and first letter could be: no two
   * registered names agree on both.
   */
  function Candidate(length: nat, first: char): Option<ErrorName> {
    if length == 23 && first == 'S' then Some(ServiceVersionUnknown)
    else if length == 13 && first == 'N' then Some(NetworkError)
    else if length == 19 && first == 'W' then Some(WebsocketNotReady)
    else if length == 13 && first == 'U' then Some(UnknownError)
    else if length == 17 && first == 'U' then Some(UnknownRpcError)
    else if length == 13 && first == 'P' then Some(ParamMissing)
    else if length == 22 && first == 'P' then Some(ParamsLengthMismatch)
    else if length == 19 && first == 'P' then Some(ParamTypeMismatch)
    else if length == 24 && first == 'R' then Some(RpcParamFunctionError)
    else if length == 11 && first == 'R' then Some(RpcTimeout)
    else if length == 13 && first == 'A' then Some(AuthRequired)
    else if length == 20 && first == 'C' then Some(ChannelNameMissing)
    else if length == 22 && first == 'C' then Some(ChannelAppIdMissing)
    else if length == 20 && first == 'S' then Some(ServiceNameMissing)
    else if length == 29 && first == 'S' then Some(ServiceDescriptorLoadError)
    else if length == 16 && first == 'M' then Some(MessageNotJson)
    else if length == 9 && first == 'N' then Some(NoAppId)
    else if length == 19 && first == 'F' then Some(FileParamsMissing)
    else if length == 23 && first == 'D' then Some(DeveloperNotLoggedIn)
    else if length == 12 && first == 'N' then Some(NoDeviceId)
    else if length == 15 && first == 'N' then Some(NoCurrentUser)
    else if length == 22 && first == 'U' then Some(UserNotAuthenticated)
    else if length == 20 && first == 'P' then Some(PicOpNotSupported)
    else if length == 32 && first == 'P' then Some(PushNotificationsNotSupported)
    else if length == 16 && first == 'U' then Some(UnableReadFile)
    else None
  }

  /** `Ext.io.Errors[code]`: the name a code is registered under, if any. */
  function NameOf(code: string): (r: Option<ErrorName>)
    ensures r.Some? ==> Name(r.value) == code
  {
    if code == [] then None
    else
      match Candidate(|code|, code[0])
      case Some(n) => if Name(n) == code then Some(n) else None
      case None => None
  }

  /** The record registered under a code. */
  function Lookup(code: string): (r: Option<ErrorRecord>)
    ensures r.Some? <==> exists n :: Name(n) == code
  {
    match NameOf(code)
    case None => NoSuchName(code); None
    case Some(n) => Some(Entry(n))
  }

  /** The position of a name in the table. */
  function Ordinal(n: ErrorName): nat {
    match n
    case ServiceVersionUnknown => 0
    case NetworkError => 1
    case WebsocketNotReady => 2
    case UnknownError => 3
    case UnknownRpcError => 4
    case ParamMissing => 5
    case ParamsLengthMismatch => 6
    case ParamTypeMismatch => 7
    case RpcParamFunctionError => 8
    case RpcTimeout => 9
    case AuthRequired => 10
    case ChannelNameMissing => 11
    case ChannelAppIdMissing => 12
    case ServiceNameMissing => 13
    case ServiceDescriptorLoadError => 14
    case MessageNotJson => 15
    case NoAppId => 16
    case FileParamsMissing => 17
    case DeveloperNotLoggedIn => 18
    case NoDeviceId => 19
    case NoCurrentUser => 20
    case UserNotAuthenticated => 21
    case PicOpNotSupported => 22
    case PushNotificationsNotSupported => 23
    case UnableReadFile => 24
  }

  /** The `code` field of every record is the name it is registered under. */
  lemma CodeIsName(n: ErrorName)
    ensures Code(n) == Name(n)
  {
  }

  /**
   * Two records carry no kind; five are the service's fault (`sio`); all
   * the others, `RPC_TIMEOUT` among them, are the developer's.
   */
  lemma KindClassification(n: ErrorName)
    ensures Kind(n).None? <==> Unclassified(n)
    ensures Kind(n) == Some("sio") <==> ServiceSide(n)
    ensures Kind(n).Some? ==> Kind(n).value == "sio" || Kind(n).value == "developer"
    ensures !Unclassified(n) && !ServiceSide(n) ==> Kind(n) == Some("developer")
  {
  }

  /** `RPC_TIMEOUT` is the developer's to handle; the two connectivity errors carry no kind. */
  lemma NamedKinds()
    ensures Kind(RpcTimeout) == Some("developer")
    ensures Kind(NetworkError).None? && Kind(WebsocketNotReady).None?
  {
  }

  /** Every registered name leads back to itself, so no two records share a code. */
  lemma Registered(n: ErrorName)
    ensures NameOf(Name(n)) == Some(n)
  {
    if Ordinal(n) < 9 {
      RegisteredEarly(n);
    } else if Ordinal(n) < 17 {
      RegisteredMiddle(n);
    } else {
      RegisteredLate(n);
    }
  }

  lemma RegisteredEarly(n: ErrorName)
    requires Ordinal(n) < 9
    ensures NameOf(Name(n)) == Some(n)
  {
  }

  lemma RegisteredMiddle(n: ErrorName)
    requires 9 <= Ordinal(n) < 17
    ensures NameOf(Name(n)) == Some(n)
  {
  }

  lemma RegisteredLate(n: ErrorName)
    requires 17 <= Ordinal(n)
    ensures NameOf(Name(n)) == Some(n)
  {
  }

  lemma NoSuchName(code: string)
    requires NameOf(code).None?
    ensures forall n :: Name(n) != code
  {
    forall n ensures Name(n) != code {
      Registered(n);
    }
  }

  /** Lookup by code is a function of the code: distinct names have distinct codes. */
  lemma CodesDistinct(n: ErrorName, m: ErrorName)
    ensures Entry(n).code == Entry(m).code ==> n == m
  {
    CodeIsName(n);
    CodeIsName(m);
    Registered(n);
    Registered(m);
  }

  /** Looking up a record's own code finds that record. */
  lemma LookupEntry(n: ErrorName)
    ensures Lookup(Entry(n).code) == Some(Entry(n))
  {
    CodeIsName(n);
    Registered(n);
  }

  /** Whether `p` occurs in `s`. */
  ghost predicate Mentions(s: string, p: string) {
    exists before, after :: s == before + p + after
  }

  /** How a placeholder is written inside a message. */
  function Placeholder(x: string): string {
    ":" + x
  }

  lemma MentionsFront(p: string, s: string)
    ensures Mentions(p + s, p)
  {
    assert p + s == [] + p + s;
  }

  lemma MentionsAfter(h: string, s: string, p: string)
    requires Mentions(s, p)
    ensures Mentions(h + s, p)
  {
    var before, after :| s == before + p + after;
    assert h + s == (h + before) + p + after;
  }

  /** Every placeholder of a template shows up as `:name` in its message. */
  lemma {:induction false} SlotsMentioned(t: seq<Piece>, x: string)
    requires x in Slots(t)
    ensures Mentions(Render(t), Placeholder(x))
  {
    var head := if t[0].Text? then t[0].text else Placeholder(t[0].name);
    assert Render(t) == head + Render(t[1..]);
    if t[0].Slot? && t[0].name == x {
      MentionsFront(Placeholder(x), Render(t[1..]));
    } else {
      assert x in Slots(t[1..]);
      SlotsMentioned(t[1..], x);
      MentionsAfter(head, Render(t[1..]), Placeholder(x));
    }
  }

  /** The placeholders of the parameter errors' templates, in order. */
  lemma ParamMissingSlots()
    ensures Slots(Template(ParamMissing)) == ["name"]
  {
  }

  lemma ParamsLengthMismatchSlots()
    ensures Slots(Template(ParamsLengthMismatch)) == ["actual", "expected"]
  {
  }

  lemma ParamTypeMismatchSlots()
    ensures Slots(Template(ParamTypeMismatch)) == ["name", "expected", "actual"]
  {
  }

  /** `PARAM_MISSING` names the missing parameter. */
  lemma ParamMissingPlaceholders()
    ensures Mentions(Message(ParamMissing), Placeholder("name"))
  {
    ParamMissingSlots();
    SlotsMentioned(Template(ParamMissing), "name");
  }

  /** `PARAMS_LENGTH_MISMATCH` names the actual and the expected count. */
  lemma ParamsLengthMismatchPlaceholders()
    ensures Mentions(Message(ParamsLengthMismatch), Placeholder("actual"))
    ensures Mentions(Message(ParamsLengthMismatch), Placeholder("expected"))
  {
    ParamsLengthMismatchSlots();
    SlotsMentioned(Template(ParamsLengthMismatch), "actual");
    SlotsMentioned(Template(ParamsLengthMismatch), "expected");
  }

  /** `PARAM_TYPE_MISMATCH` names the parameter, the expected and the actual type. */
  lemma ParamTypeMismatchPlaceholders()
    ensures Mentions(Message(ParamTypeMismatch), Placeholder("name"))
    ensures Mentions(Message(ParamTypeMismatch), Placeholder("expected"))
    ensures Mentions(Message(ParamTypeMismatch), Placeholder("actual"))
  {
    ParamTypeMismatchSlots();
    SlotsMentioned(Template(ParamTypeMismatch), "name");
    SlotsMentioned(Template(ParamTypeMismatch), "expected");
    SlotsMentioned(Template(ParamTypeMismatch), "actual");
  }
}
