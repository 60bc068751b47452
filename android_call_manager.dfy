/** The Android registry of native call modules (src/android/CallManager.java):
    a map from call identifier to the module serving that call, and the
    argument check every call action runs before it reaches its module. */
module AndroidCalls {
  import opened Wrappers

  /** What `args.getString(0)` yields for the first argument: a string, a
      null, or a JSONException. */
  datatype StringRead = ReadOk(s: string) | ReadNull | ReadError

  /** The Cordova callback of one action; only the errors it reports matter
      here. */
  class CallbackContext {
    var errors: seq<string>

    constructor ()
      ensures errors == []
    {
      errors := [];
    }

    /** `error(message)`: one more error reported to JavaScript. */
    method Error(message: string)
      modifies this
      ensures errors == old(errors) + [message]
    {
      errors := errors + [message];
    }
  }

  const InvalidArguments: string := "Invalid arguments"

  function NotFoundMessage(callId: string): string
  {
    "Failed to find call for callId: " + callId
  }

  /** The call identifier `checkCallEvent` manages to read from its
      arguments: none for null or empty arguments, or when the first one
      cannot be read as a string or reads as null. */
  function CallIdOf(args: Option<seq<StringRead>>): Option<string>
  {
    if args.None? || |args.value| == 0 then None
    else match args.value[0]
      case ReadOk(s) => Some(s)
      case _ => None
  }

  /** How `checkCallEvent` ends: the registered module, or the one error it
      reports. */
  datatype Verdict<M> = Found(callModule: M) | Failed(message: string)

  /** The reference outcome of `checkCallEvent` on a registry. */
  function CheckOutcome<M>(modules: map<string, M>, args: Option<seq<StringRead>>): Verdict<M>
  {
    match CallIdOf(args)
    case None => Failed(InvalidArguments)
    case Some(id) => if id in modules then Found(modules[id]) else Failed(NotFoundMessage(id))
  }

  /** A module comes back exactly when a readable identifier is registered,
      and it is the module registered under that identifier. */
  lemma FoundIffRegistered<M>(modules: map<string, M>, args: Option<seq<StringRead>>)
    ensures CheckOutcome(modules, args).Found? <==> CallIdOf(args).Some? && CallIdOf(args).value in modules
    ensures CheckOutcome(modules, args).Found? ==>
              CheckOutcome(modules, args).callModule == modules[CallIdOf(args).value]
  {
  }

  /** Null or empty arguments, and a first argument that is null or cannot
      be read, are all reported as "Invalid arguments". */
  lemma InvalidArgumentCases<M>(modules: map<string, M>, args: Option<seq<StringRead>>)
    requires args.None? || |args.value| == 0 || args.value[0] == ReadNull || args.value[0] == ReadError
    ensures CheckOutcome(modules, args) == Failed("Invalid arguments")
  {
  }

  /** A readable identifier that is not registered is reported with the
      identifier in the message. */
  lemma UnregisteredCase<M>(modules: map<string, M>, id: string, rest: seq<StringRead>)
    requires id !in modules
    ensures CheckOutcome(modules, Some([ReadOk(id)] + rest)) == Failed("Failed to find call for callId: " + id)
  {
  }

  /** The two error messages can always be told apart. */
  lemma MessagesDistinct(id: string)
    ensures NotFoundMessage(id) != InvalidArguments
  {
    assert NotFoundMessage(id)[0] == 'F';
    assert InvalidArguments[0] == 'I';
  }

  /** After `addNewCall(id, m)` the identifier resolves to `m`, whatever was
      registered under it before. */
  lemma AddThenFound<M>(modules: map<string, M>, id: string, m: M, rest: seq<StringRead>)
    ensures CheckOutcome(modules[id := m], Some([ReadOk(id)] + rest)) == Found(m)
  {
  }

  /** After `callHasEnded(id)` the identifier no longer resolves, and every
      other identifier resolves as before. */
  lemma EndedThenNotFound<M>(modules: map<string, M>, id: string, args: Option<seq<StringRead>>)
    ensures CallIdOf(args) == Some(id) ==>
              CheckOutcome(modules - {id}, args) == Failed(NotFoundMessage(id))
    ensures CallIdOf(args) != Some(id) ==>
              CheckOutcome(modules - {id}, args) == CheckOutcome(modules, args)
  {
  }

  class CallManager<M> {
    var callModules: map<string, M>

    constructor ()
      ensures callModules == map[]
    {
      callModules := map[];
    }

    /** `addNewCall(callId, callModule)`: HashMap `put`. */
    method AddNewCall(callId: string, callModule: M)
      modifies this
      ensures callModules == old(callModules)[callId := callModule]
    {
      callModules := callModules[callId := callModule];
    }

    /** `callHasEnded(callId)`: HashMap `remove`; other entries stay. */
    method CallHasEnded(callId: string)
      modifies this
      ensures callModules == old(callModules) - {callId}
    {
      callModules := callModules - {callId};
    }

    /** `checkCallEvent(args, callbackContext)`: the registered module, or
        null with exactly one error reported; nothing is reported on success
        and the registry is only read. */
    method CheckCallEvent(args: Option<seq<StringRead>>, callbackContext: CallbackContext)
      returns (r: Option<M>)
      modifies callbackContext
      ensures CheckOutcome(callModules, args).Found? ==>
                r == Some(CheckOutcome(callModules, args).callModule)
                && callbackContext.errors == old(callbackContext.errors)
      ensures CheckOutcome(callModules, args).Failed? ==>
                r == None
                && callbackContext.errors == old(callbackContext.errors) + [CheckOutcome(callModules, args).message]
    {
      if args.None? || |args.value| == 0 {
        callbackContext.Error(InvalidArguments);
        return None;
      }
      var callId: Option<string>;
      match args.value[0] {
        case ReadError =>
          callbackContext.Error(InvalidArguments);
          return None;
        case ReadNull =>
          callId := None;
        case ReadOk(s) =>
          callId := Some(s);
      }
      if callId.None? {
        callbackContext.Error(InvalidArguments);
        return None;
      }
      var callModule := if callId.value in callModules then Some(callModules[callId.value]) else None;
      if callModule.None? {
        callbackContext.Error(NotFoundMessage(callId.value));
      }
      r := callModule;
    }
  }
}
