/**
 * The RMI registry client of remote-method-guesser: how a registry method name
 * is turned into a call under either wire calling convention, how the call
 * arguments are packed, and how each probe turns the single outcome of its
 * call into a report. The network call itself is the function `server` of an
 * Endpoint object; what the probes print is represented by the Report they
 * return.
 */
module RegistryClient {
  import opened JavaStrings

  /** Java's long. */
  newtype int64 = x: int | -0x8000_0000_0000_0000 <= x < 0x8000_0000_0000_0000

  // ---------------------------------------------------------------------------
  // Name tables and calling conventions
  // ---------------------------------------------------------------------------

  /** The methods of java.rmi.registry.Registry, in the order of their legacy call indices. */
  const RegistryMethods: seq<string> := ["bind", "list", "lookup", "rebind", "unbind"]

  /** Number of parameters of each registry method, in the order of RegistryMethods:
      bind(String, Remote), list(), lookup(String), rebind(String, Remote), unbind(String). */
  const RegistryArity: seq<nat> := [2, 0, 1, 2, 1]

  /** The interface hash sent with every call under the legacy convention. */
  const InterfaceHash: int64 := 4905912898345647071

  /** ObjID.REGISTRY_ID, the object number every registry call is addressed to. */
  const RegistryId: int := 0

  /** getCallByName: the legacy call index of a registry method; None stands for internalError. */
  function CallIndex(name: string): (r: Option<int>)
    ensures r.Some? <==> name in RegistryMethods
    ensures r.Some? ==> 0 <= r.value < |RegistryMethods| && RegistryMethods[r.value] == name
  {
    if name == "bind" then Some(0)
    else if name == "list" then Some(1)
    else if name == "lookup" then Some(2)
    else if name == "rebind" then Some(3)
    else if name == "unbind" then Some(4)
    else None
  }

  /** getHashByName: the per-method hash sent under the bypass convention; None stands for internalError. */
  function MethodHash(name: string): (r: Option<int64>)
    ensures r.Some? <==> name in RegistryMethods
    ensures r.Some? ==> r.value != InterfaceHash
  {
    if name == "bind" then Some(7583982177005850366)
    else if name == "list" then Some(2571371476350237748)
    else if name == "lookup" then Some(-7538657168040752697)
    else if name == "rebind" then Some(-8381844669958460146)
    else if name == "unbind" then Some(7305022919901907578)
    else None
  }

  /** Distinct registry methods have distinct method hashes. */
  lemma MethodHashInjective(a: string, b: string)
    requires a in RegistryMethods && b in RegistryMethods && a != b
    ensures MethodHash(a) != MethodHash(b)
  {
  }

  /** Where a call is sent: object number, operation number and hash. */
  datatype CallTarget = CallTarget(objId: int, callIndex: int, hash: int64)

  /**
   * The address registryCall uses: under the bypass convention the operation
   * number is -1 and the hash is the method's own; under the legacy convention
   * the operation number is the call index and the hash is the interface hash.
   */
  function Target(name: string, bypass: bool): (r: Option<CallTarget>)
    ensures r.Some? <==> name in RegistryMethods
    ensures r.Some? ==> r.value.objId == RegistryId
    ensures r.Some? ==> (r.value.callIndex < 0 <==> bypass)
    ensures r.Some? && bypass ==> r.value == CallTarget(RegistryId, -1, MethodHash(name).value)
    ensures r.Some? && !bypass ==> r.value == CallTarget(RegistryId, CallIndex(name).value, InterfaceHash)
  {
    if name !in RegistryMethods then None
    else if bypass then Some(CallTarget(RegistryId, -1, MethodHash(name).value))
    else Some(CallTarget(RegistryId, CallIndex(name).value, InterfaceHash))
  }

  /** The first name among names whose method hash is h. */
  function NameWithHash(h: int64, names: seq<string>): (r: Option<string>)
    ensures r.Some? ==> r.value in names && MethodHash(r.value) == Some(h)
  {
    if names == [] then None
    else if MethodHash(names[0]) == Some(h) then Some(names[0])
    else NameWithHash(h, names[1..])
  }

  /**
   * How the receiving registry identifies the method of an incoming call:
   * a negative operation number selects the method by its hash, any other
   * operation number is a call index that is valid only with the interface hash.
   * The second component tells which convention was recognised.
   */
  function Resolve(t: CallTarget): Option<(string, bool)> {
    if t.objId != RegistryId then None
    else if t.callIndex < 0 then
      match NameWithHash(t.hash, RegistryMethods)
      case Some(name) => Some((name, true))
      case None => None
    else if t.hash == InterfaceHash && t.callIndex < |RegistryMethods| then
      Some((RegistryMethods[t.callIndex], false))
    else None
  }

  lemma {:induction false} NameWithHashFinds(name: string, names: seq<string>)
    requires name in names
    requires forall n :: n in names ==> n in RegistryMethods
    ensures NameWithHash(MethodHash(name).value, names) == Some(name)
  {
    if names[0] != name {
      MethodHashInjective(names[0], name);
      NameWithHashFinds(name, names[1..]);
    }
  }

  /** Both conventions address the method they were built from, and the receiver can tell them apart. */
  lemma TargetRoundTrip(name: string, bypass: bool)
    requires name in RegistryMethods
    ensures Resolve(Target(name, bypass).value) == Some((name, bypass))
  {
    if bypass {
      NameWithHashFinds(name, RegistryMethods);
    }
  }

  // ---------------------------------------------------------------------------
  // Call arguments
  // ---------------------------------------------------------------------------

  /** The runtime values the core puts into a call; Payload stands for an opaque gadget object. */
  datatype Value = Str(s: string) | Int(i: int) | Payload(className: string)

  /** The declared class each argument is written as (MethodArguments.add's second argument). */
  datatype ArgClass = StringClass | IntegerClass | ObjectClass

  datatype Argument = Argument(value: Value, declared: ArgClass)

  /** payloadObject.getClass().getName() */
  function ClassName(v: Value): string {
    match v
    case Str(_) => "java.lang.String"
    case Int(_) => "java.lang.Integer"
    case Payload(c) => c
  }

  /** The registry methods that take an argument the payload can be put into. */
  predicate Packable(name: string) {
    name == "bind" || name == "rebind" || name == "lookup" || name == "unbind"
  }

  /**
   * packArgsByName: bind and rebind get the bound name "rmg" and the payload,
   * lookup and unbind get the payload alone; None stands for internalError.
   */
  function PackArgs(name: string, payload: Value): (r: Option<seq<Argument>>)
    ensures r.Some? <==> Packable(name)
    ensures r.Some? ==> name in RegistryMethods
    ensures r.Some? ==> forall i :: 0 <= i < |RegistryMethods| && RegistryMethods[i] == name ==>
                          |r.value| == RegistryArity[i]
    ensures r.Some? ==> |r.value| > 0 && r.value[|r.value| - 1] == Argument(payload, ObjectClass)
    ensures r.Some? && |r.value| == 2 ==> r.value[0] == Argument(Str("rmg"), StringClass)
  {
    if name == "bind" || name == "rebind" then
      Some([Argument(Str("rmg"), StringClass), Argument(payload, ObjectClass)])
    else if name == "lookup" || name == "unbind" then
      Some([Argument(payload, ObjectClass)])
    else None
  }

  // ---------------------------------------------------------------------------
  // Call outcomes
  // ---------------------------------------------------------------------------

  /**
   * The exception classes the probes distinguish. Each kind stands for its
   * class together with every subclass not listed here of its own (an
   * IllegalArgumentException may be a NumberFormatException). OtherException
   * names an Exception outside the listed classes, never an Error;
   * OtherError names any java.lang.Error other than ClassFormatError.
   */
  datatype ExceptionKind =
    | AccessException          // java.rmi.AccessException, a RemoteException
    | NoSuchObjectException    // java.rmi.NoSuchObjectException, a RemoteException
    | OtherRemoteException(name: string)   // java.rmi.RemoteException or another subclass of it
    | NotBoundException
    | AlreadyBoundException
    | ClassNotFoundException
    | ClassCastException
    | InvalidClassException
    | MalformedURLException
    | IllegalArgumentException
    | AccessControlException
    | ClassFormatError         // a java.lang.Error; UnsupportedClassVersionError is a subclass
    | UnsupportedClassVersionError
    | OtherError(name: string)  // any other java.lang.Error, e.g. NoClassDefFoundError or StackOverflowError
    | OtherException(name: string)

  /** `instanceof java.rmi.RemoteException` */
  predicate IsRemoteException(k: ExceptionKind) {
    k.AccessException? || k.NoSuchObjectException? || k.OtherRemoteException?
  }

  /** A java.lang.Error: not caught by `catch (Exception e)`. */
  predicate IsError(k: ExceptionKind) {
    IsClassFormatError(k) || k.OtherError?
  }

  /** `instanceof java.lang.ClassFormatError` (UnsupportedClassVersionError is a subclass). */
  predicate IsClassFormatError(k: ExceptionKind) {
    k.ClassFormatError? || k.UnsupportedClassVersionError?
  }

  /** A throwable: its class and its message (None for a null message). */
  datatype Fault = Fault(kind: ExceptionKind, message: Option<string>)

  /**
   * What genericCall does: return normally, throw a ServerException whose
   * root cause (ExceptionHandler.getCause) is the server-side fault, or throw
   * some other exception locally.
   */
  datatype Outcome = Returned | ServerFault(cause: Fault) | LocalFault(error: Fault)

  predicate HasMessage(f: Fault, sub: string) {
    f.message.Some? && Contains(f.message.value, sub)
  }

  /** Result of `t instanceof K && t.getMessage().contains(sub)`: a null message throws. */
  datatype Test = Holds | Fails | Throws

  function MessageTest(isKind: bool, f: Fault, sub: string): (r: Test)
    ensures r == Holds <==> isKind && HasMessage(f, sub)
    ensures r == Throws <==> isKind && f.message.None?
  {
    if !isKind then Fails
    else if f.message.None? then Throws
    else if Contains(f.message.value, sub) then Holds
    else Fails
  }

  /**
   * registryCall catches a local NoSuchObjectException and reports it through
   * ExceptionHandler.noSuchObjectException with exit == false, so the probe
   * sees a normal return; every other outcome reaches the probe unchanged.
   */
  function Surfaced(o: Outcome): (r: Outcome)
    ensures r.Returned? <==> o.Returned? || (o.LocalFault? && o.error.kind == NoSuchObjectException)
    ensures !r.Returned? ==> r == o
  {
    if o.LocalFault? && o.error.kind == NoSuchObjectException then Returned else o
  }

  // ---------------------------------------------------------------------------
  // Reports and the decision tables of the probes
  // ---------------------------------------------------------------------------

  /** What a probe or registry operation concludes (and prints). */
  datatype Report =
    | NoException             // the call returned normally
    | Vulnerable              // Logger.statusVulnerable
    | NonVulnerable           // Logger.statusOk
    | CurrentDefault          // Logger.statusDefault
    | NonDefault              // Logger.statusNonDefault
    | Outdated                // Logger.statusOutdated
    | Undecided               // Logger.statusUndecided
    | NonLocalhost            // ExceptionHandler.nonLocalhost
    | SingleEntryRegistry     // ExceptionHandler.singleEntryRegistry
    | AlreadyBound            // ExceptionHandler.alreadyBoundException
    | NotBound                // unbindObject: the name was not bound
    | StubClassMissing        // bind accepted, but RMIServerImpl_Stub was not found
    | FilterRejected          // ExceptionHandler.jep290
    | GadgetClassNotFound     // ExceptionHandler.deserializeClassNotFound
    | GadgetClassCast(lookup: bool)     // ExceptionHandler.deserlializeClassCast
    | AnTrinhPatched          // "Method is not Remote" after a gadget call
    | UnknownDeserialization  // ExceptionHandler.unknownDeserializationException
    | InvalidClass            // ExceptionHandler.invalidClass
    | UnsupportedClassVersion // ExceptionHandler.unsupportedClassVersion
    | CodebaseSecurityManager // ExceptionHandler.codebaseSecurityManager
    | CodebaseClassNotFound   // ExceptionHandler.codebaseClassNotFound
    | CodebaseClassCast(lookup: bool)   // ExceptionHandler.codebaseClassCast
    | AccessControl           // ExceptionHandler.accessControl
    | Unexpected              // ExceptionHandler.unexpectedException
    | Propagated              // an exception escapes the operation (a null message, or a java.lang.Error)
    | Skipped                 // the probe cannot work on this registry and sends nothing
    | InternalError           // ExceptionHandler.internalError: no argument layout for the method

  /** The catch clause for exceptions no earlier clause matched: `catch (Exception e)`. */
  function Fallback(f: Fault): (r: Report)
    ensures r == Propagated <==> IsError(f.kind)
    ensures !IsError(f.kind) ==> r == Unexpected
  {
    if IsError(f.kind) then Propagated else Unexpected
  }

  /** One `else if` of a catch chain whose condition is a message test: a null message escapes. */
  function Branch(test: Test, onHolds: Report, orElse: Report): (r: Report)
    ensures test == Throws ==> r == Propagated
    ensures test == Holds ==> r == onHolds
    ensures test == Fails ==> r == orElse
  {
    match test
    case Throws => Propagated
    case Holds => onHolds
    case Fails => orElse
  }

  /** The two access-denied causes every registry write checks first, in source order. */
  function AccessDenied(t: Fault, nonLocal: Report, orElse: Report): (r: Report)
    ensures t.kind != AccessException ==> r == orElse
    ensures t.kind == AccessException && t.message.None? ==> r == Propagated
    ensures HasMessage(t, "non-local host") && t.kind == AccessException ==> r == nonLocal
    ensures (t.kind == AccessException && !HasMessage(t, "non-local host")
             && HasMessage(t, "Cannot modify this registry")) ==> r == SingleEntryRegistry
    ensures (t.kind == AccessException && t.message.Some? && !HasMessage(t, "non-local host")
             && !HasMessage(t, "Cannot modify this registry")) ==> r == orElse
  {
    Branch(MessageTest(t.kind == AccessException, t, "non-local host"), nonLocal,
      Branch(MessageTest(t.kind == AccessException, t, "Cannot modify this registry"), SingleEntryRegistry,
        orElse))
  }

  /** enumerateStringMarshalling: the report for the outcome of lookup(Integer 0). */
  function StringMarshallingReport(o: Outcome): (r: Report)
    ensures r == CurrentDefault <==>
      o.ServerFault? && o.cause.kind == ClassCastException
      && HasMessage(o.cause, "Cannot cast an object to java.lang.String")
    ensures r == Undecided <==> o.ServerFault? && o.cause.kind == InvalidClassException
    ensures r == Outdated <==>
      (o.ServerFault? && o.cause.kind == ClassNotFoundException
       && HasMessage(o.cause, "DefinitelyNonExistingClass"))
      || (o.LocalFault? && o.error.kind == ClassCastException
          && HasMessage(o.error, "java.lang.Integer cannot be cast to java.lang.String"))
    ensures r == NoException <==> o.Returned?
    ensures r in {CurrentDefault, Undecided, Outdated, NoException, Unexpected, Propagated}
  {
    match o
    case Returned => NoException
    case ServerFault(t) =>
      Branch(MessageTest(t.kind == ClassCastException, t, "Cannot cast an object to java.lang.String"), CurrentDefault,
        if t.kind == InvalidClassException then Undecided
        else Branch(MessageTest(t.kind == ClassNotFoundException, t, "DefinitelyNonExistingClass"), Outdated,
          Unexpected))
    case LocalFault(e) =>
      if e.kind == ClassCastException then
        Branch(MessageTest(true, e, "java.lang.Integer cannot be cast to java.lang.String"), Outdated, Unexpected)
      else Fallback(e)
  }

  /** enumCodebase: the report for the outcome of the call with the "InvalidURL" annotation. */
  function CodebaseReport(o: Outcome): (r: Report)
    ensures r == NonDefault <==> o.ServerFault? && o.cause.kind == MalformedURLException
    ensures r == CurrentDefault <==>
      (o.ServerFault? && o.cause.kind == ClassCastException)
      || (o.LocalFault? && o.error.kind == ClassCastException)
    ensures r == NonLocalhost <==>
      o.ServerFault? && o.cause.kind == AccessException && HasMessage(o.cause, "non-local host")
    ensures r == NoException <==> o.Returned?
    ensures r in {NonDefault, CurrentDefault, NonLocalhost, NoException, Unexpected, Propagated}
  {
    match o
    case Returned => NoException
    case ServerFault(t) =>
      if t.kind == MalformedURLException then NonDefault
      else if t.kind == ClassCastException then CurrentDefault
      else Branch(MessageTest(t.kind == AccessException, t, "non-local host"), NonLocalhost, Unexpected)
    case LocalFault(e) =>
      if e.kind == ClassCastException then CurrentDefault else Fallback(e)
  }

  /** enumLocalhostBypass: the report for the outcome of unbind sent under the bypass convention. */
  function LocalhostBypassReport(o: Outcome): (r: Report)
    ensures r == NonVulnerable <==>
      o.ServerFault? && o.cause.kind == AccessException && HasMessage(o.cause, "non-local host")
    ensures r == SingleEntryRegistry <==>
      o.ServerFault? && o.cause.kind == AccessException && !HasMessage(o.cause, "non-local host")
      && HasMessage(o.cause, "Cannot modify this registry")
    ensures r == Vulnerable <==> o.LocalFault? && o.error.kind == NotBoundException
    ensures r == NoException <==> o.Returned?
    ensures r in {NonVulnerable, SingleEntryRegistry, Vulnerable, NoException, Unexpected, Propagated}
  {
    match o
    case Returned => NoException
    case ServerFault(t) => AccessDenied(t, NonVulnerable, Unexpected)
    case LocalFault(e) =>
      if e.kind == NotBoundException then Vulnerable else Fallback(e)
  }

  /**
   * enumJEP290Bypass: the report for the outcome of the An Trinh gadget call.
   * The two AccessException checks come before the RemoteException branch, so
   * an access-denied cause is never read as "patched".
   */
  function Jep290BypassReport(o: Outcome): (r: Report)
    ensures r == NonLocalhost <==>
      o.ServerFault? && o.cause.kind == AccessException && HasMessage(o.cause, "non-local host")
    ensures r == SingleEntryRegistry <==>
      o.ServerFault? && o.cause.kind == AccessException && !HasMessage(o.cause, "non-local host")
      && HasMessage(o.cause, "Cannot modify this registry")
    ensures r == NonVulnerable <==>
      o.ServerFault? && IsRemoteException(o.cause.kind)
      && !(o.cause.kind == AccessException
           && (o.cause.message.None? || HasMessage(o.cause, "non-local host")
               || HasMessage(o.cause, "Cannot modify this registry")))
    ensures r == Vulnerable <==> o.LocalFault? && o.error.kind == IllegalArgumentException
    ensures r == NoException <==> o.Returned?
    ensures r in {NonLocalhost, SingleEntryRegistry, NonVulnerable, Vulnerable, NoException, Unexpected, Propagated}
  {
    match o
    case Returned => NoException
    case ServerFault(t) =>
      AccessDenied(t, NonLocalhost, if IsRemoteException(t.kind) then NonVulnerable else Unexpected)
    case LocalFault(e) =>
      if e.kind == IllegalArgumentException then Vulnerable else Fallback(e)
  }

  /** bindObject (rebind == false) and rebindObject (rebind == true). */
  function BindReport(o: Outcome, rebind: bool): (r: Report)
    ensures r == NoException <==> o.Returned?
    ensures r == StubClassMissing <==> o.ServerFault? && o.cause.kind == ClassNotFoundException
    ensures r == AlreadyBound <==>
      !rebind && ((o.ServerFault? && o.cause.kind == AlreadyBoundException)
                  || (o.LocalFault? && o.error.kind == AlreadyBoundException))
    ensures r == NonLocalhost <==>
      o.ServerFault? && o.cause.kind == AccessException && HasMessage(o.cause, "non-local host")
    ensures r == SingleEntryRegistry <==>
      o.ServerFault? && o.cause.kind == AccessException && !HasMessage(o.cause, "non-local host")
      && HasMessage(o.cause, "Cannot modify this registry")
    ensures r in {NoException, NonLocalhost, SingleEntryRegistry, StubClassMissing, AlreadyBound, Unexpected, Propagated}
  {
    match o
    case Returned => NoException
    case ServerFault(t) =>
      AccessDenied(t, NonLocalhost,
        if t.kind == ClassNotFoundException then StubClassMissing
        else if !rebind && t.kind == AlreadyBoundException then AlreadyBound
        else Unexpected)
    case LocalFault(e) =>
      if !rebind && e.kind == AlreadyBoundException then AlreadyBound else Fallback(e)
  }

  /** unbindObject */
  function UnbindReport(o: Outcome): (r: Report)
    ensures r == NoException <==> o.Returned?
    ensures r == NotBound <==> o.LocalFault? && o.error.kind == NotBoundException
    ensures r == NonLocalhost <==>
      o.ServerFault? && o.cause.kind == AccessException && HasMessage(o.cause, "non-local host")
    ensures r == SingleEntryRegistry <==>
      o.ServerFault? && o.cause.kind == AccessException && !HasMessage(o.cause, "non-local host")
      && HasMessage(o.cause, "Cannot modify this registry")
    ensures r in {NoException, NotBound, NonLocalhost, SingleEntryRegistry, Unexpected, Propagated}
  {
    match o
    case Returned => NoException
    case ServerFault(t) => AccessDenied(t, NonLocalhost, Unexpected)
    case LocalFault(e) =>
      if e.kind == NotBoundException then NotBound else Fallback(e)
  }

  /** gadgetCall: the deserialization attack with a user-supplied payload. */
  function GadgetReport(o: Outcome, regMethod: string): (r: Report)
    ensures r == FilterRejected <==> o.ServerFault? && o.cause.kind == InvalidClassException
    ensures r == GadgetClassNotFound <==> o.ServerFault? && o.cause.kind == ClassNotFoundException
    ensures r.GadgetClassCast? <==>
      (o.ServerFault? && o.cause.kind == ClassCastException)
      || (o.LocalFault? && o.error.kind == ClassCastException)
    ensures r.GadgetClassCast? ==> r.lookup == (regMethod == "lookup")
    ensures r == AnTrinhPatched <==>
      o.ServerFault? && IsRemoteException(o.cause.kind) && HasMessage(o.cause, "Method is not Remote")
    ensures r == UnknownDeserialization <==>
      o.ServerFault? && o.cause.kind != InvalidClassException && o.cause.kind != ClassNotFoundException
      && o.cause.kind != ClassCastException
      && !(IsRemoteException(o.cause.kind) && (o.cause.message.None? || HasMessage(o.cause, "Method is not Remote")))
    ensures r == NoException <==> o.Returned?
    ensures r.GadgetClassCast?
            || r in {NoException, FilterRejected, GadgetClassNotFound, AnTrinhPatched, UnknownDeserialization, Unexpected, Propagated}
  {
    match o
    case Returned => NoException
    case ServerFault(t) =>
      if t.kind == InvalidClassException then FilterRejected
      else if t.kind == ClassNotFoundException then GadgetClassNotFound
      else if t.kind == ClassCastException then GadgetClassCast(regMethod == "lookup")
      else Branch(MessageTest(IsRemoteException(t.kind), t, "Method is not Remote"), AnTrinhPatched,
        UnknownDeserialization)
    case LocalFault(e) =>
      if e.kind == ClassCastException then GadgetClassCast(regMethod == "lookup") else Fallback(e)
  }

  /** codebaseCall: the payload sent with a user-chosen codebase annotation. */
  function CodebaseCallReport(o: Outcome, regMethod: string, className: string): (r: Report)
    ensures r == InvalidClass <==> o.ServerFault? && o.cause.kind == InvalidClassException
    ensures r == UnsupportedClassVersion <==> o.ServerFault? && IsClassFormatError(o.cause.kind)
    ensures r == CodebaseSecurityManager <==>
      o.ServerFault? && o.cause.kind == ClassNotFoundException
      && HasMessage(o.cause, "RMI class loader disabled")
    ensures r == CodebaseClassNotFound <==>
      o.ServerFault? && o.cause.kind == ClassNotFoundException
      && !HasMessage(o.cause, "RMI class loader disabled") && HasMessage(o.cause, className)
    ensures r.CodebaseClassCast? <==>
      (o.ServerFault? && o.cause.kind == ClassCastException)
      || (o.LocalFault? && o.error.kind == ClassCastException)
    ensures r.CodebaseClassCast? ==> r.lookup == (regMethod == "lookup")
    ensures r == AccessControl <==> o.ServerFault? && o.cause.kind == AccessControlException
    ensures r == NoException <==> o.Returned?
    ensures r.CodebaseClassCast?
            || r in {NoException, InvalidClass, UnsupportedClassVersion, CodebaseSecurityManager, CodebaseClassNotFound,
                     AccessControl, Unexpected, Propagated}
  {
    match o
    case Returned => NoException
    case ServerFault(t) =>
      if t.kind == InvalidClassException then InvalidClass
      else if IsClassFormatError(t.kind) then UnsupportedClassVersion
      else
        Branch(MessageTest(t.kind == ClassNotFoundException, t, "RMI class loader disabled"), CodebaseSecurityManager,
          Branch(MessageTest(t.kind == ClassNotFoundException, t, className), CodebaseClassNotFound,
            if t.kind == ClassCastException then CodebaseClassCast(regMethod == "lookup")
            else if t.kind == AccessControlException then AccessControl
            else Unexpected))
    case LocalFault(e) =>
      if e.kind == ClassCastException then CodebaseClassCast(regMethod == "lookup") else Fallback(e)
  }

  /** Short-circuit of enumCodebase and enumJEP290Bypass: a registry that reads Strings with
      readString() ignores everything a lookup argument could carry. */
  predicate LookupUseless(marshal: bool, regMethod: string): (r: bool)
    ensures r <==> !marshal && CallIndex(regMethod) == Some(2)
    ensures r ==> Packable(regMethod) && |PackArgs(regMethod, Int(0)).value| == 1
  {
    !marshal && regMethod == "lookup"
  }

  // ---------------------------------------------------------------------------
  // The transport, the codebase override and the client
  // ---------------------------------------------------------------------------

  /** One call as genericCall sends it; codebase is the annotation override the malicious stream applies. */
  datatype Call = Call(target: CallTarget, args: seq<Argument>, maliciousStream: bool, codebase: Option<string>)

  /** The call registryCall sends. */
  function RegistryCallFor(name: string, args: seq<Argument>, maliciousStream: bool, bypass: bool,
                           location: Option<string>): Call
    requires name in RegistryMethods
  {
    Call(Target(name, bypass).value, args, maliciousStream, if maliciousStream then location else None)
  }

  /** The argument enumLocalhostBypass unbinds: a name no registry should hold. */
  const UnlikelyName: string := "If this name exists on the registry, it is definitely the maintainers fault..."

  /**
   * RMIWhisperer: the connection to one endpoint. The remote side is the
   * function `server` from the call sent to its outcome; every call sent is
   * appended to `sent`.
   */
  class Endpoint {
    const server: Call -> Outcome
    var sent: seq<Call>

    constructor (server: Call -> Outcome)
      ensures this.server == server && sent == []
    {
      this.server := server;
      sent := [];
    }

    method GenericCall(call: Call) returns (o: Outcome)
      modifies this
      ensures sent == old(sent) + [call]
      ensures o == server(call)
    {
      sent := sent + [call];
      o := server(call);
    }
  }

  /** The static default location of MaliciousOutputStream; None when reset. */
  class CodebaseOverride {
    var location: Option<string>

    constructor ()
      ensures location == None
    {
      location := None;
    }

    method SetDefaultLocation(url: string)
      modifies this
      ensures location == Some(url)
    {
      location := Some(url);
    }

    method ResetDefaultLocation()
      modifies this
      ensures location == None
    {
      location := None;
    }
  }

  class Client {
    const rmi: Endpoint
    /** MaliciousOutputStream's global state, shared by every client. */
    const stream: CodebaseOverride

    constructor (rmi: Endpoint, stream: CodebaseOverride)
      ensures this.rmi == rmi && this.stream == stream
    {
      this.rmi := rmi;
      this.stream := stream;
    }

    /** registryCall: pick the calling convention, send one call, surface its outcome. */
    method RegistryCall(callName: string, args: seq<Argument>, maliciousStream: bool, bypass: bool)
      returns (o: Outcome)
      requires callName in RegistryMethods
      modifies rmi
      ensures rmi.sent == old(rmi.sent) + [RegistryCallFor(callName, args, maliciousStream, bypass, stream.location)]
      ensures o == Surfaced(rmi.server(RegistryCallFor(callName, args, maliciousStream, bypass, stream.location)))
    {
      var target: CallTarget;
      if bypass {
        target := CallTarget(RegistryId, -1, MethodHash(callName).value);
      } else {
        target := CallTarget(RegistryId, CallIndex(callName).value, InterfaceHash);
      }
      var codebase := if maliciousStream then stream.location else None;
      var raw := rmi.GenericCall(Call(target, args, maliciousStream, codebase));
      o := Surfaced(raw);
    }

    /** bindObject */
    method BindObject(boundName: string, payload: Value, localhostBypass: bool) returns (report: Report)
      modifies rmi
      ensures var call := RegistryCallFor("bind", [Argument(Str(boundName), StringClass), Argument(payload, ObjectClass)],
                                          false, localhostBypass, None);
              rmi.sent == old(rmi.sent) + [call] && report == BindReport(Surfaced(rmi.server(call)), false)
    {
      var args := [Argument(Str(boundName), StringClass), Argument(payload, ObjectClass)];
      var o := RegistryCall("bind", args, false, localhostBypass);
      report := BindReport(o, false);
    }

    /** rebindObject */
    method RebindObject(boundName: string, payload: Value, localhostBypass: bool) returns (report: Report)
      modifies rmi
      ensures var call := RegistryCallFor("rebind", [Argument(Str(boundName), StringClass), Argument(payload, ObjectClass)],
                                          false, localhostBypass, None);
              rmi.sent == old(rmi.sent) + [call] && report == BindReport(Surfaced(rmi.server(call)), true)
    {
      var args := [Argument(Str(boundName), StringClass), Argument(payload, ObjectClass)];
      var o := RegistryCall("rebind", args, false, localhostBypass);
      report := BindReport(o, true);
    }

    /** unbindObject */
    method UnbindObject(boundName: string, localhostBypass: bool) returns (report: Report)
      modifies rmi
      ensures var call := RegistryCallFor("unbind", [Argument(Str(boundName), StringClass)], false, localhostBypass, None);
              rmi.sent == old(rmi.sent) + [call] && report == UnbindReport(Surfaced(rmi.server(call)))
    {
      var args := [Argument(Str(boundName), StringClass)];
      var o := RegistryCall("unbind", args, false, localhostBypass);
      report := UnbindReport(o);
    }

    /**
     * enumCodebase: unless the lookup short-circuit applies, set the codebase
     * override to "InvalidURL", send the chosen method with Integer 0 through
     * the malicious stream, classify, and reset the override on every path.
     */
    method EnumCodebase(marshal: bool, regMethod: string, localhostBypass: bool) returns (report: Report)
      modifies rmi, stream
      ensures LookupUseless(marshal, regMethod) ==>
                report == Skipped && rmi.sent == old(rmi.sent) && stream.location == old(stream.location)
      ensures !LookupUseless(marshal, regMethod) ==> stream.location == None
      ensures !LookupUseless(marshal, regMethod) && !Packable(regMethod) ==>
                report == InternalError && rmi.sent == old(rmi.sent)
      ensures !LookupUseless(marshal, regMethod) && Packable(regMethod) ==>
                var call := RegistryCallFor(regMethod, PackArgs(regMethod, Int(0)).value, true, localhostBypass,
                                            Some("InvalidURL"));
                rmi.sent == old(rmi.sent) + [call] && report == CodebaseReport(Surfaced(rmi.server(call)))
    {
      if !marshal && regMethod == "lookup" {
        return Skipped;
      }
      stream.SetDefaultLocation("InvalidURL");
      var args := PackArgs(regMethod, Int(0));
      if args.None? {
        report := InternalError;
      } else {
        var o := RegistryCall(regMethod, args.value, true, localhostBypass);
        report := CodebaseReport(o);
      }
      stream.ResetDefaultLocation();
    }

    /**
     * enumerateStringMarshalling: send lookup(Integer 0) through the malicious
     * stream under the legacy convention; marshal becomes true exactly when the
     * server is found to read Strings with readObject().
     */
    method EnumerateStringMarshalling() returns (marshal: bool, report: Report)
      modifies rmi
      ensures var call := RegistryCallFor("lookup", [Argument(Int(0), IntegerClass)], true, false, stream.location);
              rmi.sent == old(rmi.sent) + [call]
              && report == StringMarshallingReport(Surfaced(rmi.server(call)))
      ensures marshal <==> report == Outdated
    {
      marshal := false;
      var args := [Argument(Int(0), IntegerClass)];
      var o := RegistryCall("lookup", args, true, false);
      report := StringMarshallingReport(o);
      if report == Outdated {
        marshal := true;
      }
    }

    /** enumLocalhostBypass: unbind a name that cannot exist, under the bypass convention. */
    method EnumLocalhostBypass() returns (report: Report)
      modifies rmi
      ensures var call := RegistryCallFor("unbind", [Argument(Str(UnlikelyName), StringClass)], false, true, None);
              rmi.sent == old(rmi.sent) + [call] && report == LocalhostBypassReport(Surfaced(rmi.server(call)))
    {
      var args := [Argument(Str(UnlikelyName), StringClass)];
      var o := RegistryCall("unbind", args, false, true);
      report := LocalhostBypassReport(o);
    }

    /**
     * enumJEP290Bypass: unless the lookup short-circuit applies, send the An
     * Trinh gadget (built elsewhere with the invalid port 1234567) as the
     * payload of the chosen method.
     */
    method EnumJep290Bypass(regMethod: string, localhostBypass: bool, marshal: bool, gadget: Value)
      returns (report: Report)
      modifies rmi
      ensures LookupUseless(marshal, regMethod) ==> report == Skipped && rmi.sent == old(rmi.sent)
      ensures !LookupUseless(marshal, regMethod) && !Packable(regMethod) ==>
                report == InternalError && rmi.sent == old(rmi.sent)
      ensures !LookupUseless(marshal, regMethod) && Packable(regMethod) ==>
                var call := RegistryCallFor(regMethod, PackArgs(regMethod, gadget).value, false, localhostBypass, None);
                rmi.sent == old(rmi.sent) + [call] && report == Jep290BypassReport(Surfaced(rmi.server(call)))
    {
      if !marshal && regMethod == "lookup" {
        return Skipped;
      }
      var args := PackArgs(regMethod, gadget);
      if args.None? {
        return InternalError;
      }
      var o := RegistryCall(regMethod, args.value, false, localhostBypass);
      report := Jep290BypassReport(o);
    }

    /** gadgetCall */
    method GadgetCall(payload: Value, regMethod: string, localhostBypass: bool) returns (report: Report)
      modifies rmi
      ensures !Packable(regMethod) ==> report == InternalError && rmi.sent == old(rmi.sent)
      ensures Packable(regMethod) ==>
                var call := RegistryCallFor(regMethod, PackArgs(regMethod, payload).value, false, localhostBypass, None);
                rmi.sent == old(rmi.sent) + [call] && report == GadgetReport(Surfaced(rmi.server(call)), regMethod)
    {
      var args := PackArgs(regMethod, payload);
      if args.None? {
        return InternalError;
      }
      var o := RegistryCall(regMethod, args.value, false, localhostBypass);
      report := GadgetReport(o, regMethod);
    }

    /** codebaseCall: the payload goes through the malicious stream with whatever override is set. */
    method CodebaseCall(payload: Value, regMethod: string, localhostBypass: bool) returns (report: Report)
      modifies rmi
      ensures !Packable(regMethod) ==> report == InternalError && rmi.sent == old(rmi.sent)
      ensures Packable(regMethod) ==>
                var call := RegistryCallFor(regMethod, PackArgs(regMethod, payload).value, true, localhostBypass,
                                            stream.location);
                rmi.sent == old(rmi.sent) + [call]
                && report == CodebaseCallReport(Surfaced(rmi.server(call)), regMethod, ClassName(payload))
    {
      var className := ClassName(payload);
      var args := PackArgs(regMethod, payload);
      if args.None? {
        return InternalError;
      }
      var o := RegistryCall(regMethod, args.value, true, localhostBypass);
      report := CodebaseCallReport(o, regMethod, className);
    }
  }
}
