/**
 * The surrogate's `main`: initialise COM, validate the launch arguments, open
 * the two named events, create and register the class factory, signal
 * "ready", wait for "done", revoke the registration and return 0. A fatal
 * step shows a message box and ends the process with status 1 (`exit(1)`,
 * so no scoped cleanup runs on that path).
 *
 * The platform is represented by the answers its fallible calls give,
 * passed in as `Platform`; each step the program takes is appended to a
 * trace of actions.
 */
module Surrogate {
  import opened Wrappers
  import opened ComTypes
  import opened Arguments
  import opened EventNames
  import opened ClassFactory

  /** The message the error box shows. */
  datatype Diagnostic = UsageMessage | ComInitFailed(hr: HResult) | RegisterFailed(hr: HResult)

  /** One observable step of the surrogate process. */
  datatype Action =
    | CoInitializeEx(coinit: nat, hr: HResult)
    | ErrorBox(diagnostic: Diagnostic)
    | OpenEvent(name: string)
    | CreateFactory(clsid: Guid, factory: CFactory)
    | RegisterClassObject(clsid: Guid, factory: CFactory, context: nat, flags: nat, hr: HResult)
    | SetEvent(name: string)
    | WaitForEvent(name: string)
    | RevokeClassObject(cookie: nat)
    | CoUninitialize
    | Exit(code: int)

  /**
   * What the platform answers: the status of CoInitializeEx, the status of
   * CoRegisterClassObject and the registration cookie it hands back.
   */
  datatype Platform = Platform(initHr: HResult, registerHr: HResult, cookie: nat)

  /** Neither named event was opened and no factory was created or registered. */
  ghost predicate NoEventsNoRegistration(t: seq<Action>) {
    forall i :: 0 <= i < |t| ==> !t[i].OpenEvent? && !t[i].CreateFactory? && !t[i].RegisterClassObject?
  }

  /** "Ready" is only signalled after a registration that succeeded. */
  ghost predicate ReadyOnlyAfterRegistration(t: seq<Action>) {
    forall i :: 0 <= i < |t| && t[i].SetEvent? ==>
      exists j :: 0 <= j < i && t[j].RegisterClassObject? && !Failed(t[j].hr)
  }

  /** "Ready" is signalled at most once. */
  ghost predicate ReadyAtMostOnce(t: seq<Action>) {
    forall i, j :: 0 <= i < j < |t| && t[i].SetEvent? ==> !t[j].SetEvent?
  }

  /** The registration is revoked only after the wait for "done" has returned. */
  ghost predicate RevokeOnlyAfterWait(t: seq<Action>) {
    forall i :: 0 <= i < |t| && t[i].RevokeClassObject? ==>
      exists j :: 0 <= j < i && t[j].WaitForEvent?
  }

  /** A refused registration ends the process with status 1 and "ready" is never signalled. */
  ghost predicate RegistrationFailureIsFatal(t: seq<Action>, code: int) {
    (exists i :: 0 <= i < |t| && t[i].RegisterClassObject? && Failed(t[i].hr)) ==>
      code == 1 && forall k :: 0 <= k < |t| ==> !t[k].SetEvent?
  }

  /** The process ends exactly once, as the last step, with the given status. */
  ghost predicate EndsWithExit(t: seq<Action>, code: int) {
    |t| > 0 && t[|t| - 1] == Exit(code) && forall i :: 0 <= i < |t| - 1 ==> !t[i].Exit?
  }

  /**
   * Every registration installs a factory created earlier for the same CLSID,
   * server-scoped and multi-use.
   */
  ghost predicate RegistersCreatedFactory(t: seq<Action>) {
    forall i :: 0 <= i < |t| && t[i].RegisterClassObject? ==>
      t[i].context == CLSCTX_SERVER && t[i].flags == REGCLS_MULTIPLEUSE &&
      exists j :: 0 <= j < i && t[j] == CreateFactory(t[i].clsid, t[i].factory)
  }

  /** The ordering rules every run of the surrogate keeps. */
  ghost predicate SessionProtocol(t: seq<Action>, code: int) {
    EndsWithExit(t, code) &&
    ReadyOnlyAfterRegistration(t) &&
    ReadyAtMostOnce(t) &&
    RevokeOnlyAfterWait(t) &&
    RegistersCreatedFactory(t) &&
    RegistrationFailureIsFatal(t, code)
  }

  /** A run that stops before the registration: initialisation or validation failed. */
  function EarlyExitTrace(initHr: HResult, diagnostic: Diagnostic): seq<Action> {
    [CoInitializeEx(COINIT_MULTITHREADED, initHr), ErrorBox(diagnostic), Exit(1)]
  }

  /** The steps up to and including the registration, once the arguments are valid. */
  function RegistrationSteps(initHr: HResult, ppid: Long, clsid: Guid, factory: CFactory,
                             registerHr: HResult): seq<Action> {
    [CoInitializeEx(COINIT_MULTITHREADED, initHr), OpenEvent(ReadyEventName(ppid)), OpenEvent(DoneEventName(ppid)),
     CreateFactory(clsid, factory),
     RegisterClassObject(clsid, factory, CLSCTX_SERVER, REGCLS_MULTIPLEUSE, registerHr)]
  }

  /** A run whose registration the platform refused. */
  function RegisterFailedTrace(initHr: HResult, ppid: Long, clsid: Guid, factory: CFactory,
                               registerHr: HResult): seq<Action> {
    RegistrationSteps(initHr, ppid, clsid, factory, registerHr) + [ErrorBox(RegisterFailed(registerHr)), Exit(1)]
  }

  /** A complete session: ready, wait for done, revoke, uninitialise, return 0. */
  function CompletedTrace(initHr: HResult, ppid: Long, clsid: Guid, factory: CFactory,
                          registerHr: HResult, cookie: nat): seq<Action> {
    RegistrationSteps(initHr, ppid, clsid, factory, registerHr) +
    [SetEvent(ReadyEventName(ppid)), WaitForEvent(DoneEventName(ppid)), RevokeClassObject(cookie),
     CoUninitialize, Exit(0)]
  }

  /** A run that stops before the registration keeps the protocol and touches no event or factory. */
  lemma EarlyExitKeepsProtocol(initHr: HResult, diagnostic: Diagnostic)
    ensures SessionProtocol(EarlyExitTrace(initHr, diagnostic), 1)
    ensures NoEventsNoRegistration(EarlyExitTrace(initHr, diagnostic))
  {
    var t := EarlyExitTrace(initHr, diagnostic);
    assert forall k :: 0 <= k < |t| ==> !t[k].SetEvent? && !t[k].RegisterClassObject? && !t[k].RevokeClassObject?;
  }

  /** A refused registration keeps the protocol: status 1 and no "ready". */
  lemma RegisterFailureKeepsProtocol(initHr: HResult, ppid: Long, clsid: Guid, factory: CFactory,
                                     registerHr: HResult)
    requires Failed(registerHr)
    ensures SessionProtocol(RegisterFailedTrace(initHr, ppid, clsid, factory, registerHr), 1)
  {
    var t := RegisterFailedTrace(initHr, ppid, clsid, factory, registerHr);
    assert t[3] == CreateFactory(clsid, factory);
    assert forall k :: 0 <= k < |t| && t[k].RegisterClassObject? ==> k == 4;
    assert forall k :: 0 <= k < |t| ==> !t[k].SetEvent? && !t[k].RevokeClassObject?;
    assert forall k :: 0 <= k < |t| - 1 ==> !t[k].Exit?;
  }

  /** A complete session keeps the protocol: ready once after registration, revoke after the wait. */
  lemma CompletedSessionKeepsProtocol(initHr: HResult, ppid: Long, clsid: Guid, factory: CFactory,
                                      registerHr: HResult, cookie: nat)
    requires !Failed(registerHr)
    ensures SessionProtocol(CompletedTrace(initHr, ppid, clsid, factory, registerHr, cookie), 0)
  {
    var t := CompletedTrace(initHr, ppid, clsid, factory, registerHr, cookie);
    assert |t| == 10;
    assert t[3] == CreateFactory(clsid, factory);
    assert t[4] == RegisterClassObject(clsid, factory, CLSCTX_SERVER, REGCLS_MULTIPLEUSE, registerHr);
    assert t[6].WaitForEvent?;
    assert forall k :: 0 <= k < |t| && t[k].SetEvent? ==> k == 5;
    assert forall k :: 0 <= k < |t| && t[k].RevokeClassObject? ==> k == 7;
    assert forall k :: 0 <= k < |t| && t[k].RegisterClassObject? ==> k == 4;
    assert forall k :: 0 <= k < |t| - 1 ==> !t[k].Exit?;
  }

  method RunSurrogate(argv: seq<string>, parseGuid: string -> Option<Guid>, platform: Platform)
    returns (exitCode: int, trace: seq<Action>)
    ensures exitCode == 0 || exitCode == 1
    ensures SessionProtocol(trace, exitCode)
    ensures exitCode == 0 <==>
              !Failed(platform.initHr) && ParseCommandLine(argv, parseGuid).Ok? && !Failed(platform.registerHr)
    ensures Failed(platform.initHr) ==> trace == EarlyExitTrace(platform.initHr, ComInitFailed(platform.initHr))
    ensures ParseCommandLine(argv, parseGuid).UsageError? ==> exitCode == 1 && NoEventsNoRegistration(trace)
    ensures !Failed(platform.initHr) && ParseCommandLine(argv, parseGuid).UsageError? ==>
              trace == EarlyExitTrace(platform.initHr, UsageMessage)
    ensures !Failed(platform.initHr) && ParseCommandLine(argv, parseGuid).Ok? ==>
              var p := ParseCommandLine(argv, parseGuid);
              |trace| > 3 && trace[3].CreateFactory? &&
              var factory := trace[3].factory;
              factory.clsidProxyClass == p.clsid && factory.refcnt == 1 && !factory.deleted &&
              trace == if Failed(platform.registerHr)
                       then RegisterFailedTrace(platform.initHr, p.ppid, p.clsid, factory, platform.registerHr)
                       else CompletedTrace(platform.initHr, p.ppid, p.clsid, factory, platform.registerHr,
                                           platform.cookie)
  {
    var hr := platform.initHr;
    trace := [CoInitializeEx(COINIT_MULTITHREADED, hr)];
    if Failed(hr) {
      trace := trace + [ErrorBox(ComInitFailed(hr)), Exit(1)];
      EarlyExitKeepsProtocol(hr, ComInitFailed(hr));
      return 1, trace;
    }

    var parsed := ParseArguments(argv, parseGuid);
    if parsed.UsageError? {
      trace := trace + [ErrorBox(UsageMessage), Exit(1)];
      EarlyExitKeepsProtocol(hr, UsageMessage);
      return 1, trace;
    }

    var readyName := ReadyEventName(parsed.ppid);
    var doneName := DoneEventName(parsed.ppid);
    trace := trace + [OpenEvent(readyName), OpenEvent(doneName)];

    var factory := new CFactory(parsed.clsid);
    trace := trace + [CreateFactory(parsed.clsid, factory)];

    hr := platform.registerHr;
    trace := trace + [RegisterClassObject(parsed.clsid, factory, CLSCTX_SERVER, REGCLS_MULTIPLEUSE, hr)];
    ghost var steps := RegistrationSteps(platform.initHr, parsed.ppid, parsed.clsid, factory, hr);
    assert trace == steps;
    if Failed(hr) {
      trace := trace + [ErrorBox(RegisterFailed(hr)), Exit(1)];
      RegisterFailureKeepsProtocol(platform.initHr, parsed.ppid, parsed.clsid, factory, hr);
      return 1, trace;
    }

    trace := trace + [SetEvent(readyName)];
    trace := trace + [WaitForEvent(doneName)];
    trace := trace + [RevokeClassObject(platform.cookie)];
    trace := trace + [CoUninitialize, Exit(0)];
    assert trace == CompletedTrace(platform.initHr, parsed.ppid, parsed.clsid, factory, hr, platform.cookie);
    CompletedSessionKeepsProtocol(platform.initHr, parsed.ppid, parsed.clsid, factory, hr, platform.cookie);
    return 0, trace;
  }
}
