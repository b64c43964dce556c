# PinballY DOF 32/64-bit COM surrogate — Dafny model

PinballY is a 64-bit program. DOF (DirectOutput Framework) ships only a 32-bit in-process COM object, which a 64-bit process cannot load. PinballY therefore launches a small 32-bit helper, the surrogate, and passes it two things:

- its own process id;
- a randomly generated proxy CLSID (COM class identifier).

The surrogate then works as follows:

1. It registers a class factory with COM under the proxy CLSID.
2. It signals a named "ready" event.
3. It blocks until PinballY signals a named "done" event.
4. It revokes the registration and exits.

Whenever PinballY activates the proxy class, COM routes the request to this factory. The factory creates the real DOF object in-process and hands it back, and COM marshals it across the 32/64-bit boundary.

This project models the surrogate's logic in Dafny and proves properties of it:

- `wrappers.dfy` (`Wrappers`): an `Option` type.
- `com_types.dfy` (`ComTypes`): HRESULTs with the `FAILED` test, and GUIDs laid out like the platform's GUID structure. It also holds the fixed IIDs and CLSIDs (IUnknown, IClassFactory, the DOF object and the DOF interface) and the flag values the surrogate passes to COM (`COINIT_MULTITHREADED`, `CLSCTX_INPROC_SERVER`, `CLSCTX_SERVER`, `REGCLS_MULTIPLEUSE`).
- `arguments.dfy` (`Arguments`): the launch-argument contract. It contains:
  - the classification of one argument against `-parent_pid=(\d+)` and `-clsid=(.+)`;
  - `atol`;
  - a "last occurrence wins" specification of the whole command line (`ParseCommandLine`);
  - the imperative argument loop (`ParseArguments`), proved equal to that specification.
- `event_names.dfy` (`EventNames`): the `%lx` formatter and its inverse. It also builds the two event names, `PinballY.Dof6432Surrogate.<hex pid>.Event.Ready` and `.Event.Done`.
- `class_factory.dfy` (`ClassFactory`): the `CFactory` class. Its fields are the proxy CLSID, the ULONG reference count `refcnt` and a `deleted` flag that stands for `delete this`. Its methods are `AddRef`, `Release`, `QueryInterface`, `CreateInstance` and `LockServer`.
- `surrogate.dfy` (`Surrogate`): the step sequence of `main` (`RunSurrogate`). The method appends one action per step to a trace, and it is proved to keep the session protocol on every path:
  - a validation failure touches no event and no factory;
  - the factory registered is the one created just before, for the same CLSID, server-scoped (`CLSCTX_SERVER`) and multi-use (`REGCLS_MULTIPLEUSE`);
  - a failed registration exits with status 1 and never signals "ready";
  - "ready" is signalled at most once, and only after a successful registration;
  - revoke happens only after the wait for "done";
  - the normal exit status is 0.

The platform calls that can fail are passed in as their answers. `Platform` holds the HRESULTs of `CoInitializeEx` and `CoRegisterClassObject` and the registration cookie. `CoCreateInstance` is a function parameter of `CreateInstance`. `ParseGuid(AnsiToTSTRING(...))` is the function parameter `parseGuid`, which returns `None` when the text is not a GUID. So every property holds for every answer the platform or the GUID parser could give.

The model follows the code on these points, some of which depart from COM convention:

- **COM start-up comes first.** COM is initialised before the arguments are parsed, and a `CoInitializeEx` failure is reported before any argument check.
- **`CoUninitialize` runs only on normal return.** The uninitialisation is a scoped destructor. That destructor runs only on the normal `return 0`: `errexit` calls `exit(1)`, which does not unwind the stack. So `CoUninitialize` appears only in the trace of a completed session, not on the fatal paths.
- **Event opening is not checked.** The events are opened with `CreateEventA`, whose result the code does not check. Failing to open an event is therefore not a fatal step in the model.
- **The requested interface is ignored.** `CreateInstance` ignores the interface the caller asks for. It always requests the DOF interface (`IID_Dof`) from `CoCreateInstance`.
- **`*ppv` is left as it was on failure.** `QueryInterface` leaves `*ppv` untouched when it answers `E_NOINTERFACE`. COM's rules ask for `*ppv` to be set to null; the model keeps the code's behaviour.

## Model

| member | source | states |
|---|---|---|
| `Arguments.Classify` | Dof3264Surrogate/Dof3264Surrogate.cpp:139-143 | a `ParentPid(d)` result means the argument is exactly `-parent_pid=` followed by the non-empty digit string `d`; a `ClsidText(t)` result means it is `-clsid=` followed by the non-empty text `t`, which has no line terminator |
| `Arguments.ClassifyParentPid` | Dof3264Surrogate/Dof3264Surrogate.cpp:139 | every `-parent_pid=<one or more digits>` argument matches the pid pattern and captures the digits (the converse of Classify's first ensures) |
| `Arguments.ClassifyClsid` | Dof3264Surrogate/Dof3264Surrogate.cpp:143 | every `-clsid=<non-empty text without line terminators>` argument matches the CLSID pattern and captures the text |
| `Arguments.DecimalRoundTrip` | Dof3264Surrogate/Dof3264Surrogate.cpp:141 | reading the decimal rendering of any number back gives that number |
| `Arguments.AtolOfDecimal` | Dof3264Surrogate/Dof3264Surrogate.cpp:141 | `atol` of the decimal rendering of any pid that fits a 32-bit `long` gives that pid |
| `Arguments.DecimalZeroIffAllZeros` | Dof3264Surrogate/Dof3264Surrogate.cpp:141 | a digit string denotes zero exactly when every digit is '0' |
| `Arguments.AtolZeroIffAllZeros` | Dof3264Surrogate/Dof3264Surrogate.cpp:141-153 | `atol` gives 0, which counts as an absent pid, exactly for digit strings of zeros such as `-parent_pid=000` |
| `Arguments.ParseArguments` | Dof3264Surrogate/Dof3264Surrogate.cpp:133-154 | the argument loop and the required-argument check compute exactly `ParseCommandLine`: a usage error unless every argument after argv[0] is accepted and the last pid and last CLSID are non-zero and non-null, and otherwise those two values |
| `Arguments.UnrecognizedIsUsageError` | Dof3264Surrogate/Dof3264Surrogate.cpp:148-149 | an argument after argv[0] that matches neither pattern makes the launch a usage error, wherever it stands |
| `Arguments.UnparseableGuidIsUsageError` | Dof3264Surrogate/Dof3264Surrogate.cpp:143-146 | a `-clsid=` argument whose text does not parse as a GUID makes the launch a usage error, wherever it stands |
| `Arguments.NoPidArgument` | Dof3264Surrogate/Dof3264Surrogate.cpp:134-141 | without any `-parent_pid=` argument the pid keeps its initial value 0 |
| `Arguments.NoClsidArgument` | Dof3264Surrogate/Dof3264Surrogate.cpp:135-147 | without any `-clsid=` argument the CLSID keeps its initial value CLSID_NULL |
| `Arguments.MissingPidIsUsageError` | Dof3264Surrogate/Dof3264Surrogate.cpp:134-154 | a launch with no `-parent_pid=` argument is a usage error |
| `Arguments.MissingClsidIsUsageError` | Dof3264Surrogate/Dof3264Surrogate.cpp:135-154 | a launch with no `-clsid=` argument is a usage error |
| `Arguments.LaterPidWins` | Dof3264Surrogate/Dof3264Surrogate.cpp:136-141 | a `-parent_pid=` argument followed only by non-pid arguments sets the final pid, whatever came before it |
| `Arguments.LaterClsidWins` | Dof3264Surrogate/Dof3264Surrogate.cpp:143-145 | a parseable `-clsid=` argument followed only by non-CLSID arguments sets the final CLSID, whatever came before it |
| `Arguments.OkIsValidated` | Dof3264Surrogate/Dof3264Surrogate.cpp:152-154 | a successful parse has a non-zero pid and a non-null CLSID, and every argument was accepted |
| `Arguments.StandardLaunch` | Dof3264Surrogate/Dof3264Surrogate.cpp:133-154 | `<prog> -parent_pid=<pid> -clsid=<guid>` with a non-zero pid and a non-null parseable GUID parses to exactly that pid and GUID |
| `EventNames.Hex` | Dof3264Surrogate/Dof3264Surrogate.cpp:159 | `%lx` output is non-empty and made only of lower-case hexadecimal digits |
| `EventNames.HexRoundTrip` | Dof3264Surrogate/Dof3264Surrogate.cpp:159 | reading `%lx` output back as hexadecimal gives the number |
| `EventNames.HexInjective` | Dof3264Surrogate/Dof3264Surrogate.cpp:159 | distinct numbers give distinct `%lx` output |
| `EventNames.HexNoLeadingZero` | Dof3264Surrogate/Dof3264Surrogate.cpp:159 | `%lx` output starts with '0' only for the value 0 (no padding) |
| `EventNames.HexLength` | Dof3264Surrogate/Dof3264Surrogate.cpp:158-159 | a value below 16^k takes at most k hexadecimal digits |
| `EventNames.ChannelBase` | Dof3264Surrogate/Dof3264Surrogate.cpp:158-160 | the shared namespace-plus-hex-pid part of both names is at most 8 characters longer than the namespace, for every 32-bit pid |
| `EventNames.ReadyEventName` | Dof3264Surrogate/Dof3264Surrogate.cpp:158-159 | the "ready" name and its terminator fit the 128-char buffer that `sprintf_s` writes into, for every pid |
| `EventNames.DoneEventName` | Dof3264Surrogate/Dof3264Surrogate.cpp:158-160 | the "done" name and its terminator fit the 128-char buffer that `sprintf_s` writes into, for every pid |
| `EventNames.NamesShareBase` | Dof3264Surrogate/Dof3264Surrogate.cpp:159-160 | both names start with `PinballY.Dof6432Surrogate.` followed by the pid in lower-case hexadecimal; after that shared base they differ only in their suffixes, `.Event.Ready` and `.Event.Done` |
| `EventNames.ReadyDoneDistinct` | Dof3264Surrogate/Dof3264Surrogate.cpp:159-160 | no "ready" name equals any "done" name, for any two pids |
| `EventNames.ChannelBaseInjective` | Dof3264Surrogate/Dof3264Surrogate.cpp:159-160 | the shared part of the names determines the pid |
| `EventNames.ReadyEventNameInjective` | Dof3264Surrogate/Dof3264Surrogate.cpp:159 | equal "ready" names imply equal parent pids |
| `EventNames.DoneEventNameInjective` | Dof3264Surrogate/Dof3264Surrogate.cpp:160 | equal "done" names imply equal parent pids |
| `EventNames.NamesForPid4242` | Dof3264Surrogate/Dof3264Surrogate.cpp:159-160 | parent pid 4242 names the events `PinballY.Dof6432Surrogate.1092.Event.Ready` and `PinballY.Dof6432Surrogate.1092.Event.Done` |
| `ClassFactory.Increment` | Dof3264Surrogate/Dof3264Surrogate.cpp:65 | the interlocked ULONG increment adds one, and wraps only from 2^32-1 to 0 |
| `ClassFactory.Decrement` | Dof3264Surrogate/Dof3264Surrogate.cpp:68 | the interlocked ULONG decrement subtracts one, and wraps only from 0 to 2^32-1 |
| `ClassFactory.LockUnlockRestoresCount` | Dof3264Surrogate/Dof3264Surrogate.cpp:98-105 | a lock followed by an unlock, or an unlock followed by a lock, restores the count |
| `ClassFactory.CFactory.constructor` | Dof3264Surrogate/Dof3264Surrogate.cpp:63 | a new factory keeps the proxy CLSID, has `refcnt == 1` and is not deleted |
| `ClassFactory.CFactory.AddRef` | Dof3264Surrogate/Dof3264Surrogate.cpp:65 | the count goes up by one (ULONG wrap-around) and the new count is returned |
| `ClassFactory.CFactory.Release` | Dof3264Surrogate/Dof3264Surrogate.cpp:66-71 | the count goes down by one and the new count is returned; the object is deleted exactly when that count is 0 |
| `ClassFactory.CFactory.QueryInterface` | Dof3264Surrogate/Dof3264Surrogate.cpp:73-86 | for IUnknown or IClassFactory: S_OK, `*ppv` is this factory and the count goes up by one; for any other IID: E_NOINTERFACE, with `*ppv` and the count unchanged |
| `ClassFactory.CFactory.CreateInstance` | Dof3264Surrogate/Dof3264Surrogate.cpp:88-96 | a non-null outer object gives CLASS_E_NOAGGREGATION and no activation request; otherwise exactly one request is made (the DOF CLSID, in-process, no outer object, the DOF IID), and its HRESULT and object are returned unchanged |
| `ClassFactory.CFactory.LockServer` | Dof3264Surrogate/Dof3264Surrogate.cpp:98-105 | always S_OK; locking adds a reference, unlocking releases one and deletes the factory exactly when the count reaches 0 |
| `Surrogate.EarlyExitKeepsProtocol` | Dof3264Surrogate/Dof3264Surrogate.cpp:33-48 | a run ended by `errexit` before registration has exit status 1 as its last step, opens no event, and creates or registers no factory |
| `Surrogate.RegisterFailureKeepsProtocol` | Dof3264Surrogate/Dof3264Surrogate.cpp:171-174 | a run whose registration fails ends with status 1 and never sets "ready" or revokes; the failed registration was of the factory created just before, server-scoped and multi-use |
| `Surrogate.CompletedSessionKeepsProtocol` | Dof3264Surrogate/Dof3264Surrogate.cpp:165-204 | a completed session registers the factory it created for the proxy CLSID with `CLSCTX_SERVER` and `REGCLS_MULTIPLEUSE`, sets "ready" once after that registration succeeds, revokes after the wait for "done", and ends with status 0 |
| `Surrogate.RunSurrogate` | Dof3264Surrogate/Dof3264Surrogate.cpp:118-204 | on every path: exit status 0 or 1, 0 exactly when COM start-up, argument validation and registration all succeed; the session protocol holds; a usage error opens no event and registers nothing; each path's exact sequence of steps with the calls' arguments (`COINIT_MULTITHREADED`; the new factory, which holds the proxy CLSID and one reference, registered with `CLSCTX_SERVER` and `REGCLS_MULTIPLEUSE`; the cookie registration returned, passed to revoke) |

## Left out

- COM runtime (`CoInitializeEx`, `CoUninitialize`, `CoRegisterClassObject`, `CoRevokeClassObject`, `CoCreateInstance`, marshalling): foreign platform services. They are represented by the HRESULTs and cookie they return (`Platform`, the `coCreate` parameter) and appear as trace actions carrying the flags, CLSID and factory they are passed. Two arguments are not recorded: the reserved NULL first argument of `CoInitializeEx`, and the `&dwRegister` out-pointer of `CoRegisterClassObject`, whose result is the cookie in `Platform`.
- Win32 named events (`CreateEventA`, `SetEvent`, `WaitForSingleObject(INFINITE)`): inter-process synchronisation. Each call is one trace action. A host that never signals "done", and so blocks the surrogate forever, is not modelled: the trace assumes the wait returns.
- A null event handle: the source does not check `CreateEventA`'s result. If it returned null, the later `SetEvent` would fail silently and the wait would return at once. The model's steps look the same either way.
- `InterlockedIncrement` and `InterlockedDecrement` atomicity: a concurrency concern. The counter is modelled sequentially.
- `errexit`'s `vsprintf_s` and `MessageBoxA`: user-interface output. They become one `ErrorBox(diagnostic)` step followed by `Exit(1)`. The message text is not modelled.
- `ParseGuid` and `AnsiToTSTRING`: their bodies are in Utilities/StringUtil.h, which is not part of this model. Their composition is the function parameter `parseGuid`.
- `RefPtr<CFactory>`: Utilities/Pointers.h is not part of this model. The reference released when `pFactory` goes out of scope is not in the trace. The model also does not relate the factory's count to the references COM itself takes on registration.
- Allocation failure of `new CFactory`: not modelled, so creation always succeeds.
- The `DOFProxy64` declaration at line 57: the surrogate never uses it.
- `atol` overflow: `atol` is modelled as saturating at LONG_MAX (the 32-bit `long` of the Windows ABI). This is the Microsoft C runtime's documented behaviour; the C standard leaves the case undefined.
- The regex `.`: it is modelled as matching every character except `'\n'` and `'\r'`, the ECMAScript line terminators within the `char` range.
- PinballY/DOFClient.h: only COM `IDispatch` wrapping and declarations whose bodies are not part of this model.
- PinballY/I420Shader.cpp: Direct3D shader and buffer setup.
- GenerateDXAudioHeaderIncludes/GenerateDXAudioHeaderIncludes.cpp: a build-time header generator that only does I/O.
