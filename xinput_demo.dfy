/** The legacy global XInput binding of the demo: a status register
    (UNINITIALIZED, LOADING, ACTIVE), the loaded library handle and two
    optional function pointers, a loader that probes a fixed list of DLL
    names and binds `XInputGetState` and `XInputSetState` all-or-nothing, and
    the two queries gated on the register.

    The operating system is an oracle: `LoadLibraryW` is a map from the
    NUL-terminated wide name to a module handle (a missing name loads as
    null), `GetProcAddress` a function from a handle and a symbol name to an
    address (0 when the symbol is not exported), `FreeLibrary` an entry in a
    ghost log, and the two bound functions are return-code oracles handed to
    each query. Calls are sequential; the atomic compare-and-swap is modelled
    by its single-threaded effect. */
module XInputDemo {
  import opened Wrappers
  import opened Winapi
  import opened WideString

  const UNINITIALIZED: usize := 0
  const LOADING: usize := 1
  const ACTIVE: usize := 2

  /** The DLLs probed, most capable first. */
  const Candidates: seq<string> := ["xinput1_4.dll", "xinput9_1_0.dll", "xinput1_3.dll"]

  const GetStateName: string := "XInputGetState"
  const SetStateName: string := "XInputSetState"

  /** The loader and the symbol resolver of the operating system. */
  datatype Os = Os(libraries: map<seq<u16>, HModule>, procs: (HModule, string) -> Address)
  {
    /** `LoadLibraryW(name)`: the handle, or null when the name does not load. */
    function Load(name: seq<u16>): HModule {
      if name in libraries then libraries[name] else NULL
    }

    /** `GetProcAddress(module, name)`: the address, or null. */
    function ProcAddress(lib: HModule, name: string): Address {
      procs(lib, name)
    }

    /** Both required symbols resolve in `lib`. */
    predicate Binds(lib: HModule) {
      ProcAddress(lib, GetStateName) != NULL && ProcAddress(lib, SetStateName) != NULL
    }
  }

  /** The reply of a bound `XInputGetState`: a return code and the record it
      wrote into the output it was handed. */
  datatype GetStateReply = GetStateReply(code: Dword, state: XInputState)

  /** A bound `XInputGetState`, called at an address with a user index and
      the initial contents of its output record. */
  type GetStateFn = (Address, u32, XInputState) -> GetStateReply

  /** A bound `XInputSetState`, called at an address with a user index and
      a vibration record. */
  type SetStateFn = (Address, u32, XInputVibration) -> Dword

  /** A call made through one of the bound function pointers. */
  datatype NativeCall =
    | GetStateCall(getFn: Address, userIndex: u32, output: XInputState)
    | SetStateCall(setFn: Address, userIndex: u32, vibration: XInputVibration)

  /** Names as `wide_null` encodes them, in the same order. */
  function WideNames(names: seq<string>): seq<seq<u16>> {
    seq(|names|, i requires 0 <= i < |names| => WideNullOf(names[i]))
  }

  /** The index of the first name that loads, or `|names|` when none does. */
  function FirstLoadable(os: Os, names: seq<seq<u16>>): (k: nat)
    ensures k <= |names|
    ensures forall i | 0 <= i < k :: os.Load(names[i]) == NULL
    ensures k < |names| ==> os.Load(names[k]) != NULL
  {
    if names == [] then 0
    else if os.Load(names[0]) != NULL then 0
    else 1 + FirstLoadable(os, names[1..])
  }

  /** The names handed to `LoadLibraryW` when the first loadable one has
      index `k`: all of them up to and including it, and no later one. */
  function Attempted(names: seq<seq<u16>>, k: nat): (tried: seq<seq<u16>>)
    requires k <= |names|
    ensures |tried| == if k < |names| then k + 1 else k
    ensures tried <= names
  {
    if k < |names| then names[..k + 1] else names
  }

  /** Every name the loader logs on its trace lines reads back as the
      candidate it was made from. */
  lemma CandidatesShowAsWritten(i: nat)
    requires i < |Candidates|
    ensures ShowWideNull(WideNames(Candidates)[i]) == Candidates[i]
  {
    CandidatesNarrow(i);
    ShowWideNullOfWideNull(Candidates[i]);
  }

  /** Every candidate name is made of one-byte characters other than NUL. */
  lemma CandidatesNarrow(i: nat)
    requires i < |Candidates|
    ensures IsNarrow(Candidates[i])
  {
    var name := Candidates[i];
    forall k | 0 <= k < |name| ensures 0 < name[k] as int < 0x100 {
      if i == 0 {} else if i == 1 {} else {}
    }
  }

  /** The three candidate names differ from each other. */
  lemma CandidateNamesDistinct(i: nat, j: nat)
    requires i < j < |Candidates|
    ensures Candidates[i] != Candidates[j]
  {
    if i == 0 && j == 2 {
      assert Candidates[0][8] == '4' && Candidates[2][8] == '3';
    } else {
      assert |Candidates[0]| == 13 && |Candidates[1]| == 15 && |Candidates[2]| == 13;
    }
  }

  /** The three wide names are distinct, so each probe asks for a different
      library. */
  lemma CandidatesDistinct(i: nat, j: nat)
    requires i < j < |Candidates|
    ensures WideNames(Candidates)[i] != WideNames(Candidates)[j]
  {
    CandidatesShowAsWritten(i);
    CandidatesShowAsWritten(j);
    CandidateNamesDistinct(i, j);
  }

  /** The process-wide statics of the demo and the operating system they
      talk to. */
  class XInputGlobals {
    /** The loader and resolver of this process. */
    const os: Os
    /** The DLL names the loader probes: `Candidates`, fixed at construction. */
    const candidates: seq<string>

    /** `xinput_status`. */
    var status: usize
    /** `global_xinput_handle`. */
    var handle: HModule
    /** `opt_xinput_get_state` and `opt_xinput_set_state`. */
    var getState: Option<Address>
    var setState: Option<Address>

    /** Every name handed to `LoadLibraryW`, in order. */
    ghost var loadLog: seq<seq<u16>>
    /** Every handle handed to `FreeLibrary`, in order. */
    ghost var freed: seq<HModule>
    /** Every call made through a bound function pointer, in order. */
    ghost var calls: seq<NativeCall>

    /** The register invariant. Outside a load in progress the two pointers
        are either both unset (UNINITIALIZED) or both bound to the stored
        handle (ACTIVE); this is what makes the `unwrap` of either pointer
        in the two queries safe. An unknown status value constrains nothing.
        The probed names are always the three candidates, in their order. */
    ghost predicate Valid()
      reads this
    {
      && candidates == Candidates
      && (status == UNINITIALIZED ==> getState == None && setState == None)
      && (status == ACTIVE ==>
            && handle != NULL
            && os.Binds(handle)
            && getState == Some(os.ProcAddress(handle, GetStateName))
            && setState == Some(os.ProcAddress(handle, SetStateName)))
    }

    /** The statics before the first call: null handle, no pointers, status 0. */
    constructor (os: Os)
      ensures this.os == os && candidates == Candidates
      ensures status == UNINITIALIZED && handle == NULL && getState == None && setState == None
      ensures loadLog == [] && freed == [] && calls == []
      ensures Valid()
    {
      this.os := os;
      candidates := Candidates;
      status := UNINITIALIZED;
      handle := NULL;
      getState, setState := None, None;
      loadLog, freed, calls := [], [], [];
    }

    /** `xinput_status.compare_exchange(current, next)` run alone: the
        register takes `next` exactly when it held `current`; `Ok` carries
        the value that was replaced and `Err` the value seen instead. */
    method CompareExchange(current: usize, next: usize) returns (r: Result<usize, usize>)
      modifies this`status
      ensures old(status) == current ==> r == Success(current) && status == next
      ensures old(status) != current ==> r == Failure(old(status)) && status == old(status)
    {
      if status == current {
        r := Success(status);
        status := next;
      } else {
        r := Failure(status);
      }
    }

    /** `LoadLibraryW(name)`, logged. */
    method LoadLibraryW(name: seq<u16>) returns (lib: HModule)
      modifies this`loadLog
      ensures lib == os.Load(name)
      ensures loadLog == old(loadLog) + [name]
    {
      lib := os.Load(name);
      loadLog := loadLog + [name];
    }

    /** `FreeLibrary(module)`, logged. */
    method FreeLibrary(lib: HModule)
      modifies this`freed
      ensures freed == old(freed) + [lib]
    {
      freed := freed + [lib];
    }

    /** The three `wide_null` calls that build the names to probe. */
    method WideCandidateNames() returns (libNames: seq<seq<u16>>)
      requires |candidates| == 3
      ensures libNames == WideNames(candidates)
    {
      var xinput14 := WideNull(candidates[0]);
      var xinput91 := WideNull(candidates[1]);
      var xinput13 := WideNull(candidates[2]);
      libNames := [xinput14, xinput91, xinput13];
      assert forall i | 0 <= i < 3 :: libNames[i] == WideNullOf(candidates[i]);
    }

    /** The probing loop of `dynamic_load_xinput`: `LoadLibraryW` on each
        name in turn, stopping at the first non-null handle, which is
        returned; null when every name fails. */
    method ProbeCandidates(libNames: seq<seq<u16>>) returns (xinputHandle: HModule)
      modifies this`loadLog
      ensures xinputHandle == if FirstLoadable(os, libNames) < |libNames|
                              then os.Load(libNames[FirstLoadable(os, libNames)]) else NULL
      ensures loadLog == old(loadLog) + Attempted(libNames, FirstLoadable(os, libNames))
    {
      xinputHandle := NULL;
      var i := 0;
      while i < |libNames|
        invariant 0 <= i <= |libNames|
        invariant forall j | 0 <= j < i :: os.Load(libNames[j]) == NULL
        invariant xinputHandle == NULL
        invariant loadLog == old(loadLog) + libNames[..i]
      {
        xinputHandle := LoadLibraryW(libNames[i]);
        if xinputHandle != NULL {
          assert FirstLoadable(os, libNames) == i;
          assert loadLog == old(loadLog) + libNames[..i + 1];
          break;
        }
        i := i + 1;
      }
    }

    /** What a load that has taken the register to LOADING does, given the
        names it probes: it stops at the first name that loads (`k`) and
        tries no later one. If none loads, the register returns to
        UNINITIALIZED and nothing else changes; if that library binds both
        symbols, its handle is stored and the register becomes ACTIVE; if it
        lacks either, both pointers are cleared, that library is freed and
        the register returns to UNINITIALIZED. */
    twostate predicate LoadedFrom(names: seq<seq<u16>>)
      reads this
    {
      var k := FirstLoadable(os, names);
      && loadLog == old(loadLog) + Attempted(names, k)
      && (k == |names| ==>
            && status == UNINITIALIZED && handle == old(handle)
            && getState == old(getState) && setState == old(setState) && freed == old(freed))
      && (k < |names| && os.Binds(os.Load(names[k])) ==>
            && status == ACTIVE && handle == os.Load(names[k])
            && getState == Some(os.ProcAddress(handle, GetStateName))
            && setState == Some(os.ProcAddress(handle, SetStateName))
            && freed == old(freed))
      && (k < |names| && !os.Binds(os.Load(names[k])) ==>
            && status == UNINITIALIZED && handle == old(handle)
            && getState == None && setState == None
            && freed == old(freed) + [os.Load(names[k])])
    }

    /** `dynamic_load_xinput`. Only a call that finds the register
        UNINITIALIZED does anything, and it then loads from the candidates
        in their fixed order; every other status value (LOADING, ACTIVE or
        unknown) leaves all state as it was. No call ends in LOADING. */
    method DynamicLoad()
      requires Valid()
      modifies this`status, this`handle, this`getState, this`setState, this`loadLog, this`freed
      ensures Valid()
      ensures old(status) != UNINITIALIZED ==>
        && status == old(status) && handle == old(handle)
        && getState == old(getState) && setState == old(setState)
        && loadLog == old(loadLog) && freed == old(freed)
      ensures old(status) == UNINITIALIZED ==> LoadedFrom(WideNames(candidates))
      ensures old(status) == UNINITIALIZED ==> status == UNINITIALIZED || status == ACTIVE
    {
      var seen := CompareExchange(UNINITIALIZED, LOADING);
      match seen
      case Failure(_) =>
        // Already LOADING, already ACTIVE or an unknown state: only logged.
      case Success(_) =>
        LoadCandidates();
    }

    /** The `Ok` arm of `dynamic_load_xinput` on the three candidate names. */
    method LoadCandidates()
      requires candidates == Candidates
      requires status == LOADING && getState == None && setState == None
      modifies this`status, this`handle, this`getState, this`setState, this`loadLog, this`freed
      ensures LoadedFrom(WideNames(candidates))
      ensures Valid()
      ensures status == UNINITIALIZED || status == ACTIVE
    {
      var libNames := WideCandidateNames();
      LoadFrom(libNames);
    }

    /** The `Ok` arm of `dynamic_load_xinput`, for any list of names: probe
        them, then bind both symbols of the library found or roll back. The
        binding tests the global pointers, as `dynamic_load_xinput` does; that they
        start unset is what keeps a stale pointer out of an ACTIVE state. */
    method LoadFrom(libNames: seq<seq<u16>>)
      requires candidates == Candidates
      requires status == LOADING && getState == None && setState == None
      modifies this`status, this`handle, this`getState, this`setState, this`loadLog, this`freed
      ensures LoadedFrom(libNames)
      ensures Valid()
      ensures status == UNINITIALIZED || status == ACTIVE
    {
      var xinputHandle := ProbeCandidates(libNames);
      if xinputHandle == NULL {
        var _ := CompareExchange(LOADING, UNINITIALIZED);
      } else {
        var getStatePtr := os.ProcAddress(xinputHandle, GetStateName);
        if getStatePtr != NULL {
          getState := Some(getStatePtr);
        }
        var setStatePtr := os.ProcAddress(xinputHandle, SetStateName);
        if setStatePtr != NULL {
          setState := Some(setStatePtr);
        }
        if getState.Some? && setState.Some? {
          handle := xinputHandle;
          var _ := CompareExchange(LOADING, ACTIVE);
        } else {
          getState := None;
          setState := None;
          FreeLibrary(xinputHandle);
          var _ := CompareExchange(LOADING, UNINITIALIZED);
        }
      }
    }

    /** `xinput_get_state`: when not ACTIVE, `None` and no native call.
        Otherwise exactly one call through the bound pointer with a zeroed
        output record; the record it fills is returned on `ERROR_SUCCESS`,
        and both `ERROR_DEVICE_NOT_CONNECTED` and any other code give `None`. */
    method GetState(userIndex: u32, native: GetStateFn) returns (r: Option<XInputState>)
      requires Valid()
      modifies this`calls
      ensures status != ACTIVE ==> r == None && calls == old(calls)
      ensures status == ACTIVE ==>
        var fn := os.ProcAddress(handle, GetStateName);
        var reply := native(fn, userIndex, ZeroedState);
        && calls == old(calls) + [GetStateCall(fn, userIndex, ZeroedState)]
        && (r.Some? <==> reply.code == ERROR_SUCCESS)
        && (r.Some? ==> r.value == reply.state)
    {
      if status == ACTIVE {
        var output := ZeroedState;
        var func := getState.value;
        var reply := native(func, userIndex, output);
        calls := calls + [GetStateCall(func, userIndex, output)];
        var returnStatus := reply.code;
        if returnStatus == ERROR_SUCCESS {
          return Some(reply.state);
        } else if returnStatus == ERROR_DEVICE_NOT_CONNECTED {
          return None;
        } else {
          // Unexpected error code: traced and dropped.
          return None;
        }
      } else {
        r := None;
      }
    }

    /** `xinput_set_state`: when not ACTIVE, `None` and no native call.
        Otherwise exactly one call through the bound pointer with a vibration
        record holding the two motor speeds unchanged; `ERROR_SUCCESS` gives
        `Some(())`, any other code `None`. */
    method SetState(userIndex: u32, leftMotorSpeed: u16, rightMotorSpeed: u16, native: SetStateFn)
      returns (r: Option<()>)
      requires Valid()
      modifies this`calls
      ensures status != ACTIVE ==> r == None && calls == old(calls)
      ensures status == ACTIVE ==>
        var fn := os.ProcAddress(handle, SetStateName);
        var vibration := XInputVibration(leftMotorSpeed, rightMotorSpeed);
        && calls == old(calls) + [SetStateCall(fn, userIndex, vibration)]
        && r == (if native(fn, userIndex, vibration) == ERROR_SUCCESS then Some(()) else None)
    {
      if status == ACTIVE {
        var input := XInputVibration(leftMotorSpeed, rightMotorSpeed);
        var func := setState.value;
        var returnStatus := native(func, userIndex, input);
        calls := calls + [SetStateCall(func, userIndex, input)];
        if returnStatus == ERROR_SUCCESS {
          return Some(());
        } else if returnStatus == ERROR_DEVICE_NOT_CONNECTED {
          return None;
        } else {
          // Unexpected error code: traced and dropped.
          return None;
        }
      } else {
        r := None;
      }
    }
  }
}
