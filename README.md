# A verified model of the legacy XInput loader of rusty-xinput

This project models `examples/demo.rs` of rusty-xinput. That file is a
self-contained, older form of the crate's XInput binding. It has three parts:

- **Wide-string codec.** `wide_null` turns a DLL name into the
  NUL-terminated UTF-16 buffer that `LoadLibraryW` expects. `show_wide_null`
  turns such a buffer back into text for the trace log, keeping the low byte
  of each unit up to the first 0.
- **Global load state machine.** `dynamic_load_xinput` works on four
  process-wide statics: the status register (UNINITIALIZED = 0, LOADING = 1,
  ACTIVE = 2), the module handle and the two optional function pointers.
  Only a call that finds the register UNINITIALIZED does any work. It probes
  `xinput1_4.dll`, `xinput9_1_0.dll` and `xinput1_3.dll` in that order and
  stops at the first one that loads. It then binds `XInputGetState` and
  `XInputSetState` all-or-nothing: either the handle is stored and the
  register becomes ACTIVE, or both pointers are cleared, the library is
  freed and the register returns to UNINITIALIZED.
- **Gated queries.** `xinput_get_state` and `xinput_set_state` return `None`
  without any native call unless the register is ACTIVE. Otherwise they make
  exactly one call through the bound pointer and map `ERROR_SUCCESS` to
  `Some`. `ERROR_DEVICE_NOT_CONNECTED` and every other code map to `None`.

## Files and modules

- `wrappers.dfy` (`Wrappers`): `Option`, and `Result` for the outcome of
  `compare_exchange`.
- `winapi.dfy` (`Winapi`): the integer widths, `HMODULE` and addresses as
  pointer-sized integers with 0 as null, the two return codes, and the
  `XINPUT_STATE`, `XINPUT_GAMEPAD` and `XINPUT_VIBRATION` records.
- `wide_string.dfy` (`WideString`): the codec.
  - `Utf16` is Rust's `encode_utf16`: one unit per character inside the
    Basic Multilingual Plane, a surrogate pair above it.
  - `WideNullOf` is the buffer `wide_null` returns, and `WideNull` is its
    pushing loop, proved equal to it.
  - `ShowWideNull` is the iterator chain of `show_wide_null`.
- `xinput_demo.dfy` (`XInputDemo`): the class `XInputGlobals`, whose fields
  are the four statics, with the loader and the two queries as methods.
  - The operating system is a constant `Os` value. `LoadLibraryW` is a map from
    the wide buffer to a handle, and a missing name loads as null.
    `GetProcAddress` is a function from a handle and a symbol name to an
    address, and 0 means not exported.
  - `LoadLibraryW`, `FreeLibrary` and every call through a bound pointer are
    recorded in ghost logs (`loadLog`, `freed`, `calls`), so the contracts
    can say which libraries were probed, which were freed and which native
    calls were made.
  - Each query receives the bound function as an oracle parameter, because
    the controller's answer changes from one poll to the next.

Two definitions carry the state-machine proofs:

- `XInputGlobals.Valid()` is the register invariant. In UNINITIALIZED both
  pointers are `None`. In ACTIVE the handle is non-null and both pointers are
  `Some` of the addresses resolved from that handle. This is what makes the
  `unwrap` of either pointer in the two queries safe, and the queries require
  it. The first half is needed too. `dynamic_load_xinput` assigns a pointer
  only when `GetProcAddress` succeeds, and it then tests the global options
  rather than the fresh addresses. So a stale `Some` left over from an
  earlier state could carry a load into ACTIVE with a pointer from another
  library. The invariant rules that out, and the constructor (the statics'
  initial values) establishes it.
- `XInputGlobals.LoadedFrom(names)` (a two-state predicate) describes the
  whole outcome of a load over a list of names, in terms of `FirstLoadable`.

The probing names are held in the class constant `candidates`. The
constructor sets it to the three names, and the register invariant pins it
to them, so every load probes them in their fixed order. The three
`wide_null` calls encode these names on every load, as `dynamic_load_xinput` does.

## Model

| member | source | states |
|---|---|---|
| WideString.CharUnits | examples/demo.rs:32 | The UTF-16 units of one character: one or two units. The first is 0 exactly for NUL. Two units form a high/low surrogate pair that decodes back to the character. |
| WideString.Utf16 | examples/demo.rs:32 | The units of a string: at least one and at most two per character. A 0 unit appears exactly when the string contains NUL. |
| WideString.WideNull | examples/demo.rs:30-37 | The output is the units of the name followed by one 0. Its length is the unit count plus one and its last element is 0. Without a NUL in the name, that final 0 is the only one. |
| WideString.LowByte | examples/demo.rs:43 | `u as u8 as char` gives a character below 256, equal to the unit when the unit is below 256. |
| WideString.ShowWideNull | examples/demo.rs:39-45 | The result is exactly as long as the prefix before the first 0 unit, or the whole input when there is no 0. Each character is the low byte of the corresponding unit. |
| WideString.ShowWideNullStopsAtZero | examples/demo.rs:42 | Units after the first 0 are never read: cutting the buffer just after any 0 unit shows the same text. |
| WideString.ShowWideNullOfWideNull | examples/demo.rs:30-45 | `show_wide_null(wide_null(s)) == s` holds exactly when every character of `s` is in 1..255. ASCII names without NUL are a special case. NUL truncates the text, and wider characters are changed. |
| XInputDemo.WideNames | examples/demo.rs:61-63 | The names as the three `wide_null` calls encode them, one buffer per name, in the same order. It is the specification that `WideCandidateNames` and `DynamicLoad` are stated against. |
| XInputDemo.FirstLoadable | examples/demo.rs:66-76 | The index of the first name whose load is non-null, or the list length. Every earlier name loads as null. |
| XInputDemo.Attempted | examples/demo.rs:66-76 | The names a probe hands to the loader: a prefix of the list that ends at the first loadable name, or the whole list when none loads. |
| XInputDemo.CandidatesShowAsWritten | examples/demo.rs:61-73 | For every candidate index, the trace line of the probe shows that candidate under its own name. |
| XInputDemo.CandidatesDistinct | examples/demo.rs:61-66 | For every two different candidate indices, the encoded names differ, so no probe repeats a library. |
| XInputDemo.XInputGlobals.constructor | examples/demo.rs:20-28 | The initial statics: status 0, null handle, both pointers `None`, the three fixed candidates. The register invariant holds. |
| XInputDemo.XInputGlobals.CompareExchange | examples/demo.rs:50 | The single-threaded effect of `compare_exchange`. The register takes the new value exactly when it held the expected one. The result is `Ok(previous)` or `Err(seen)`. |
| XInputDemo.XInputGlobals.LoadLibraryW | examples/demo.rs:71 | Returns the oracle's handle for the name and records the attempt. |
| XInputDemo.XInputGlobals.FreeLibrary | examples/demo.rs:111 | Records the freed handle. |
| XInputDemo.XInputGlobals.WideCandidateNames | examples/demo.rs:61-63 | The three `wide_null` calls produce the candidates' wide encodings, in order. |
| XInputDemo.XInputGlobals.ProbeCandidates | examples/demo.rs:65-76 | Returns the handle of the first name that loads, or null when none does. Exactly the names up to that one are attempted, in order, and no later one. |
| XInputDemo.XInputGlobals.LoadFrom | examples/demo.rs:77-117 | After the probe: if no library loaded, the state returns to UNINITIALIZED with handle and pointers unchanged. If the library binds both symbols, the handle is stored, both pointers are set and the state is ACTIVE. Otherwise both pointers become `None`, that library is freed and the state is UNINITIALIZED. It never ends in LOADING, and the invariant holds. |
| XInputDemo.XInputGlobals.LoadCandidates | examples/demo.rs:60-118 | The `Ok` arm as a whole: the load outcome over the three encoded candidates. |
| XInputDemo.XInputGlobals.DynamicLoad | examples/demo.rs:47-120 | Preserves the invariant. With the status LOADING, ACTIVE or unknown, no field and no log changes. From UNINITIALIZED it gives the load outcome over the candidates in their fixed order and ends in UNINITIALIZED or ACTIVE, never LOADING. |
| XInputDemo.XInputGlobals.GetState | examples/demo.rs:122-140 | When not ACTIVE: `None` and no native call. Otherwise exactly one call, through the pointer bound to the stored handle, with a zeroed output record. The result is `Some` exactly when the code is `ERROR_SUCCESS`, and then holds the record the call filled. |
| XInputDemo.XInputGlobals.SetState | examples/demo.rs:142-163 | When not ACTIVE: `None` and no native call. Otherwise exactly one call, through the pointer bound to the stored handle, with a vibration record carrying both motor speeds unchanged. The result is `Some(())` exactly when the code is `ERROR_SUCCESS`. |

## Left out

- Concurrency: the register is an `AtomicUsize` updated by `compare_exchange`
  with sequentially consistent ordering. Here it is a plain field and calls
  run one at a time, so a second thread that observes LOADING mid-load is not
  modelled. A LOADING or unknown status is still accepted as a starting state,
  and then nothing changes.
- FFI: `LoadLibraryW`, `GetProcAddress`, `FreeLibrary`, `mem::transmute` and
  calls through raw function pointers are oracles or ghost logs.
  - The loader answers the same handle for the same name on every call, so
    reference counting and a library mapped at a new address after
    `FreeLibrary` are not modelled.
  - Symbol names are passed as text. The `CString` conversion, whose `unwrap`
    cannot fail for these NUL-free names, is not modelled.
- Logging: the `trace!`, `debug!` and `warn!` calls and `simple_logger` are
  left out. The three `Err` arms of the first `compare_exchange` differ only
  in what they log, so they are one branch here.
- `main` (examples/demo.rs:167-188): an endless sleep-and-poll loop doing I/O.
- examples/xinput_demo.rs: a polling and printing loop over the crate's
  `xinput` module, and that module is not part of this model.
- src/lib.rs: only crate attributes and module declarations.
- The typed load results (already loading, already active, unknown state,
  no DLL, no pointers) and the controller-index check (reject index 4 and
  above) of the newer handle-based binding: `dynamic_load_xinput` here
  returns `()`, and the two queries pass `user_index` through unchecked, so
  neither is modelled. Stick normalisation, capabilities, battery and
  keystroke queries are not in this file.
- The generic `S: AsRef<str>` parameter of `wide_null` is a `string`.
