/** The Windows integer widths, records and return codes that the demo
    takes from the `winapi` crate. Pointers and module handles are
    pointer-sized integers in which 0 is the null pointer. */
module Winapi {

  type u8 = x: int | 0 <= x < 0x100
  type u16 = x: int | 0 <= x < 0x1_0000
  type u32 = x: int | 0 <= x < 0x1_0000_0000
  type i16 = x: int | -0x8000 <= x < 0x8000
  type usize = x: int | 0 <= x < 0x1_0000_0000_0000_0000

  /** `DWORD`: the return code of every XInput call. */
  type Dword = u32

  /** `HMODULE` and a resolved procedure address; 0 is null. */
  type HModule = usize
  type Address = usize

  const NULL: usize := 0

  const ERROR_SUCCESS: Dword := 0
  const ERROR_DEVICE_NOT_CONNECTED: Dword := 1167

  /** `XINPUT_GAMEPAD`: button bitmask, two trigger magnitudes, four stick axes. */
  datatype XInputGamepad = XInputGamepad(
    buttons: u16,
    leftTrigger: u8,
    rightTrigger: u8,
    thumbLX: i16,
    thumbLY: i16,
    thumbRX: i16,
    thumbRY: i16)

  /** `XINPUT_STATE`: a packet number and the gamepad snapshot. */
  datatype XInputState = XInputState(packetNumber: Dword, gamepad: XInputGamepad)

  /** `XINPUT_VIBRATION`: the two motor speeds. */
  datatype XInputVibration = XInputVibration(leftMotorSpeed: u16, rightMotorSpeed: u16)

  /** The value `mem::zeroed()` produces for an `XINPUT_STATE`. */
  const ZeroedState: XInputState := XInputState(0, XInputGamepad(0, 0, 0, 0, 0, 0, 0))
}
