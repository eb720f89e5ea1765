/**
 * The start-up hardware check: the board's OTP block is used unless its first
 * byte is still erased (0xff), in which case the RAM copy used during
 * manufacturing stands in for it; bytes 3, 4 and 5 must then equal the
 * hardware version the firmware was built for, or start-up halts.
 */
module BoardVersion {
  type byte = x: int | 0 <= x < 256

  /** HW_VERSION_MAJOR, HW_VERSION_MINOR, HW_VERSION_VOLTAGE of the build. */
  datatype HwVersion = HwVersion(major: byte, minor: byte, voltage: byte)

  const ErasedOtpByte: byte := 0xff

  function CheckBoardVersion(otp: seq<byte>, hw: HwVersion): (ok: bool)
    requires |otp| > 5
    ensures ok <==> otp[3..6] == [hw.major, hw.minor, hw.voltage]
  {
    otp[3] == hw.major && otp[4] == hw.minor && otp[5] == hw.voltage
  }

  /** The OTP area init reads: the flash OTP, or the fake OTP when the flash OTP is pristine. */
  function SelectOtp(flashOtp: seq<byte>, fakeOtp: seq<byte>): (otp: seq<byte>)
    requires |flashOtp| > 0
    ensures flashOtp[0] == ErasedOtpByte ==> otp == fakeOtp
    ensures flashOtp[0] != ErasedOtpByte ==> otp == flashOtp
  {
    if flashOtp[0] == ErasedOtpByte then fakeOtp else flashOtp
  }

  datatype StartUp = Continue | HaltForever

  /** The version gate of init: on a mismatch the firmware spins in `for (;;);`. */
  function VersionGate(flashOtp: seq<byte>, fakeOtp: seq<byte>, hw: HwVersion): (r: StartUp)
    requires |flashOtp| > 5 && |fakeOtp| > 5
    ensures r == Continue <==>
              if flashOtp[0] == ErasedOtpByte then fakeOtp[3..6] == [hw.major, hw.minor, hw.voltage]
              else flashOtp[3..6] == [hw.major, hw.minor, hw.voltage]
  {
    if CheckBoardVersion(SelectOtp(flashOtp, fakeOtp), hw) then Continue else HaltForever
  }

  /** A pristine flash OTP whose version bytes would match cannot pass the gate on its own: only the fake OTP counts. */
  lemma PristineOtpDefersToFake(flashOtp: seq<byte>, fakeOtp: seq<byte>, hw: HwVersion)
    requires |flashOtp| > 5 && |fakeOtp| > 5
    requires flashOtp[0] == ErasedOtpByte
    ensures VersionGate(flashOtp, fakeOtp, hw) == VersionGate([ErasedOtpByte, 0, 0, 0, 0, 0], fakeOtp, hw)
  {
  }
}
