/** The decision of `i2c_error_handler` (src/test_pca9685.c:55-109): which
    transport error codes make it power-cycle the device.  The nine codes
    are macros of the I2C library, whose values are not part of this model,
    so they are a parameter. */
module ErrorHandler {

  /** The values of the library's nine error macros.  The library returns
      an error as the negated macro, so `read_i2c` failing with ENACK
      returns `-enack`. */
  datatype ErrorCodes = ErrorCodes(
    enack: int, ebadxfr: int, ebadregaddr: int, eclktimeout: int, enackrst: int,
    ebuslockup: int, ebusunkerr: int, efailstcond: int, edevicehung: int)

  /** The case labels of the switch, in source order. */
  function RebootCases(codes: ErrorCodes): (cases: seq<int>)
  {
    [-codes.enack, -codes.ebadxfr, -codes.ebadregaddr, -codes.eclktimeout, -codes.enackrst,
     -codes.ebuslockup, -codes.ebusunkerr, -codes.efailstcond, -codes.edevicehung]
  }

  /** What C demands of the macros for the switch to compile (distinct case
      labels), and what the convention of returning negated codes needs
      (positive values, so that no success status looks like an error). */
  predicate ValidCodes(codes: ErrorCodes) {
    var cases := RebootCases(codes);
    (forall i :: 0 <= i < 9 ==> cases[i] < 0) &&
    (forall i, j :: 0 <= i < j < 9 ==> cases[i] != cases[j])
  }

  /** The switch at :58-105: every listed case reboots, `default` does
      nothing. */
  function RequestsReboot(codes: ErrorCodes, errno: int): bool
  {
    if errno == -codes.enack then true
    else if errno == -codes.ebadxfr then true
    else if errno == -codes.ebadregaddr then true
    else if errno == -codes.eclktimeout then true
    else if errno == -codes.enackrst then true
    else if errno == -codes.ebuslockup then true
    else if errno == -codes.ebusunkerr then true
    else if errno == -codes.efailstcond then true
    else errno == -codes.edevicehung
  }

  /** The handler reboots exactly for the listed codes. */
  lemma RebootsExactlyForListed(codes: ErrorCodes, errno: int)
    ensures RequestsReboot(codes, errno) <==> errno in RebootCases(codes)
  {
    var cases := RebootCases(codes);
    if errno in cases {
      var i :| 0 <= i < 9 && cases[i] == errno;
    }
  }

  /** Only errors reboot: a status that is not negative never does. */
  lemma OnlyErrorsReboot(codes: ErrorCodes, errno: int)
    requires ValidCodes(codes)
    ensures RequestsReboot(codes, errno) ==> errno < 0
  {
    var cases := RebootCases(codes);
    if RequestsReboot(codes, errno) {
      RebootsExactlyForListed(codes, errno);
      var i :| 0 <= i < 9 && cases[i] == errno;
    }
  }
}
