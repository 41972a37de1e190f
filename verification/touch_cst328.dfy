/** Model of the CST328 capacitive touch controller driver: the register address
    framing, the decode of the 7-byte finger report, the error paths of a point
    read, and the action sequence of the initialisation routine.

    The decode is written with the driver's own shifts, masks and ors (as the
    functions of `Unsigned`); the contracts state what they compute in plain
    integer arithmetic. */
module TouchCst328 {
  import opened Unsigned

  // esp_err_t values used by the driver
  const ESP_OK: int := 0
  const ESP_FAIL: int := -1
  const ESP_ERR_INVALID_ARG: int := 0x102

  /** Any esp_err_t other than ESP_OK. */
  type ErrCode = e: int | e != ESP_OK witness ESP_FAIL

  // Device constants
  const CST328_I2C_ADDR_7BIT: int := 0x1A
  const CST328_BASE_REG: uint16 := 0xD000
  const REPORT_LEN: nat := 7
  const READ_TIMEOUT_MS: nat := 20
  const RESET_LOW_MS: nat := 5
  const BOOT_DELAY_MS: nat := 220

  /** The status code (low nibble of byte 0) that means "finger down". */
  const PRESSED_STATUS: uint8 := 0x06

  /** A finger report exactly as read from the base register. */
  type Report = s: seq<uint8> | |s| == 7 witness [0, 0, 0, 0, 0, 0, 0]

  /** The decoded point (cst328_point_t). */
  datatype TouchPoint = TouchPoint(x: uint16, y: uint16, pressure: uint8, pressed: bool)

  /** What the platform's combined write-then-read call gives back: the bytes it
      read, or the error it reported. */
  datatype BusReply = Received(data: seq<uint8>) | Failed(err: ErrCode)

  /** One combined write-then-read transaction issued on the I2C bus. */
  datatype Transaction = WriteRead(port: int, addr7: int, write: seq<uint8>, readLen: nat, timeoutMs: nat)

  /** One platform call made by the initialisation routine, in order. */
  datatype InitAction =
    | ConfigureBus(port: int, sda: int, scl: int, pullUps: bool, clkHz: nat)
    | InstallBusDriver(port: int)
    | ConfigureOutput(pin: int)
    | SetLevel(pin: int, level: int)
    | DelayMs(ms: nat)
    | ConfigureInput(pin: int, pullUp: bool, pullDown: bool)

  // ---------------------------------------------------------------------------
  // Register address framing

  /** The two address bytes put on the wire before a register read: high byte first. */
  function SplitAddress(reg16: uint16): (reg: seq<uint8>)
    ensures |reg| == 2 && reg[0] as int * 256 + reg[1] as int == reg16
  {
    Pow2Values();
    LowMask(reg16, 8);
    var hi, lo := reg16 / 256, reg16 % 256;
    assert ShiftRight(reg16, 8) == hi && BitAnd(reg16, 0xFF) == lo;
    DivModUnique(hi, 256, 0, hi);
    DivModUnique(lo, 256, 0, lo);
    [ToU8(ShiftRight(reg16, 8)), ToU8(BitAnd(reg16, 0xFF))]
  }

  /** The register address the device assembles from the two wire bytes. */
  function JoinAddress(reg: seq<uint8>): (reg16: uint16)
    requires |reg| == 2
    ensures reg16 == reg[0] as int * 256 + reg[1] as int
  {
    Pow2Values();
    DisjointOr(reg[0], reg[1], 8);
    ToU16(BitOr(ShiftLeft(reg[0], 8), reg[1]))
  }

  /** Splitting and joining are inverse: no address is lost on the wire. */
  lemma {:induction false} AddressRoundTrip(reg16: uint16, wire: seq<uint8>)
    requires |wire| == 2
    ensures JoinAddress(SplitAddress(reg16)) == reg16
    ensures SplitAddress(JoinAddress(wire)) == wire
  {
    var w := SplitAddress(JoinAddress(wire));
    DivModUnique(JoinAddress(wire), 256, wire[0], wire[1]);
    DivModUnique(JoinAddress(wire), 256, w[0], w[1]);
    assert w[0] == wire[0] && w[1] == wire[1];
  }

  /** The base register goes out as D0 00. */
  lemma BaseRegisterOnWire()
    ensures SplitAddress(CST328_BASE_REG) == [0xD0, 0x00]
  {
    var w := SplitAddress(CST328_BASE_REG);
    DivModUnique(CST328_BASE_REG, 256, w[0], w[1]);
    DivModUnique(CST328_BASE_REG, 256, 0xD0, 0x00);
  }

  // ---------------------------------------------------------------------------
  // Report decode

  /** `pressed` is derived from the status nibble only. */
  function IsPressedStatus(idStatus: uint8): (pressed: bool)
    ensures pressed <==> idStatus % 16 == PRESSED_STATUS
  {
    Pow2Values();
    LowMask(idStatus, 4);
    BitAnd(idStatus, 0x0F) == PRESSED_STATUS
  }

  /** 12-bit coordinate: eight high bits from `xh`, four low bits from the
      upper nibble of the shared byte. */
  function CoordX(xh: uint8, xyLow: uint8): (x: uint16)
    ensures x == xh as int * 16 + xyLow as int / 16
  {
    Pow2Values();
    var lo := xyLow / 16;
    assert ShiftRight(xyLow, 4) == lo && lo < 16;
    DisjointOr(xh, lo, 4);
    var v := xh * 16 + lo;
    assert BitOr(ShiftLeft(xh, 4), lo) == v;
    DivModUnique(v, 0x1_0000, 0, v);
    ToU16(BitOr(ShiftLeft(xh, 4), ShiftRight(xyLow, 4)))
  }

  /** 12-bit coordinate: eight high bits from `yh`, four low bits from the
      lower nibble of the shared byte. */
  function CoordY(yh: uint8, xyLow: uint8): (y: uint16)
    ensures y == yh as int * 16 + xyLow as int % 16
  {
    Pow2Values();
    LowMask(xyLow, 4);
    var lo := xyLow % 16;
    assert BitAnd(xyLow, 0x0F) == lo;
    DisjointOr(yh, lo, 4);
    var v := yh * 16 + lo;
    assert BitOr(ShiftLeft(yh, 4), lo) == v;
    DivModUnique(v, 0x1_0000, 0, v);
    ToU16(BitOr(ShiftLeft(yh, 4), BitAnd(xyLow, 0x0F)))
  }

  /** The point a finger report decodes to. Bytes 5 and 6 are read but unused. */
  function Decode(buf: Report): (pt: TouchPoint)
    ensures pt.pressed <==> buf[0] % 16 == 6
    ensures pt.x == buf[1] as int * 16 + buf[3] as int / 16
    ensures pt.y == buf[2] as int * 16 + buf[3] as int % 16
    ensures pt.x <= 0xFFF && pt.y <= 0xFFF
    ensures pt.pressure == buf[4]
  {
    TouchPoint(CoordX(buf[1], buf[3]), CoordY(buf[2], buf[3]), buf[4], IsPressedStatus(buf[0]))
  }

  /** Bytes 1 to 3 of a report, packed back from a point's coordinates with the
      inverse shifts and masks. */
  function EncodeCoordinates(x: uint16, y: uint16): (b: seq<uint8>)
    requires x <= 0xFFF && y <= 0xFFF
    ensures b == [x as int / 16, y as int / 16, (x as int % 16) * 16 + y as int % 16]
  {
    Pow2Values();
    LowMask(x, 4);
    LowMask(y, 4);
    DisjointOr(x % 16, y % 16, 4);
    var b1, b2, b3 := x as int / 16, y as int / 16, (x as int % 16) * 16 + y as int % 16;
    assert ShiftRight(x, 4) == b1 && ShiftRight(y, 4) == b2;
    assert BitOr(ShiftLeft(BitAnd(x, 0x0F), 4), BitAnd(y, 0x0F)) == b3;
    DivModUnique(b1, 256, 0, b1);
    DivModUnique(b2, 256, 0, b2);
    DivModUnique(b3, 256, 0, b3);
    [ToU8(ShiftRight(x, 4)), ToU8(ShiftRight(y, 4)), ToU8(BitOr(ShiftLeft(BitAnd(x, 0x0F), 4), BitAnd(y, 0x0F)))]
  }

  lemma SplitPacked(hi: int, lo: int)
    requires 0 <= lo < 16
    ensures (hi * 16 + lo) / 16 == hi && (hi * 16 + lo) % 16 == lo
  {
    DivModUnique(hi * 16 + lo, 16, hi, lo);
  }

  /** The coordinate bytes are fully recoverable from a decoded point. */
  lemma {:induction false} CoordinatesRoundTrip(buf: Report)
    ensures Decode(buf).x / 16 == buf[1] && Decode(buf).y / 16 == buf[2]
    ensures (Decode(buf).x % 16) * 16 + Decode(buf).y % 16 == buf[3]
    ensures EncodeCoordinates(Decode(buf).x, Decode(buf).y) == buf[1..4]
  {
    var pt := Decode(buf);
    SplitPacked(buf[1], buf[3] / 16);
    SplitPacked(buf[2], buf[3] % 16);
    assert pt.x / 16 == buf[1] && pt.y / 16 == buf[2];
    assert (pt.x % 16) * 16 + pt.y % 16 == buf[3];
    var e := EncodeCoordinates(pt.x, pt.y);
    assert e[0] == buf[1] && e[1] == buf[2] && e[2] == buf[3];
  }

  /** Every pair of 12-bit coordinates is reported by some report, and it does
      not matter what the other bytes hold. */
  lemma {:induction false} EncodeThenDecode(x: uint16, y: uint16, status: uint8, pressure: uint8, rest: seq<uint8>)
    requires x <= 0xFFF && y <= 0xFFF && |rest| == 2
    ensures Decode([status] + EncodeCoordinates(x, y) + [pressure] + rest) ==
            TouchPoint(x, y, pressure, IsPressedStatus(status))
  {
    var e := EncodeCoordinates(x, y);
    var buf: Report := [status] + e + [pressure] + rest;
    assert buf[1] == x / 16 && buf[2] == y / 16 && buf[3] == (x % 16) * 16 + y % 16 && buf[4] == pressure;
    SplitPacked(x % 16, y % 16);
  }

  /** Only bytes 0 to 4 influence the point, and of byte 0 only its low nibble. */
  lemma IgnoredBits(a: Report, b: Report)
    requires a[0] % 16 == b[0] % 16
    requires a[1..5] == b[1..5]
    ensures Decode(a) == Decode(b)
  {
    assert a[1] == b[1] && a[2] == b[2] && a[3] == b[3] && a[4] == b[4];
  }

  /** A pressed report: x = 0x12 << 4 | 0x5, y = 0x34 << 4 | 0x6. */
  lemma DecodeExample()
    ensures Decode([0x06, 0x12, 0x34, 0x56, 0x7F, 0x00, 0x00]) == TouchPoint(0x125, 0x346, 127, true)
  {}

  /** All coordinate bits set give the largest 12-bit coordinates. */
  lemma DecodeMaxExample()
    ensures Decode([0x06, 0xFF, 0xFF, 0xFF, 0xFF, 0x00, 0x00]) == TouchPoint(0xFFF, 0xFFF, 0xFF, true)
  {}

  /** A status nibble other than 6 is not a press. */
  lemma DecodeReleasedExample()
    ensures !Decode([0x01, 0x12, 0x34, 0x56, 0x7F, 0x00, 0x00]).pressed
  {}

  // ---------------------------------------------------------------------------
  // Initialisation action sequence

  /** The reset pulse on an assigned reset line: output, low, 5 ms, high. */
  function ResetPulse(rst: int): seq<InitAction>
  {
    [ConfigureOutput(rst), SetLevel(rst, 0), DelayMs(RESET_LOW_MS), SetLevel(rst, 1)]
  }

  /** The platform calls `cst328_init` makes, in order. A negative pin number
      means "not wired". */
  function InitSequence(port: int, sda: int, scl: int, rst: int, irq: int, clkHz: nat): seq<InitAction>
  {
    [ConfigureBus(port, sda, scl, true, clkHz), InstallBusDriver(port)]
    + (if rst >= 0 then ResetPulse(rst) else [])
    + (if irq >= 0 then [ConfigureInput(irq, true, false)] else [])
    + [DelayMs(BOOT_DELAY_MS)]
  }

  predicate HasResetPulse(acts: seq<InitAction>, rst: int)
  {
    exists i :: 0 <= i <= |acts| - 3 &&
      acts[i] == SetLevel(rst, 0) && acts[i + 1] == DelayMs(RESET_LOW_MS) && acts[i + 2] == SetLevel(rst, 1)
  }

  /** The reset line is driven iff it is assigned, and then as a low-wait-high pulse. */
  lemma {:induction false} ResetPulseIffAssigned(port: int, sda: int, scl: int, rst: int, irq: int, clkHz: nat)
    ensures HasResetPulse(InitSequence(port, sda, scl, rst, irq, clkHz), rst) <==> rst >= 0
    ensures (exists i :: 0 <= i < |InitSequence(port, sda, scl, rst, irq, clkHz)| &&
               InitSequence(port, sda, scl, rst, irq, clkHz)[i].SetLevel?) <==> rst >= 0
  {
    var acts := InitSequence(port, sda, scl, rst, irq, clkHz);
    if rst >= 0 {
      assert acts[3] == SetLevel(rst, 0) && acts[4] == DelayMs(RESET_LOW_MS) && acts[5] == SetLevel(rst, 1);
    } else {
      assert forall i :: 0 <= i < |acts| ==> !acts[i].SetLevel?;
    }
  }

  /** The interrupt line is configured, as an input with pull-up, iff it is assigned. */
  lemma {:induction false} IrqConfiguredIffAssigned(port: int, sda: int, scl: int, rst: int, irq: int, clkHz: nat)
    ensures ConfigureInput(irq, true, false) in InitSequence(port, sda, scl, rst, irq, clkHz) <==> irq >= 0
    ensures (exists i :: 0 <= i < |InitSequence(port, sda, scl, rst, irq, clkHz)| &&
               InitSequence(port, sda, scl, rst, irq, clkHz)[i].ConfigureInput?) <==> irq >= 0
  {
    var acts := InitSequence(port, sda, scl, rst, irq, clkHz);
    var n := if rst >= 0 then 6 else 2;
    if irq >= 0 {
      assert acts[n] == ConfigureInput(irq, true, false);
    } else {
      assert forall i :: 0 <= i < |acts| ==> !acts[i].ConfigureInput?;
    }
  }

  /** Whatever is wired, the bus is configured first (controller mode, pull-ups on)
      and the 220 ms boot delay comes last. */
  lemma {:induction false} BusFirstBootDelayLast(port: int, sda: int, scl: int, rst: int, irq: int, clkHz: nat)
    ensures var acts := InitSequence(port, sda, scl, rst, irq, clkHz);
      |acts| >= 3 && acts[0] == ConfigureBus(port, sda, scl, true, clkHz) &&
      acts[1] == InstallBusDriver(port) && acts[|acts| - 1] == DelayMs(BOOT_DELAY_MS)
  {
    var acts := InitSequence(port, sda, scl, rst, irq, clkHz);
    assert acts[|acts| - 1] == DelayMs(BOOT_DELAY_MS);
  }

  // ---------------------------------------------------------------------------
  // Driver state and operations

  /** The caller-owned output struct that a point read writes in place. */
  class PointStruct {
    var x: uint16
    var y: uint16
    var pressure: uint8
    var pressed: bool

    constructor (init: TouchPoint)
      ensures Value() == init
    {
      x, y, pressure, pressed := init.x, init.y, init.pressure, init.pressed;
    }

    function Value(): TouchPoint
      reads this
    {
      TouchPoint(x, y, pressure, pressed)
    }
  }

  /** The transaction a point read issues on the given port. */
  function ReportTransaction(port: int): Transaction
  {
    WriteRead(port, CST328_I2C_ADDR_7BIT, SplitAddress(CST328_BASE_REG), REPORT_LEN, READ_TIMEOUT_MS)
  }

  /** The driver's file-scope state: the bus port and the two pin assignments. */
  class Driver {
    var i2cPort: int
    var rstGpio: int
    var irqGpio: int

    /** The static initialisers: port zero, both pins unassigned. */
    constructor ()
      ensures i2cPort == 0 && rstGpio == -1 && irqGpio == -1
    {
      i2cPort, rstGpio, irqGpio := 0, -1, -1;
    }

    /** cst328_init: records the configuration and performs the platform calls.
        The platform calls are assumed to succeed (a failure aborts the program). */
    method Init(port: int, sda: int, scl: int, rst: int, irq: int, clkHz: nat)
      returns (err: int, actions: seq<InitAction>)
      modifies this
      ensures i2cPort == port && rstGpio == rst && irqGpio == irq
      ensures err == ESP_OK
      ensures actions == InitSequence(port, sda, scl, rst, irq, clkHz)
    {
      i2cPort := port;
      rstGpio := rst;
      irqGpio := irq;

      actions := [ConfigureBus(port, sda, scl, true, clkHz)];
      actions := actions + [InstallBusDriver(port)];

      if rst >= 0 {
        actions := actions + [ConfigureOutput(rst)];
        actions := actions + [SetLevel(rst, 0)];
        actions := actions + [DelayMs(RESET_LOW_MS)];
        actions := actions + [SetLevel(rst, 1)];
      }

      if irq >= 0 {
        actions := actions + [ConfigureInput(irq, true, false)];
      }

      actions := actions + [DelayMs(BOOT_DELAY_MS)];
      err := ESP_OK;
    }

    /** cst328_read_regs: one write-then-read transaction of `buf.Length` uint8s
        starting at `reg16`; the reply is the platform's answer to it. */
    method ReadRegs(reg16: uint16, buf: array<uint8>, reply: BusReply) returns (err: int, tx: Transaction)
      requires reply.Received? ==> |reply.data| == buf.Length
      modifies buf
      ensures tx == WriteRead(i2cPort, CST328_I2C_ADDR_7BIT, SplitAddress(reg16), buf.Length, READ_TIMEOUT_MS)
      ensures tx.write[0] as int * 256 + tx.write[1] as int == reg16 as int
      ensures reply.Received? ==> err == ESP_OK && buf[..] == reply.data
      ensures reply.Failed? ==> err == reply.err && buf[..] == old(buf[..])
    {
      var reg := SplitAddress(reg16);
      tx := WriteRead(i2cPort, CST328_I2C_ADDR_7BIT, reg, buf.Length, READ_TIMEOUT_MS);
      match reply
      case Received(data) =>
        forall i | 0 <= i < buf.Length {
          buf[i] := data[i];
        }
        err := ESP_OK;
      case Failed(e) =>
        err := e;
    }

    /** cst328_read_point: a null output is refused before the bus is touched; a
        bus error is passed through and leaves the output as it was; otherwise the
        output receives the decoded report. */
    method ReadPoint(outPt: PointStruct?, reply: BusReply) returns (err: int, bus: seq<Transaction>)
      requires reply.Received? ==> |reply.data| == REPORT_LEN
      modifies outPt
      ensures outPt == null ==> err == ESP_ERR_INVALID_ARG && bus == []
      ensures outPt != null ==> bus == [ReportTransaction(i2cPort)]
      ensures outPt != null && reply.Failed? ==> err == reply.err && unchanged(outPt)
      ensures outPt != null && reply.Received? ==> err == ESP_OK && outPt.Value() == Decode(reply.data)
    {
      if outPt == null {
        return ESP_ERR_INVALID_ARG, [];
      }

      var buf := new uint8[REPORT_LEN](_ => 0);
      var tx;
      err, tx := ReadRegs(CST328_BASE_REG, buf, reply);
      bus := [tx];
      if err != ESP_OK {
        return;
      }

      var report: Report := buf[..];
      var pt := Decode(report);
      outPt.x := pt.x;
      outPt.y := pt.y;
      outPt.pressure := pt.pressure;
      outPt.pressed := pt.pressed;
      err := ESP_OK;
    }
  }
}
