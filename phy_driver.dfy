/** The subdevice operations of the HDMI PHY driver: attach with a variant
    table, set timings (look up and write a 32-byte register image), start
    or stop the stream (write the 2-byte mode command) and report the
    supported pixel-clock range. The I2C bus is reduced to a log of the
    messages offered to it; how many bytes the adapter accepts is decided
    outside the driver and arrives as a parameter of each operation. */
module PhyDriver {
  import opened PhyTypes
  import opened ConfLookup
  import opened ConfTables
  import opened Variants

  const EIO: int := 5
  const EINVAL: int := 22

  /** `V4L2_DV_FL_REDUCED_FPS` in `v4l2_bt_timings.flags`. */
  const V4L2_DV_FL_REDUCED_FPS: bv32 := 0x4
  /** `V4L2_DV_BT_656_1120`, the timing type the capability report gives. */
  const V4L2_DV_BT_656_1120: U32 := 0

  /** The pixel-clock range the PHY advertises, in Hz. */
  const MIN_PIXELCLOCK: U64 := 27_000_000
  const MAX_PIXELCLOCK: U64 := 148_500_000

  /** Register 0x1f selects the PHY mode; 0x80 is operation, 0x00 configuration. */
  const MODE_REG: bv8 := 0x1f
  const MODE_OPERATION: bv8 := 0x80
  const MODE_CONFIGURATION: bv8 := 0x00

  /** The part of `struct v4l2_bt_timings` the driver reads. */
  datatype BtTimings = BtTimings(pixelclock: U64, flags: bv32)

  predicate ReducedFps(flags: bv32) {
    flags & V4L2_DV_FL_REDUCED_FPS != 0
  }

  /** The `__u64` request stored into the driver's `unsigned long`: on the
      32-bit targets the conversion keeps the low 32 bits. */
  function ToULong(x: U64): (r: ULong)
    ensures x < ULONG_MODULUS ==> r == x
    ensures (x - r) % ULONG_MODULUS == 0
  {
    x % ULONG_MODULUS
  }

  /** The clock used for lookup: a reduced-frame-rate request for 74.25 MHz
      is looked up as 74.176 MHz; every other request is left as it is. */
  function NormalizeClock(pixclk: ULong, flags: bv32): (r: ULong)
    ensures r != pixclk <==> ReducedFps(flags) && pixclk == 74_250_000
    ensures r != pixclk ==> r == 74_176_000
  {
    if ReducedFps(flags) && pixclk == 74_250_000 then 74_176_000 else pixclk
  }

  /** The mode command for `s_stream`: the mode register, then operation mode
      when `enable` is non-zero and configuration mode when it is zero. */
  function StreamCommand(enable: int): (cmd: seq<bv8>)
    ensures |cmd| == 2 && cmd[0] == MODE_REG
    ensures cmd[1] == MODE_OPERATION <==> enable != 0
    ensures cmd[1] == MODE_CONFIGURATION <==> enable == 0
  {
    [MODE_REG, if enable != 0 then MODE_OPERATION else MODE_CONFIGURATION]
  }

  /** The I2C client the PHY sits behind, as the driver sees it. */
  class I2cClient {
    /** Every message offered to the bus, oldest first. */
    var sent: seq<seq<bv8>>

    constructor ()
      ensures sent == []
    {
      sent := [];
    }

    /** `i2c_master_send`: offers the first `count` bytes of `buf` as one
        message and returns what the adapter reports (`adapterResult`: the
        bytes it accepted, or a negative error code). */
    method MasterSend(buf: array<bv8>, count: nat, adapterResult: int) returns (ret: int)
      requires count <= buf.Length
      modifies this
      ensures sent == old(sent) + [buf[..count]]
      ensures ret == adapterResult
    {
      sent := sent + [buf[..count]];
      ret := adapterResult;
    }
  }

  /** The fields of `struct v4l2_dv_timings_cap` (with its `bt` part) the
      capability report touches or leaves alone. */
  class DvTimingsCap {
    var pad: U32
    var capType: U32
    var minWidth: U32
    var maxWidth: U32
    var minHeight: U32
    var maxHeight: U32
    var minPixelclock: U64
    var maxPixelclock: U64
    var standards: U32
    var capabilities: U32

    constructor (pad: U32)
      ensures this.pad == pad
      ensures capType == minWidth == maxWidth == minHeight == maxHeight == 0
      ensures minPixelclock == maxPixelclock == 0 && standards == capabilities == 0
    {
      this.pad := pad;
      capType, minWidth, maxWidth, minHeight, maxHeight := 0, 0, 0, 0, 0;
      minPixelclock, maxPixelclock, standards, capabilities := 0, 0, 0, 0;
    }
  }

  /** `struct hdmiphy_ctx`: the client the PHY is reached through and the
      configuration table of its variant, fixed at attach time. */
  class HdmiPhy {
    const client: I2cClient
    const confTab: seq<Conf>

    predicate Valid() {
      GoodTable(confTab)
    }

    /** `hdmiphy_probe` for a device bound under `name`: stores the table
        the id table gives for that name. */
    constructor Probe(client: I2cClient, name: string)
      requires TableFor(name).Some?
      ensures this.client == client && confTab == TableFor(name).value
      ensures Valid()
    {
      this.client := client;
      confTab := TableFor(name).value;
    }

    /** `hdmiphy_s_dv_timings`: normalises the requested clock, looks up its
        image, copies it into a 32-byte buffer and sends that buffer once.
        An unknown clock yields -EINVAL with nothing sent; otherwise the
        matched image goes out byte for byte and the result is 0 exactly
        when the adapter reports 32 bytes, -EIO in every other case. */
    method SetDvTimings(timings: BtTimings, adapterResult: int) returns (ret: int)
      requires Valid()
      modifies client
      ensures var data := Find(NormalizeClock(ToULong(timings.pixelclock), timings.flags), confTab);
        && (data.None? ==> ret == -EINVAL && client.sent == old(client.sent))
        && (data.Some? ==> |data.value| == IMAGE_LEN && client.sent == old(client.sent) + [data.value])
        && (data.Some? ==> ret == if adapterResult == IMAGE_LEN then 0 else -EIO)
    {
      var pixclk := ToULong(timings.pixelclock);
      pixclk := NormalizeClock(pixclk, timings.flags);
      WellFormedEnd(confTab);
      var data := FindConf(pixclk, confTab);
      if data.None? {
        return -EINVAL;
      }
      var image := data.value;
      assert |image| == IMAGE_LEN;
      var buffer := new bv8[32];
      for i := 0 to 32
        invariant buffer[..i] == image[..i]
        invariant client.sent == old(client.sent)
      {
        buffer[i] := image[i];
      }
      assert buffer[..32] == image;
      ret := client.MasterSend(buffer, 32, adapterResult);
      if ret != 32 {
        return -EIO;
      }
      return 0;
    }

    /** `hdmiphy_dv_timings_cap`: any pad but 0 is rejected with -EINVAL
        and `cap` is left untouched; for pad 0 the type and the clock range
        are filled in, every other field is left as the caller had it. */
    method DvTimingsCapQuery(cap: DvTimingsCap) returns (ret: int)
      modifies cap
      ensures old(cap.pad) != 0 ==> ret == -EINVAL && unchanged(cap)
      ensures old(cap.pad) == 0 ==>
        && ret == 0
        && cap.capType == V4L2_DV_BT_656_1120
        && cap.minPixelclock == MIN_PIXELCLOCK && cap.maxPixelclock == MAX_PIXELCLOCK
        && cap.pad == old(cap.pad)
        && cap.minWidth == old(cap.minWidth) && cap.maxWidth == old(cap.maxWidth)
        && cap.minHeight == old(cap.minHeight) && cap.maxHeight == old(cap.maxHeight)
        && cap.standards == old(cap.standards) && cap.capabilities == old(cap.capabilities)
    {
      if cap.pad != 0 {
        return -EINVAL;
      }
      cap.capType := V4L2_DV_BT_656_1120;
      cap.minPixelclock := MIN_PIXELCLOCK;
      cap.maxPixelclock := MAX_PIXELCLOCK;
      return 0;
    }

    /** `hdmiphy_s_stream`: fills a 2-byte buffer with the mode command and
        sends it once; the result is 0 exactly when the adapter reports 2
        bytes, -EIO otherwise. */
    method SetStream(enable: int, adapterResult: int) returns (ret: int)
      modifies client
      ensures client.sent == old(client.sent) + [StreamCommand(enable)]
      ensures ret == if adapterResult == 2 then 0 else -EIO
    {
      var buffer := new bv8[2];
      buffer[0] := MODE_REG;
      buffer[1] := if enable != 0 then MODE_OPERATION else MODE_CONFIGURATION;
      assert buffer[..2] == StreamCommand(enable);
      ret := client.MasterSend(buffer, 2, adapterResult);
      if ret != 2 {
        return -EIO;
      }
      return 0;
    }
  }

  /** Every clock listed in a table before its end marker lies in `[lo, hi]`. */
  predicate ClocksWithin(t: seq<Conf>, lo: int, hi: int) {
    forall i :: 0 <= i < |t| - 1 ==> lo <= t[i].pixclk <= hi
  }

  lemma TableClocksAdvertised()
    ensures ClocksWithin(CONF_S5PV210, MIN_PIXELCLOCK, MAX_PIXELCLOCK)
    ensures ClocksWithin(CONF_EXYNOS4210, MIN_PIXELCLOCK, MAX_PIXELCLOCK)
    ensures ClocksWithin(CONF_EXYNOS4212, MIN_PIXELCLOCK, MAX_PIXELCLOCK)
    ensures ClocksWithin(CONF_EXYNOS4412, MIN_PIXELCLOCK, MAX_PIXELCLOCK)
  {
  }

  /** Whatever variant a device is attached as, a clock its lookup accepts
      lies in the range the capability report advertises. */
  lemma AcceptedClockAdvertised(name: string, pixclk: ULong)
    requires TableFor(name).Some?
    requires Find(pixclk, TableFor(name).value).Some?
    ensures MIN_PIXELCLOCK <= pixclk <= MAX_PIXELCLOCK
  {
    var t := TableFor(name).value;
    TableClocksAdvertised();
    WellFormedEnd(t);
    FindMeaning(pixclk, t);
    var k: nat :| IsFirstMatch(pixclk, t, k) && Find(pixclk, t).value == t[k].data;
    assert t[k].pixclk == pixclk;
  }

  /** In every table, a reduced-frame-rate request for 74.25 MHz selects the
      74.176 MHz image, while the same request without the flag selects a
      different one, the 74.25 MHz image. */
  lemma ReducedFpsSelects74176(t: seq<Conf>, flags: bv32)
    requires t in {CONF_S5PV210, CONF_EXYNOS4210, CONF_EXYNOS4212, CONF_EXYNOS4412}
    requires ReducedFps(flags)
    ensures Find(NormalizeClock(74_250_000, flags), t) == Find(74_176_000, t) == Some(t[2].data)
    ensures Find(NormalizeClock(74_250_000, 0), t) == Find(74_250_000, t) == Some(t[3].data)
    ensures t[2].data != t[3].data
  {
    ListedClocksSelectOwnImage(t, 2);
    ListedClocksSelectOwnImage(t, 3);
    assert t[2].data[6] != t[3].data[6];
  }

  /** At 148.5 MHz the exynos4412 table (selected by "hdmiphy-exynos4412")
      and the exynos4210 table (selected by "hdmiphy") both have an entry, and
      their images differ. */
  lemma VariantImagesDiffer()
    ensures Find(148_500_000, CONF_EXYNOS4412).Some? && Find(148_500_000, CONF_EXYNOS4210).Some?
    ensures Find(148_500_000, CONF_EXYNOS4412) != Find(148_500_000, CONF_EXYNOS4210)
  {
    ListedClocksSelectOwnImage(CONF_EXYNOS4412, 4);
    ListedClocksSelectOwnImage(CONF_EXYNOS4210, 5);
    var mine, other := CONF_EXYNOS4412[4].data, CONF_EXYNOS4210[5].data;
    assert mine[3] == 0x00 && other[3] == 0xD8;
  }

  /** With a 32-bit `unsigned long`, a request 2^32 Hz above a listed clock
      is cut down to that clock before the lookup and selects its image. */
  lemma WideRequestWrapsToListedClock()
    ensures Find(NormalizeClock(ToULong(27_000_000 + ULONG_MODULUS), 0), CONF_EXYNOS4210)
         == Some(CONF_EXYNOS4210[0].data)
  {
  }

  /** Attaching a PHY as "hdmiphy-exynos4412" and setting a 148.5 MHz mode
      sends exactly that table's 148.5 MHz image, once, and succeeds exactly
      when the adapter reports 32 bytes. */
  method AttachExynos4412AndConfigure(adapterResult: int) returns (ret: int, sent: seq<seq<bv8>>)
    ensures sent == [CONF_EXYNOS4412[4].data]
    ensures sent[0] != CONF_EXYNOS4210[5].data
    ensures ret == 0 <==> adapterResult == 32
    ensures ret != 0 ==> ret == -EIO
  {
    IdMapping();
    var client := new I2cClient();
    var phy := new HdmiPhy.Probe(client, "hdmiphy-exynos4412");
    ListedClocksSelectOwnImage(CONF_EXYNOS4412, 4);
    VariantImagesDiffer();
    ret := phy.SetDvTimings(BtTimings(148_500_000, 0), adapterResult);
    sent := client.sent;
  }

  /** A caller that zeroes its capability struct, as V4L2 callers do, and
      queries pad 0 gets the type and the clock range, with the width and
      height limits, standards and capabilities still 0; a query for pad 1 is
      rejected and every field of its struct stays as the caller set it. */
  method QueryCapabilities(phy: HdmiPhy)
    returns (ret0: int, ret1: int,
             clocks0: (U32, U64, U64), limits0: (U32, U32, U32, U32, U32, U32),
             clocks1: (U32, U64, U64), limits1: (U32, U32, U32, U32, U32, U32))
    ensures ret0 == 0 && clocks0 == (V4L2_DV_BT_656_1120, MIN_PIXELCLOCK, MAX_PIXELCLOCK)
    ensures limits0 == (0, 0, 0, 0, 0, 0)
    ensures ret1 == -EINVAL && clocks1 == (0, 0, 0) && limits1 == (0, 0, 0, 0, 0, 0)
  {
    var cap := new DvTimingsCap(0);
    ret0 := phy.DvTimingsCapQuery(cap);
    clocks0 := (cap.capType, cap.minPixelclock, cap.maxPixelclock);
    limits0 := (cap.minWidth, cap.maxWidth, cap.minHeight, cap.maxHeight, cap.standards, cap.capabilities);
    var other := new DvTimingsCap(1);
    ret1 := phy.DvTimingsCapQuery(other);
    clocks1 := (other.capType, other.minPixelclock, other.maxPixelclock);
    limits1 := (other.minWidth, other.maxWidth, other.minHeight, other.maxHeight, other.standards, other.capabilities);
  }
}
