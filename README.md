# Samsung HDMI PHY driver, modelled in Dafny

This project models the core of the Samsung S5P/Exynos HDMI PHY subdevice
driver (`kernel/drivers/media/platform/s5p-tv/hdmiphy_drv.c`). The driver
programs the HDMI transmitter PHY over I2C. On a set-timings request it
picks a 32-byte register image by pixel clock and writes it to the chip. On
a stream start or stop it writes a 2-byte mode command. It also reports the
pixel-clock range the PHY supports.

Modules, one per part of the driver:

- `PhyTypes` (`phy_types.dfy`): bytes, the machine integer widths, the table
  entry `Conf` (`struct hdmiphy_conf`), the end-marker shape of a table, and
  `End`, the index of the end marker.
- `ConfTables` (`conf_tables.dfy`): the four compiled-in tables
  `hdmiphy_conf_s5pv210`, `_exynos4210`, `_exynos4212` and `_exynos4412`. The
  clocks and bytes are as the source lists them. Each table ends with
  `END_MARKER`, whose clock is 0.
- `ConfLookup` (`conf_lookup.dfy`): `hdmiphy_find_conf`. `Find` is the
  specification and `FindConf` is the loop, proved equal to it.
- `Variants` (`variants.dfy`): the device-id table `hdmiphy_id`, mapping names
  to tables.
- `PhyDriver` (`phy_driver.dfy`): the device context `HdmiPhy`
  (`struct hdmiphy_ctx`) and its operations. The I2C client is a class that
  keeps the log of every message offered to the bus.

The I2C adapter is outside the model. Each operation that writes to the bus
takes `adapterResult`, the value `i2c_master_send` reports for that transfer:
the number of bytes accepted, or a negative error code. The driver must cope
with any value, so no value is excluded.

The comment at `hdmiphy_drv.c:232-233` says the other capability fields are
left at 0. The code does not write them, so they keep the values the caller
passed in. `DvTimingsCapQuery` states it that way.

Integer widths: the request's `pixelclock` is a `__u64`, and the driver stores
it in an `unsigned long`. On the 32-bit ARM SoCs this driver serves, that
keeps the low 32 bits (`ToULong`). `WideRequestWrapsToListedClock` shows the
effect. Constants taken from the V4L2 and errno headers, which are not part of
this model: `V4L2_DV_FL_REDUCED_FPS = 1 << 2`, `V4L2_DV_BT_656_1120 = 0`,
`EINVAL = 22`, `EIO = 5`.

## Model

| member | source | states |
|---|---|---|
| `PhyTypes.End` | kernel/drivers/media/platform/s5p-tv/hdmiphy_drv.c:182 | the index where the walk stops: an entry with clock 0, and no entry before it has clock 0 |
| `PhyTypes.WellFormedEnd` | kernel/drivers/media/platform/s5p-tv/hdmiphy_drv.c:38-172 | a table shaped like the compiled-in ones (non-zero clocks, 32-byte images, one end marker last) is terminated, and its end marker is its last entry |
| `ConfLookup.FindConf` | kernel/drivers/media/platform/s5p-tv/hdmiphy_drv.c:179-186 | the loop stops at the end marker. It returns the image of the first entry before the end marker whose clock equals the request, and NULL (`None`) exactly when no entry before the end marker has that clock. It agrees with `Find` |
| `ConfLookup.FindFromMeaning` | kernel/drivers/media/platform/s5p-tv/hdmiphy_drv.c:182-185 | a walk started at any entry up to the end marker finds nothing exactly when no later entry before the marker matches. Otherwise it yields the image of the first such match |
| `ConfLookup.FindMeaning` | kernel/drivers/media/platform/s5p-tv/hdmiphy_drv.c:179-186 | the lookup is a first-match search bounded by the end marker, in both directions: `None` if and only if no entry matches, and otherwise the image of the first matching entry |
| `ConfLookup.FindZeroIsNone` | kernel/drivers/media/platform/s5p-tv/hdmiphy_drv.c:182 | a request for clock 0 never matches, because the zero clock is the loop's stop condition |
| `ConfLookup.FindIgnoresTail` | kernel/drivers/media/platform/s5p-tv/hdmiphy_drv.c:182 | entries after the end marker never affect the result, so the walk never reads past the sentinel |
| `ConfLookup.FindFromIgnoresTail` | kernel/drivers/media/platform/s5p-tv/hdmiphy_drv.c:182-184 | the same, for a walk started at any entry up to the end marker |
| `ConfLookup.ListedClockFound` | kernel/drivers/media/platform/s5p-tv/hdmiphy_drv.c:182-184 | in a table with distinct clocks, each clock listed before the end marker is found and maps to its own entry's image |
| `ConfTables.TablesAreGood` | kernel/drivers/media/platform/s5p-tv/hdmiphy_drv.c:38-172 | each of the four tables is well formed: non-zero clocks, 32-byte images, a final end marker. No table lists a clock twice |
| `ConfTables.ListedClocksSelectOwnImage` | kernel/drivers/media/platform/s5p-tv/hdmiphy_drv.c:38-172 | in each of the four tables, every listed clock is found and selects its own 32-byte image |
| `ConfTables.UnlistedClockNotFound` | kernel/drivers/media/platform/s5p-tv/hdmiphy_drv.c:38-172 | a clock no table lists (60 MHz) is not found in any of the four tables |
| `Variants.MatchIdFrom` | kernel/drivers/media/platform/s5p-tv/hdmiphy_drv.c:305-312 | a match is the driver data of an entry of `hdmiphy_id` that has that name and comes before the empty terminating entry |
| `Variants.TableFor` | kernel/drivers/media/platform/s5p-tv/hdmiphy_drv.c:305-312 | every name that matches selects one of the four variant tables, and that table is well formed with distinct clocks. The empty name selects nothing |
| `Variants.IdMapping` | kernel/drivers/media/platform/s5p-tv/hdmiphy_drv.c:305-310 | "hdmiphy" and "hdmiphy-exynos4210" both select the exynos4210 table. "hdmiphy-s5pv210", "hdmiphy-exynos4212" and "hdmiphy-exynos4412" each select their own variant's table |
| `Variants.KnownNames` | kernel/drivers/media/platform/s5p-tv/hdmiphy_drv.c:305-311 | a name selects a table if and only if it is one of the five listed names |
| `PhyDriver.ToULong` | kernel/drivers/media/platform/s5p-tv/hdmiphy_drv.c:203 | converting the 64-bit request to a 32-bit `unsigned long` keeps every value below 2^32. Otherwise it differs from the request by a multiple of 2^32 |
| `PhyDriver.NormalizeClock` | kernel/drivers/media/platform/s5p-tv/hdmiphy_drv.c:206-207 | the lookup clock differs from the request exactly when the reduced-frame-rate flag is set and the request is 74250000. It is then 74176000 |
| `PhyDriver.StreamCommand` | kernel/drivers/media/platform/s5p-tv/hdmiphy_drv.c:247-249 | the mode command is two bytes: register 0x1f, then 0x80 exactly when `enable` is non-zero and 0x00 exactly when it is zero |
| `PhyDriver.I2cClient.MasterSend` | kernel/drivers/media/platform/s5p-tv/hdmiphy_drv.c:216 | one transfer appends exactly the first `count` bytes of the buffer to the bus log, as one message. It returns what the adapter reports |
| `PhyDriver.HdmiPhy.Probe` | kernel/drivers/media/platform/s5p-tv/hdmiphy_drv.c:278-292 | attaching under a name from the id table stores that name's table in the context, together with the client |
| `PhyDriver.HdmiPhy.SetDvTimings` | kernel/drivers/media/platform/s5p-tv/hdmiphy_drv.c:194-223 | the lookup uses the normalised, truncated request. If it fails: -EINVAL and nothing sent. If it succeeds: exactly one message is sent, equal byte for byte to the matched 32-byte image. The result is 0 if the adapter reports 32 and -EIO for any other value |
| `PhyDriver.HdmiPhy.DvTimingsCapQuery` | kernel/drivers/media/platform/s5p-tv/hdmiphy_drv.c:225-237 | pad other than 0: -EINVAL and `cap` unchanged. Pad 0: result 0, type BT_656_1120, clock range [27000000, 148500000], and every other field kept as it was |
| `PhyDriver.HdmiPhy.SetStream` | kernel/drivers/media/platform/s5p-tv/hdmiphy_drv.c:239-257 | exactly one message is sent: `[0x1f, 0x80]` when enabling and `[0x1f, 0x00]` otherwise. The result is 0 if the adapter reports 2 and -EIO for any other value |
| `PhyDriver.TableClocksAdvertised` | kernel/drivers/media/platform/s5p-tv/hdmiphy_drv.c:38-172 | every clock listed in each of the four tables lies within the advertised [27000000, 148500000] |
| `PhyDriver.AcceptedClockAdvertised` | kernel/drivers/media/platform/s5p-tv/hdmiphy_drv.c:234-235 | whatever variant the device is attached as, any clock the lookup accepts lies within the advertised range |
| `PhyDriver.ReducedFpsSelects74176` | kernel/drivers/media/platform/s5p-tv/hdmiphy_drv.c:206-208 | in every table, a reduced-frame-rate 74.25 MHz request selects the 74.176 MHz image. The same request without the flag selects the 74.25 MHz image, which is a different image |
| `PhyDriver.VariantImagesDiffer` | kernel/drivers/media/platform/s5p-tv/hdmiphy_drv.c:165-170 | both the exynos4412 table (its 148.5 MHz entry at these lines) and the exynos4210 table (its 148.5 MHz entry at lines 97-102) have a 148.5 MHz entry, and the two images differ |
| `PhyDriver.WideRequestWrapsToListedClock` | kernel/drivers/media/platform/s5p-tv/hdmiphy_drv.c:203 | on a 32-bit `unsigned long`, a request of 27 MHz + 2^32 Hz, looked up in the exynos4210 table, selects that table's 27 MHz image |
| `PhyDriver.QueryCapabilities` | kernel/drivers/media/platform/s5p-tv/hdmiphy_drv.c:225-237 | on a struct the caller zeroed, a capability query for pad 0 succeeds and reports type BT_656_1120 and the range [27000000, 148500000], leaving the width and height limits, standards and capabilities at 0. A query for pad 1 gets -EINVAL and every field of its struct stays 0 |
| `PhyDriver.AttachExynos4412AndConfigure` | kernel/drivers/media/platform/s5p-tv/hdmiphy_drv.c:194-223 | a device attached as "hdmiphy-exynos4412" and set to 148.5 MHz sends exactly the exynos4412 image for that clock, once. That image is not the exynos4210 one. The result is 0 exactly when the adapter reports 32 bytes, and -EIO otherwise |

## Left out

- `hdmiphy_s_power`: a placeholder that always returns 0. There is no behaviour to model.
- The I2C transport (`i2c_master_send`): a call into the bus core. It is reduced to a log of offered messages plus the value the adapter reports, supplied by the caller.
- Probe's allocation (`kzalloc`) and its -ENOMEM path, and `hdmiphy_remove` with its `kfree`: memory management. `Probe` is a constructor and cannot fail.
- `v4l2_i2c_subdev_init`, `sd_to_ctx`/`container_of`, `v4l2_get_subdevdata` and the `v4l2_subdev_ops` callback tables: framework plumbing. The context is an object whose methods are the callbacks.
- Module and driver registration (`module_i2c_driver`, `MODULE_DEVICE_TABLE`, the `i2c_driver` record): binding to the host framework.
- Logging (`dev_info`, `dev_err`): it has no effect on results.
- The i2c core's name matching, which is not part of this model. `MatchIdFrom` assumes an exact name match in table order that stops at the empty entry.
- Fields of `struct v4l2_dv_timings` other than `bt.pixelclock` and `bt.flags`: the driver does not read them.
- 64-bit builds: the model takes `unsigned long` to be 32 bits wide. On a 64-bit build the conversion in `ToULong` would keep the request unchanged.
