/** The four compiled-in configuration tables, one per PHY variant, each an
    ordered list of (pixel clock, 32-byte register image) entries closed by an
    end marker, and the facts about their shape that lookups rely on. */
module ConfTables {
  import opened PhyTypes
  import opened ConfLookup

  /** `hdmiphy_conf_s5pv210` */
  const CONF_S5PV210: seq<Conf> := [
    Conf(27_000_000, [
      0x01, 0x05, 0x00, 0xD8, 0x10, 0x1C, 0x30, 0x40,
      0x6B, 0x10, 0x02, 0x52, 0xDF, 0xF2, 0x54, 0x87,
      0x84, 0x00, 0x30, 0x38, 0x00, 0x08, 0x10, 0xE0,
      0x22, 0x40, 0xE3, 0x26, 0x00, 0x00, 0x00, 0x00
    ]),
    Conf(27_027_000, [
      0x01, 0x05, 0x00, 0xD4, 0x10, 0x9C, 0x09, 0x64,
      0x6B, 0x10, 0x02, 0x52, 0xDF, 0xF2, 0x54, 0x87,
      0x84, 0x00, 0x30, 0x38, 0x00, 0x08, 0x10, 0xE0,
      0x22, 0x40, 0xE2, 0x26, 0x00, 0x00, 0x00, 0x00
    ]),
    Conf(74_176_000, [
      0x01, 0x05, 0x00, 0xD8, 0x10, 0x9C, 0xEF, 0x5B,
      0x6D, 0x10, 0x01, 0x52, 0xEF, 0xF3, 0x54, 0xB9,
      0x84, 0x00, 0x30, 0x38, 0x00, 0x08, 0x10, 0xE0,
      0x22, 0x40, 0xA5, 0x26, 0x01, 0x00, 0x00, 0x00
    ]),
    Conf(74_250_000, [
      0x01, 0x05, 0x00, 0xD8, 0x10, 0x9C, 0xF8, 0x40,
      0x6A, 0x10, 0x01, 0x52, 0xFF, 0xF1, 0x54, 0xBA,
      0x84, 0x00, 0x10, 0x38, 0x00, 0x08, 0x10, 0xE0,
      0x22, 0x40, 0xA4, 0x26, 0x01, 0x00, 0x00, 0x00
    ]),
    END_MARKER
  ]

  /** `hdmiphy_conf_exynos4210` */
  const CONF_EXYNOS4210: seq<Conf> := [
    Conf(27_000_000, [
      0x01, 0x05, 0x00, 0xD8, 0x10, 0x1C, 0x30, 0x40,
      0x6B, 0x10, 0x02, 0x51, 0xDF, 0xF2, 0x54, 0x87,
      0x84, 0x00, 0x30, 0x38, 0x00, 0x08, 0x10, 0xE0,
      0x22, 0x40, 0xE3, 0x26, 0x00, 0x00, 0x00, 0x00
    ]),
    Conf(27_027_000, [
      0x01, 0x05, 0x00, 0xD4, 0x10, 0x9C, 0x09, 0x64,
      0x6B, 0x10, 0x02, 0x51, 0xDF, 0xF2, 0x54, 0x87,
      0x84, 0x00, 0x30, 0x38, 0x00, 0x08, 0x10, 0xE0,
      0x22, 0x40, 0xE2, 0x26, 0x00, 0x00, 0x00, 0x00
    ]),
    Conf(74_176_000, [
      0x01, 0x05, 0x00, 0xD8, 0x10, 0x9C, 0xEF, 0x5B,
      0x6D, 0x10, 0x01, 0x51, 0xEF, 0xF3, 0x54, 0xB9,
      0x84, 0x00, 0x30, 0x38, 0x00, 0x08, 0x10, 0xE0,
      0x22, 0x40, 0xA5, 0x26, 0x01, 0x00, 0x00, 0x00
    ]),
    Conf(74_250_000, [
      0x01, 0x05, 0x00, 0xD8, 0x10, 0x9C, 0xF8, 0x40,
      0x6A, 0x10, 0x01, 0x51, 0xFF, 0xF1, 0x54, 0xBA,
      0x84, 0x00, 0x10, 0x38, 0x00, 0x08, 0x10, 0xE0,
      0x22, 0x40, 0xA4, 0x26, 0x01, 0x00, 0x00, 0x00
    ]),
    Conf(148_352_000, [
      0x01, 0x05, 0x00, 0xD8, 0x10, 0x9C, 0xEF, 0x5B,
      0x6D, 0x18, 0x00, 0x51, 0xEF, 0xF3, 0x54, 0xB9,
      0x84, 0x00, 0x30, 0x38, 0x00, 0x08, 0x10, 0xE0,
      0x11, 0x40, 0xA5, 0x26, 0x02, 0x00, 0x00, 0x00
    ]),
    Conf(148_500_000, [
      0x01, 0x05, 0x00, 0xD8, 0x10, 0x9C, 0xF8, 0x40,
      0x6A, 0x18, 0x00, 0x51, 0xFF, 0xF1, 0x54, 0xBA,
      0x84, 0x00, 0x10, 0x38, 0x00, 0x08, 0x10, 0xE0,
      0x11, 0x40, 0xA4, 0x26, 0x02, 0x00, 0x00, 0x00
    ]),
    END_MARKER
  ]

  /** `hdmiphy_conf_exynos4212` */
  const CONF_EXYNOS4212: seq<Conf> := [
    Conf(27_000_000, [
      0x01, 0x11, 0x2D, 0x75, 0x00, 0x01, 0x00, 0x08,
      0x82, 0x00, 0x0E, 0xD9, 0x45, 0xA0, 0x34, 0xC0,
      0x0B, 0x80, 0x12, 0x87, 0x08, 0x24, 0x24, 0x71,
      0x54, 0xE3, 0x24, 0x00, 0x00, 0x00, 0x01, 0x00
    ]),
    Conf(27_027_000, [
      0x01, 0x91, 0x2D, 0x72, 0x00, 0x64, 0x12, 0x08,
      0x43, 0x20, 0x0E, 0xD9, 0x45, 0xA0, 0x34, 0xC0,
      0x0B, 0x80, 0x12, 0x87, 0x08, 0x24, 0x24, 0x71,
      0x54, 0xE2, 0x24, 0x00, 0x00, 0x00, 0x01, 0x00
    ]),
    Conf(74_176_000, [
      0x01, 0x91, 0x3E, 0x35, 0x00, 0x5B, 0xDE, 0x08,
      0x82, 0x20, 0x73, 0xD9, 0x45, 0xA0, 0x34, 0xC0,
      0x0B, 0x80, 0x12, 0x87, 0x08, 0x24, 0x24, 0x52,
      0x54, 0xA5, 0x24, 0x01, 0x00, 0x00, 0x01, 0x00
    ]),
    Conf(74_250_000, [
      0x01, 0x91, 0x3E, 0x35, 0x00, 0x40, 0xF0, 0x08,
      0x82, 0x20, 0x73, 0xD9, 0x45, 0xA0, 0x34, 0xC0,
      0x0B, 0x80, 0x12, 0x87, 0x08, 0x24, 0x24, 0x52,
      0x54, 0xA4, 0x24, 0x01, 0x00, 0x00, 0x01, 0x00
    ]),
    Conf(148_500_000, [
      0x01, 0x91, 0x3E, 0x15, 0x00, 0x40, 0xF0, 0x08,
      0x82, 0x20, 0x73, 0xD9, 0x45, 0xA0, 0x34, 0xC0,
      0x0B, 0x80, 0x12, 0x87, 0x08, 0x24, 0x24, 0xA4,
      0x54, 0x4A, 0x25, 0x03, 0x00, 0x00, 0x01, 0x00
    ]),
    END_MARKER
  ]

  /** `hdmiphy_conf_exynos4412` */
  const CONF_EXYNOS4412: seq<Conf> := [
    Conf(27_000_000, [
      0x01, 0x11, 0x2D, 0x75, 0x40, 0x01, 0x00, 0x08,
      0x82, 0x00, 0x0E, 0xD9, 0x45, 0xA0, 0xAC, 0x80,
      0x08, 0x80, 0x11, 0x84, 0x02, 0x22, 0x44, 0x86,
      0x54, 0xE4, 0x24, 0x00, 0x00, 0x00, 0x01, 0x00
    ]),
    Conf(27_027_000, [
      0x01, 0x91, 0x2D, 0x72, 0x40, 0x64, 0x12, 0x08,
      0x43, 0x20, 0x0E, 0xD9, 0x45, 0xA0, 0xAC, 0x80,
      0x08, 0x80, 0x11, 0x84, 0x02, 0x22, 0x44, 0x86,
      0x54, 0xE3, 0x24, 0x00, 0x00, 0x00, 0x01, 0x00
    ]),
    Conf(74_176_000, [
      0x01, 0x91, 0x1F, 0x10, 0x40, 0x5B, 0xEF, 0x08,
      0x81, 0x20, 0xB9, 0xD8, 0x45, 0xA0, 0xAC, 0x80,
      0x08, 0x80, 0x11, 0x84, 0x02, 0x22, 0x44, 0x86,
      0x54, 0xA6, 0x24, 0x01, 0x00, 0x00, 0x01, 0x00
    ]),
    Conf(74_250_000, [
      0x01, 0x91, 0x1F, 0x10, 0x40, 0x40, 0xF8, 0x08,
      0x81, 0x20, 0xBA, 0xD8, 0x45, 0xA0, 0xAC, 0x80,
      0x08, 0x80, 0x11, 0x84, 0x02, 0x22, 0x44, 0x86,
      0x54, 0xA5, 0x24, 0x01, 0x00, 0x00, 0x01, 0x00
    ]),
    Conf(148_500_000, [
      0x01, 0x91, 0x1F, 0x00, 0x40, 0x40, 0xF8, 0x08,
      0x81, 0x20, 0xBA, 0xD8, 0x45, 0xA0, 0xAC, 0x80,
      0x08, 0x80, 0x11, 0x84, 0x02, 0x22, 0x44, 0x86,
      0x54, 0x4B, 0x25, 0x03, 0x00, 0x00, 0x01, 0x00
    ]),
    END_MARKER
  ]
  /** What every compiled-in table satisfies: its shape and no clock listed twice. */
  predicate GoodTable(t: seq<Conf>) {
    WellFormed(t) && Terminated(t) && DistinctClocks(t)
  }

  lemma TablesAreGood()
    ensures GoodTable(CONF_S5PV210)
    ensures GoodTable(CONF_EXYNOS4210)
    ensures GoodTable(CONF_EXYNOS4212)
    ensures GoodTable(CONF_EXYNOS4412)
  {
  }

  /** Every clock a table lists is found in that table and selects that
      entry's own image. */
  lemma ListedClocksSelectOwnImage(t: seq<Conf>, i: nat)
    requires t in {CONF_S5PV210, CONF_EXYNOS4210, CONF_EXYNOS4212, CONF_EXYNOS4412}
    requires i < |t| - 1
    ensures Find(t[i].pixclk, t) == Some(t[i].data)
    ensures |t[i].data| == IMAGE_LEN
  {
    TablesAreGood();
    WellFormedEnd(t);
    ListedClockFound(t, i);
  }

  /** A clock no table lists, 60 MHz, is found in none of them. */
  lemma UnlistedClockNotFound()
    ensures Find(60_000_000, CONF_S5PV210) == None
    ensures Find(60_000_000, CONF_EXYNOS4210) == None
    ensures Find(60_000_000, CONF_EXYNOS4212) == None
    ensures Find(60_000_000, CONF_EXYNOS4412) == None
  {
    TablesAreGood();
    FindMeaning(60_000_000, CONF_S5PV210);
    FindMeaning(60_000_000, CONF_EXYNOS4210);
    FindMeaning(60_000_000, CONF_EXYNOS4212);
    FindMeaning(60_000_000, CONF_EXYNOS4412);
  }
}
