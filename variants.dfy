/** The device-id table `hdmiphy_id`: the bus-level names a PHY can be bound
    under, each paired with the configuration table of its chip variant. */
module Variants {
  import opened PhyTypes
  import opened ConfTables

  /** One `struct i2c_device_id`: a name and, as driver data, a table. */
  datatype DeviceId = DeviceId(name: string, confTab: seq<Conf>)

  /** `hdmiphy_id`, closed by an entry with an empty name. */
  const HDMIPHY_ID: seq<DeviceId> := [
    DeviceId("hdmiphy", CONF_EXYNOS4210),
    DeviceId("hdmiphy-s5pv210", CONF_S5PV210),
    DeviceId("hdmiphy-exynos4210", CONF_EXYNOS4210),
    DeviceId("hdmiphy-exynos4212", CONF_EXYNOS4212),
    DeviceId("hdmiphy-exynos4412", CONF_EXYNOS4412),
    DeviceId("", [])
  ]

  /** Matching from entry `i` on: the table of the first entry with this name,
      stopping at the empty-name entry that closes the id table. */
  function MatchIdFrom(name: string, i: nat): (r: Option<seq<Conf>>)
    requires i <= |HDMIPHY_ID|
    ensures r.Some? ==> exists k :: i <= k < |HDMIPHY_ID| - 1 && HDMIPHY_ID[k] == DeviceId(name, r.value)
    decreases |HDMIPHY_ID| - i
  {
    if i == |HDMIPHY_ID| || HDMIPHY_ID[i].name == "" then None
    else if HDMIPHY_ID[i].name == name then Some(HDMIPHY_ID[i].confTab)
    else MatchIdFrom(name, i + 1)
  }

  /** The table a device bound under `name` is given at attach time. Every
      name that matches selects one of the four variant tables, and each of
      those is well formed with distinct clocks. */
  function TableFor(name: string): (r: Option<seq<Conf>>)
    ensures name == "" ==> r.None?
    ensures r.Some? ==> r.value in {CONF_S5PV210, CONF_EXYNOS4210, CONF_EXYNOS4212, CONF_EXYNOS4412}
    ensures r.Some? ==> GoodTable(r.value)
  {
    TablesAreGood();
    MatchIdFrom(name, 0)
  }

  /** Both "hdmiphy" and "hdmiphy-exynos4210" select the exynos4210 table;
      each other name selects the table of its own variant. */
  lemma IdMapping()
    ensures TableFor("hdmiphy") == Some(CONF_EXYNOS4210)
    ensures TableFor("hdmiphy-s5pv210") == Some(CONF_S5PV210)
    ensures TableFor("hdmiphy-exynos4210") == Some(CONF_EXYNOS4210)
    ensures TableFor("hdmiphy-exynos4212") == Some(CONF_EXYNOS4212)
    ensures TableFor("hdmiphy-exynos4412") == Some(CONF_EXYNOS4412)
  {
  }

  /** A name outside the id table selects no table. */
  lemma KnownNames(name: string)
    ensures TableFor(name).Some? <==> name in {"hdmiphy", "hdmiphy-s5pv210", "hdmiphy-exynos4210",
                                              "hdmiphy-exynos4212", "hdmiphy-exynos4412"}
  {
  }
}
