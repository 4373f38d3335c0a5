/** Types shared by the model of the Samsung HDMI PHY driver: bytes, the
    machine integers the driver uses, and the configuration-table entry
    together with the shape every table has (entries up to a zero-clock
    end marker). */
module PhyTypes {

  datatype Option<+T> = None | Some(value: T)

  /** `unsigned long` on the 32-bit ARM parts this driver runs on. */
  const ULONG_MODULUS: int := 0x1_0000_0000
  type ULong = x: int | 0 <= x < 0x1_0000_0000

  /** `__u64`, the width of the pixel clock in a timings request. */
  type U64 = x: int | 0 <= x < 0x1_0000_0000_0000_0000

  /** `__u32` */
  type U32 = x: int | 0 <= x < 0x1_0000_0000

  /** Length of every PHY register image. */
  const IMAGE_LEN: nat := 32

  /** One `struct hdmiphy_conf`: a pixel clock in Hz and the register image
      written for it. The end marker has clock 0 and no image. */
  datatype Conf = Conf(pixclk: ULong, data: seq<bv8>)

  const END_MARKER: Conf := Conf(0, [])

  /** The table holds an end marker somewhere, so a walk from the start stops. */
  predicate Terminated(t: seq<Conf>) {
    exists k :: 0 <= k < |t| && t[k].pixclk == 0
  }

  /** Index of the first entry at or after `i` whose clock is zero. */
  function EndFrom(t: seq<Conf>, i: nat): (k: nat)
    requires i <= |t|
    requires exists k :: i <= k < |t| && t[k].pixclk == 0
    ensures i <= k < |t| && t[k].pixclk == 0
    ensures forall j :: i <= j < k ==> t[j].pixclk != 0
    decreases |t| - i
  {
    if t[i].pixclk == 0 then i else EndFrom(t, i + 1)
  }

  /** Index of the end marker: the first zero-clock entry. */
  function End(t: seq<Conf>): (k: nat)
    requires Terminated(t)
    ensures k < |t| && t[k].pixclk == 0
    ensures forall j :: 0 <= j < k ==> t[j].pixclk != 0
  {
    EndFrom(t, 0)
  }

  /** The shape of the compiled-in tables: entries with a non-zero clock and
      a 32-byte image, closed by exactly one end marker as the last entry. */
  predicate WellFormed(t: seq<Conf>) {
    && |t| > 0
    && t[|t| - 1] == END_MARKER
    && forall i :: 0 <= i < |t| - 1 ==> t[i].pixclk != 0 && |t[i].data| == IMAGE_LEN
  }

  /** No clock is listed twice before the end marker. */
  predicate DistinctClocks(t: seq<Conf>)
    requires Terminated(t)
  {
    forall i, j :: 0 <= i < j < End(t) ==> t[i].pixclk != t[j].pixclk
  }

  lemma WellFormedEnd(t: seq<Conf>)
    requires WellFormed(t)
    ensures Terminated(t) && End(t) == |t| - 1
  {
  }
}
