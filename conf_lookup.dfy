/** `hdmiphy_find_conf`: a walk over a configuration table, in table order,
    that stops at the end marker and yields the image of the first entry
    whose clock equals the request. */
module ConfLookup {
  import opened PhyTypes

  /** The walk started at entry `i`; `None` stands for the NULL result. */
  function FindFrom(pixclk: ULong, t: seq<Conf>, i: nat): Option<seq<bv8>>
    requires i <= |t|
    decreases |t| - i
  {
    if i == |t| || t[i].pixclk == 0 then None
    else if t[i].pixclk == pixclk then Some(t[i].data)
    else FindFrom(pixclk, t, i + 1)
  }

  /** The walk over a whole table. */
  function Find(pixclk: ULong, t: seq<Conf>): Option<seq<bv8>> {
    FindFrom(pixclk, t, 0)
  }

  /** Entry `i` is the first entry before the end marker listing `pixclk`. */
  predicate IsFirstMatch(pixclk: ULong, t: seq<Conf>, i: nat)
    requires Terminated(t)
  {
    && i < End(t)
    && t[i].pixclk == pixclk
    && forall j :: 0 <= j < i ==> t[j].pixclk != pixclk
  }

  /** The loop of `hdmiphy_find_conf`: `i` plays the role of the advancing
      `conf` pointer. It never looks at an entry past the end marker. */
  method FindConf(pixclk: ULong, conf: seq<Conf>) returns (data: Option<seq<bv8>>)
    requires Terminated(conf)
    ensures data == Find(pixclk, conf)
    ensures data.Some? ==> exists i: nat :: IsFirstMatch(pixclk, conf, i) && data.value == conf[i].data
    ensures data.None? <==> forall i :: 0 <= i < End(conf) ==> conf[i].pixclk != pixclk
  {
    var i := 0;
    while conf[i].pixclk != 0
      invariant 0 <= i <= End(conf)
      invariant forall j :: 0 <= j < i ==> conf[j].pixclk != pixclk
      invariant FindFrom(pixclk, conf, i) == Find(pixclk, conf)
      decreases End(conf) - i
    {
      if conf[i].pixclk == pixclk {
        assert IsFirstMatch(pixclk, conf, i);
        return Some(conf[i].data);
      }
      i := i + 1;
    }
    return None;
  }

  /** A walk from `i` finds the first listing of `pixclk` at or after `i`
      and before the end marker, and finds nothing if there is none. */
  lemma {:induction false} FindFromMeaning(pixclk: ULong, t: seq<Conf>, i: nat)
    requires Terminated(t) && i <= End(t)
    ensures FindFrom(pixclk, t, i).None? <==> forall j :: i <= j < End(t) ==> t[j].pixclk != pixclk
    ensures FindFrom(pixclk, t, i).Some? ==>
      exists k :: i <= k < End(t) && t[k].pixclk == pixclk && FindFrom(pixclk, t, i).value == t[k].data
        && forall j :: i <= j < k ==> t[j].pixclk != pixclk
    decreases End(t) - i
  {
    var e := End(t);
    if i == e {
      assert FindFrom(pixclk, t, i) == None;
    } else if t[i].pixclk == pixclk {
      assert FindFrom(pixclk, t, i) == Some(t[i].data);
    } else {
      FindFromMeaning(pixclk, t, i + 1);
      assert FindFrom(pixclk, t, i) == FindFrom(pixclk, t, i + 1);
    }
  }

  /** `Find` yields exactly the image of the first matching entry before the
      end marker, and `None` exactly when no entry before it matches. */
  lemma FindMeaning(pixclk: ULong, t: seq<Conf>)
    requires Terminated(t)
    ensures Find(pixclk, t).None? <==> forall j :: 0 <= j < End(t) ==> t[j].pixclk != pixclk
    ensures Find(pixclk, t).Some? ==>
      exists k: nat :: IsFirstMatch(pixclk, t, k) && Find(pixclk, t).value == t[k].data
  {
    FindFromMeaning(pixclk, t, 0);
  }

  /** The end marker's zero clock is never a match: a request for clock 0
      finds nothing. */
  lemma FindZeroIsNone(t: seq<Conf>)
    requires Terminated(t)
    ensures Find(0, t) == None
  {
    FindMeaning(0, t);
  }

  /** Nothing after the end marker influences the walk: replacing all entries
      past it leaves the result unchanged. */
  lemma {:induction false} FindFromIgnoresTail(pixclk: ULong, t: seq<Conf>, tail: seq<Conf>, i: nat)
    requires Terminated(t) && i <= End(t)
    ensures FindFrom(pixclk, t[..End(t) + 1] + tail, i) == FindFrom(pixclk, t, i)
    decreases End(t) - i
  {
    var u := t[..End(t) + 1] + tail;
    assert u[i] == t[i];
    if i < End(t) {
      FindFromIgnoresTail(pixclk, t, tail, i + 1);
    }
  }

  lemma FindIgnoresTail(pixclk: ULong, t: seq<Conf>, tail: seq<Conf>)
    requires Terminated(t)
    ensures Find(pixclk, t[..End(t) + 1] + tail) == Find(pixclk, t)
  {
    FindFromIgnoresTail(pixclk, t, tail, 0);
  }

  /** In a table whose clocks are distinct, every listed clock is found and
      maps to its own entry's image. */
  lemma ListedClockFound(t: seq<Conf>, i: nat)
    requires Terminated(t) && DistinctClocks(t) && i < End(t)
    ensures Find(t[i].pixclk, t) == Some(t[i].data)
  {
    FindMeaning(t[i].pixclk, t);
    var k: nat :| IsFirstMatch(t[i].pixclk, t, k) && Find(t[i].pixclk, t).value == t[k].data;
    assert k == i;
  }
}
