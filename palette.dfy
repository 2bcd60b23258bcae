/** `getRandomColor`, the avatar background picker. The header panel and the
    main component each declare an identical copy; it is modelled once. */
module Palette {
  import opened Wrappers

  const Colors: seq<string> := ["#F87171", "#60A5FA", "#FBBF24", "#34D399", "#A78BFA"]

  /** The UTF-16 code unit `charCodeAt(0)` reads when `c` starts a string: the
      character itself inside the Basic Multilingual Plane, otherwise the high
      surrogate of its pair. */
  function FirstCodeUnit(c: char): (u: nat)
    ensures u < 0x1_0000
    ensures c as int < 0x1_0000 ==> u == c as int
    ensures c as int >= 0x1_0000 ==> 0xD800 <= u < 0xDC00
    ensures c as int >= 0x1_0000 ==>
      0x1_0000 + (u - 0xD800) * 0x400 <= c as int < 0x1_0000 + (u - 0xD800 + 1) * 0x400
  {
    if c as int < 0x1_0000 then c as int else 0xD800 + (c as int - 0x1_0000) / 0x400
  }

  /** The colour for a user name. For the empty name `charCodeAt(0)` is NaN,
      the index is NaN and the lookup yields `undefined`, modelled as `None`. */
  function RandomColor(name: string): (r: Option<string>)
    ensures r.Some? <==> name != ""
    ensures r.Some? ==> r.value in Colors
  {
    if name == "" then None else Some(Colors[FirstCodeUnit(name[0]) % |Colors|])
  }

  /** The colour depends on the first character only. */
  lemma ColorFollowsFirstChar(a: string, b: string)
    requires a != "" && b != "" && a[0] == b[0]
    ensures RandomColor(a) == RandomColor(b)
  {
  }

  /** Names whose first code units differ by a multiple of five share a
      colour, and no other names do. */
  lemma ColorCycle(a: string, b: string)
    requires a != "" && b != ""
    ensures (RandomColor(a) == RandomColor(b)) <==> (FirstCodeUnit(a[0]) - FirstCodeUnit(b[0])) % 5 == 0
  {
    var i, j := FirstCodeUnit(a[0]) % 5, FirstCodeUnit(b[0]) % 5;
    assert Colors[0] != Colors[1] && Colors[0] != Colors[2] && Colors[0] != Colors[3] && Colors[0] != Colors[4];
    assert Colors[1] != Colors[2] && Colors[1] != Colors[3] && Colors[1] != Colors[4];
    assert Colors[2] != Colors[3] && Colors[2] != Colors[4] && Colors[3] != Colors[4];
    assert (RandomColor(a) == RandomColor(b)) <==> i == j;
  }
}
