/** map_cfg_to_col: the memoising configuration-to-colour cache, with the palette it pops
    colours from (AVAIL_COLS) and the map it fills (CONFIG_COL_MAP). */
module ConfigColours {

  /** The values of matplotlib's TABLEAU_COLORS, in dictionary order. */
  const TableauColors: seq<string> := [
    "#1f77b4", "#ff7f0e", "#2ca02c", "#d62728", "#9467bd",
    "#8c564b", "#e377c2", "#7f7f7f", "#bcbd22", "#17becf"
  ]

  /** The two pieces of state map_cfg_to_col reads and updates. */
  datatype ColourState = ColourState(configColMap: map<string, string>, availCols: seq<string>)

  /** One call of map_cfg_to_col on `config`. `randomColour` stands for the colour drawn
      at random once the palette is exhausted. Returns the new state and the colour. */
  function Assign(s: ColourState, config: string, randomColour: string): (r: (ColourState, string))
    ensures r.0.configColMap.Keys == s.configColMap.Keys + {config}
    ensures r.0.configColMap[config] == r.1
    ensures forall c :: c in s.configColMap ==> r.0.configColMap[c] == s.configColMap[c]
    ensures config in s.configColMap ==> r.0 == s
    ensures config !in s.configColMap && |s.availCols| > 0 ==>
      s.availCols == r.0.availCols + [r.1]
    ensures config !in s.configColMap && |s.availCols| == 0 ==>
      r.1 == randomColour && r.0.availCols == []
  {
    if config in s.configColMap then (s, s.configColMap[config])
    else
      var n := |s.availCols|;
      var colour := if n > 0 then s.availCols[n - 1] else randomColour;
      var avail := if n > 0 then s.availCols[..n - 1] else s.availCols;
      (ColourState(s.configColMap[config := colour], avail), colour)
  }

  /** Successive calls on `configs`, the i-th one drawing `randomColours[i]` if it needs to. */
  function AssignAll(s: ColourState, configs: seq<string>, randomColours: seq<string>): ColourState
    requires |randomColours| == |configs|
    decreases |configs|
  {
    if |configs| == 0 then s
    else AssignAll(Assign(s, configs[0], randomColours[0]).0, configs[1..], randomColours[1..])
  }

  /** No colour is left twice in the palette, no two configurations share a colour, and no
      assigned colour is still in the palette. */
  ghost predicate DistinctColours(s: ColourState)
  {
    && (forall i, j :: 0 <= i < j < |s.availCols| ==> s.availCols[i] != s.availCols[j])
    && (forall c1, c2 :: c1 in s.configColMap && c2 in s.configColMap && c1 != c2 ==>
          s.configColMap[c1] != s.configColMap[c2])
    && (forall c :: c in s.configColMap ==> s.configColMap[c] !in s.availCols)
  }

  /** The fresh cache: an empty map and the whole Tableau palette. */
  lemma FreshCacheDistinct()
    ensures DistinctColours(ColourState(map[], TableauColors))
  {
  }

  /** A call that is a hit, or a miss served from the palette, keeps colours distinct:
      the colour popped for a new configuration differs from every colour already handed out. */
  lemma AssignKeepsDistinct(s: ColourState, config: string, randomColour: string)
    requires DistinctColours(s)
    requires config in s.configColMap || |s.availCols| > 0
    ensures DistinctColours(Assign(s, config, randomColour).0)
  {
  }

  /** The configurations among `configs` that the cache has no colour for yet. */
  function NewConfigs(s: ColourState, configs: seq<string>): set<string>
  {
    (set c | c in configs) - s.configColMap.Keys
  }

  /** A subset is no larger than its superset. */
  lemma {:induction false} SubsetNoLarger(a: set<string>, b: set<string>)
    requires a <= b
    ensures |a| <= |b|
  {
    if a != {} {
      var x :| x in a;
      SubsetNoLarger(a - {x}, b - {x});
    }
  }

  /** As long as the palette holds a colour for every configuration the calls see for the
      first time, every configuration gets a colour no other configuration has. Repeated
      calls on a configuration already coloured are hits and take nothing from the palette. */
  lemma {:induction false} PaletteColoursDistinct(s: ColourState, configs: seq<string>, randomColours: seq<string>)
    requires |randomColours| == |configs|
    requires DistinctColours(s)
    requires |NewConfigs(s, configs)| <= |s.availCols|
    ensures DistinctColours(AssignAll(s, configs, randomColours))
    decreases |configs|
  {
    if |configs| > 0 {
      var c := configs[0];
      var t := Assign(s, c, randomColours[0]).0;
      var rest := configs[1..];
      assert NewConfigs(t, rest) <= NewConfigs(s, configs) - {c} by {
        forall x | x in NewConfigs(t, rest)
          ensures x in configs
        {
          var k :| 0 <= k < |rest| && rest[k] == x;
          assert configs[k + 1] == x;
        }
      }
      SubsetNoLarger(NewConfigs(t, rest), NewConfigs(s, configs) - {c});
      if c !in s.configColMap {
        assert c in NewConfigs(s, configs);
      }
      AssignKeepsDistinct(s, c, randomColours[0]);
      PaletteColoursDistinct(t, rest, randomColours[1..]);
    }
  }

  /** From the fresh cache, any run of calls over at most ten distinct configurations, however
      many calls each configuration gets, gives every configuration its own colour. */
  lemma FreshCacheColoursDistinct(configs: seq<string>, randomColours: seq<string>)
    requires |randomColours| == |configs|
    requires |set c | c in configs| <= |TableauColors|
    ensures DistinctColours(AssignAll(ColourState(map[], TableauColors), configs, randomColours))
  {
    var s := ColourState(map[], TableauColors);
    assert NewConfigs(s, configs) == set c | c in configs;
    FreshCacheDistinct();
    PaletteColoursDistinct(s, configs, randomColours);
  }

  /** The module-level state of PlotData.py: CONFIG_COL_MAP and AVAIL_COLS. */
  class ColourCache {
    var configColMap: map<string, string>
    var availCols: seq<string>

    function State(): ColourState
      reads this
    {
      ColourState(configColMap, availCols)
    }

    constructor ()
      ensures configColMap == map[] && availCols == TableauColors
    {
      configColMap := map[];
      availCols := TableauColors;
    }

    /** map_cfg_to_col(config): a stored colour is returned unchanged; otherwise the last
        palette colour is popped (or `randomColour` taken if the palette is empty) and stored. */
    method MapCfgToCol(config: string, randomColour: string) returns (colour: string)
      modifies this
      ensures (State(), colour) == Assign(old(State()), config, randomColour)
      ensures config in old(configColMap) ==>
        colour == old(configColMap)[config] && configColMap == old(configColMap) && availCols == old(availCols)
      ensures config !in old(configColMap) && |old(availCols)| > 0 ==>
        colour == old(availCols)[|old(availCols)| - 1] && availCols == old(availCols)[..|old(availCols)| - 1]
      ensures configColMap == old(configColMap)[config := colour]
    {
      if config in configColMap {
        return configColMap[config];
      }
      if |availCols| > 0 {
        colour := availCols[|availCols| - 1];
        availCols := availCols[..|availCols| - 1];
      } else {
        colour := randomColour;
      }
      configColMap := configColMap[config := colour];
    }
  }
}
