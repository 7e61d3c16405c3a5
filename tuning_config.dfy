/** The configuration entity read from each iteration-log row. How it is parsed from the
    seven identity columns is not part of this model: a configuration is known only by its
    string form, which serves as the key for colouring and grouping, and by its flag saying
    whether the row was recorded inside a tuning phase. */
module TuningConfigs {

  datatype TuningConfig = TuningConfig(text: string, tuning: bool)

  /** The tuning flag of every row, in row order. */
  function TuningFlags(configs: seq<TuningConfig>): (flags: seq<bool>)
    ensures |flags| == |configs|
    ensures forall i :: 0 <= i < |configs| ==> flags[i] == configs[i].tuning
  {
    seq(|configs|, i requires 0 <= i < |configs| => configs[i].tuning)
  }

  /** `[str(cfg) for cfg in configs]`. */
  function Stringify(configs: seq<TuningConfig>): (strs: seq<string>)
    ensures |strs| == |configs|
    ensures forall i :: 0 <= i < |configs| ==> strs[i] == configs[i].text
  {
    seq(|configs|, i requires 0 <= i < |configs| => configs[i].text)
  }
}
