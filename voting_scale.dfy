/**
 * The voting-scale resolver of the room store (roomManager.js, lines 1-34):
 * a scale configuration chosen by a client is turned into the ordered list
 * of vote tokens a room offers, capped at MaxVotingOptions entries.
 */
module VotingScale {
  import opened Wrappers

  /** At most this many vote tokens are ever offered by a room. */
  const MaxVotingOptions: nat := 20

  /**
   * A scale configuration as a client sends it: `{type:'preset', name}`,
   * `{type:'custom', values}` where `values` may be missing or not an array
   * (then `values` is None), or an object of any other `type`.
   */
  datatype ScaleConfig =
    | Preset(name: string)
    | Custom(values: Option<seq<string>>)
    | Unrecognised

  /** `{ type: 'preset', name: 'fibonacci' }` */
  const DefaultConfig: ScaleConfig := Preset("fibonacci")

  const Fibonacci: seq<string> := ["0", "1", "2", "3", "5", "8", "13", "21", "34", "55", "89", "?", "☕"]
  const TShirt: seq<string> := ["XS", "S", "M", "L", "XL", "XXL", "?", "☕"]
  const PowersOfTwo: seq<string> := ["0", "1", "2", "4", "8", "16", "32", "64", "?", "☕"]

  /** The lookup `VOTING_PRESETS[name]`: None for a name that is not a preset. */
  function PresetValues(name: string): (r: Option<seq<string>>)
    ensures r.Some? ==> 0 < |r.value| <= MaxVotingOptions
    ensures r.Some? <==> name in {"fibonacci", "tshirt", "powersOfTwo"}
  {
    if name == "fibonacci" then Some(Fibonacci)
    else if name == "tshirt" then Some(TShirt)
    else if name == "powersOfTwo" then Some(PowersOfTwo)
    else None
  }

  /**
   * The resolved configuration `{ ...scaleConfig, currentValues }`: the
   * configuration that was kept and the token list it resolved to.
   */
  datatype ResolvedScale = ResolvedScale(config: ScaleConfig, currentValues: seq<string>)

  /** The token list a configuration asks for, if it names one at all. */
  function RequestedValues(c: ScaleConfig): Option<seq<string>>
  {
    match c
    case Preset(name) => PresetValues(name)
    case Custom(values) => values
    case Unrecognised => None
  }

  /** `scale.slice(0, n)` when the scale is longer than `n`. */
  function Truncate(s: seq<string>, n: nat): (r: seq<string>)
    ensures |r| <= n && |r| <= |s|
    ensures r == s[..|r|]
    ensures |s| <= n ==> r == s
    ensures n <= |s| ==> |r| == n
  {
    if |s| > n then s[..n] else s
  }

  /**
   * resolveVotingScale: a missing configuration is replaced by the default
   * one; a known preset or a custom array is kept; anything else falls back
   * to the fibonacci preset and the configuration itself is replaced by the
   * default. The token list is then cut to MaxVotingOptions entries.
   * Custom values are neither deduplicated nor checked for emptiness here.
   */
  function ResolveVotingScale(cfg: Option<ScaleConfig>): (r: ResolvedScale)
    ensures |r.currentValues| <= MaxVotingOptions
    ensures (cfg.None? || RequestedValues(cfg.value).None?) ==>
              r == ResolvedScale(DefaultConfig, Fibonacci)
    ensures cfg.Some? && RequestedValues(cfg.value).Some? ==>
              var requested := RequestedValues(cfg.value).value;
              && r.config == cfg.value
              && |r.currentValues| == (if |requested| <= MaxVotingOptions then |requested| else MaxVotingOptions)
              && r.currentValues == requested[..|r.currentValues|]
  {
    var c := if cfg.None? then DefaultConfig else cfg.value;
    var (config, scale) :=
      if c.Preset? && PresetValues(c.name).Some? then (c, PresetValues(c.name).value)
      else if c.Custom? && c.values.Some? then (c, c.values.value)
      else (DefaultConfig, PresetValues(DefaultConfig.name).value);
    ResolvedScale(config, Truncate(scale, MaxVotingOptions))
  }

  /** Only a custom list can resolve to no tokens: every other configuration yields a preset. */
  lemma ResolvedNonEmptyUnlessCustom(cfg: Option<ScaleConfig>)
    ensures ResolveVotingScale(cfg).currentValues == [] ==>
              cfg.Some? && cfg.value.Custom? && cfg.value.values == Some([])
  {
  }

  /** Resolving the configuration that resolution kept gives the same tokens again. */
  lemma ResolveIdempotent(cfg: Option<ScaleConfig>)
    ensures var r := ResolveVotingScale(cfg);
            ResolveVotingScale(Some(r.config)) == r
  {
  }
}
