/** internal/common/envs.go: list-valued settings read from the configuration. */
module Envs {
  import opened Wrappers
  import opened Ops

  /** The process configuration the core reads: the names of os.Environ() entries
      ("KEY=value"), viper's key list, and viper.GetString as a function. */
  datatype Config = Config(environ: seq<string>, viperKeys: seq<string>, setting: string -> string)

  /** SplitComma: "" gives the empty list, anything else what ParseArray gives. */
  function SplitComma(value: string): (r: seq<string>)
    ensures value == "" ==> r == []
    ensures forall i :: 0 <= i < |r| ==> r[i] != "" && ',' !in r[i]
  {
    ArrayOfPieces(value);
    if value == "" then [] else ArrayOf(value)
  }

  /** Whitelist: nil when WHITELIST is unset or empty. */
  function Whitelist(cfg: Config): (r: Option<seq<string>>)
    ensures r.None? <==> cfg.setting("WHITELIST") == ""
    ensures r.Some? ==> r.value == ArrayOf(cfg.setting("WHITELIST"))
    ensures r.Some? ==> forall i :: 0 <= i < |r.value| ==> r.value[i] != ""
  {
    var value := cfg.setting("WHITELIST");
    if value != "" then Some(SplitComma(value)) else None
  }

  /** GistWhitelist: nil when GIST_WHITELIST is unset or empty. */
  function GistWhitelist(cfg: Config): (r: Option<seq<string>>)
    ensures r.None? <==> cfg.setting("GIST_WHITELIST") == ""
    ensures r.Some? ==> r.value == ArrayOf(cfg.setting("GIST_WHITELIST"))
    ensures r.Some? ==> forall i :: 0 <= i < |r.value| ==> r.value[i] != ""
  {
    var value := cfg.setting("GIST_WHITELIST");
    if value != "" then Some(SplitComma(value)) else None
  }

  /** ExcludeRepositories: an empty (non-nil) list when EXCLUDE_REPO is unset. */
  function ExcludeRepositories(cfg: Config): (r: seq<string>)
    ensures cfg.setting("EXCLUDE_REPO") == "" ==> r == []
    ensures r == ArrayOf(cfg.setting("EXCLUDE_REPO"))
    ensures forall i :: 0 <= i < |r| ==> r[i] != ""
  {
    var value := cfg.setting("EXCLUDE_REPO");
    if value != "" then SplitComma(value) else []
  }
}
