/**
 * The choice of terminal multiplexer: an explicit `tmux` or `wezterm`
 * setting wins, and `auto` (or no setting) looks at the environment.
 */
module MultiplexerFactory {
  import opened Wrappers
  import opened Assoc

  datatype ProviderKind = Tmux | Wezterm

  /** An environment variable that is set to a non-empty value (`!!process.env[name]`). */
  predicate EnvSet(env: Entries<string>, name: string)
  {
    Get(env, name).Some? && Get(env, name).value != ""
  }

  /** `isInsideTmux`. */
  predicate InsideTmux(env: Entries<string>)
  {
    EnvSet(env, "TMUX")
  }

  /** `isInsideWezterm`. */
  predicate InsideWezterm(env: Entries<string>)
  {
    EnvSet(env, "WEZTERM_PANE") || EnvSet(env, "WEZTERM_UNIX_SOCKET")
  }

  /** `isActive` of each provider: the process runs inside that multiplexer. */
  predicate IsActive(kind: ProviderKind, env: Entries<string>)
  {
    match kind
    case Tmux => InsideTmux(env)
    case Wezterm => InsideWezterm(env)
  }

  /** `getMultiplexerProvider`, with `config.provider` as `provider`. */
  function GetMultiplexerProvider(provider: Option<string>, env: Entries<string>): ProviderKind
  {
    var providerType := if provider.Some? && provider.value != "" then provider.value else "auto";
    if providerType == "tmux" then Tmux
    else if providerType == "wezterm" then Wezterm
    else if InsideTmux(env) then Tmux
    else if InsideWezterm(env) then Wezterm
    else Tmux
  }

  /**
   * The decision table: an explicit provider whatever the environment;
   * otherwise tmux inside tmux, else wezterm inside wezterm, else tmux.
   */
  lemma ProviderChoice(provider: Option<string>, env: Entries<string>)
    ensures provider == Some("tmux") ==> GetMultiplexerProvider(provider, env) == Tmux
    ensures provider == Some("wezterm") ==> GetMultiplexerProvider(provider, env) == Wezterm
    ensures provider.None? || provider.value !in {"tmux", "wezterm"} ==>
      GetMultiplexerProvider(provider, env) == (if InsideTmux(env) || !InsideWezterm(env) then Tmux else Wezterm)
  {
  }

  /** With automatic choice, the provider chosen is active whenever some multiplexer is. */
  lemma AutoChoiceIsActive(env: Entries<string>)
    ensures IsActive(GetMultiplexerProvider(None, env), env) <==> InsideTmux(env) || InsideWezterm(env)
    ensures GetMultiplexerProvider(Some("auto"), env) == GetMultiplexerProvider(None, env)
  {
  }
}
