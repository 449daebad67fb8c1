/**
 * The run's configuration, read once from the process environment
 * (main.py, lines 9-24). The environment itself is a parameter: each
 * variable is either unset or set or holds a string.
 */
module Settings {
  import opened Environ
  import opened Credentials
  import opened EnvBlock

  datatype Environment = Environment(
    gtPw: Variable,           // GT_PW: "<github user> <github password>"
    docker: Variable,         // DOCKER: the image reference
    serverName: Variable,     // SERVER_NAME
    envSet: Variable)         // ENVSET: the KEY=VALUE block

  datatype Settings = Settings(
    credentials: Credentials,
    image: string,
    serverName: string,
    envBlock: string)

  const DefaultServerName: string := "ss"

  /** The default ENVSET is a triple-quoted literal holding one line break. */
  const DefaultEnvBlock: string := "\n"

  function Load(env: Environment): (s: Settings)
    ensures s.credentials == ParseCredentials(env.gtPw)
    ensures EscapeFree(s.envBlock)
    ensures env.docker.Unset? ==> s.image == ""
    ensures env.docker.Set? ==> s.image == env.docker.value
    ensures env.serverName.Unset? ==> s.serverName == DefaultServerName
    ensures env.serverName.Set? ==> s.serverName == env.serverName.value
    ensures env.envSet.Unset? ==> s.envBlock == DefaultEnvBlock
    ensures env.envSet.Set? ==> |s.envBlock| == |env.envSet.value| - CountEscapes(env.envSet.value)
  {
    assert EscapeFree(DefaultEnvBlock);
    Settings(
      ParseCredentials(env.gtPw),
      env.docker.Get(""),
      env.serverName.Get(DefaultServerName),
      Normalize(env.envSet.Get(DefaultEnvBlock)))
  }

  /** An ENVSET value without the literal escape is used exactly as given. */
  lemma LoadKeepsPlainEnvBlock(env: Environment)
    requires env.envSet.Set? && EscapeFree(env.envSet.value)
    ensures Load(env).envBlock == env.envSet.value
  {
    NormalizeIsReplace(env.envSet.value);
    ReplaceEscapesKeepsFree(env.envSet.value);
  }

  /** An ENVSET value of escape-separated lines becomes those lines joined by line breaks. */
  lemma LoadSplitsEnvLines(env: Environment, lines: seq<string>)
    requires env.envSet == Set(Strings.JoinWith(lines, Escape))
    requires forall k :: 0 <= k < |lines| ==> EscapeFree(lines[k])
    ensures Load(env).envBlock == Strings.JoinWith(lines, "\n")
  {
    NormalizeSplitsLines(lines);
  }
}
