/**
 * Process start-up: how the listen flag and the environment resolve to the
 * configuration the server is built from, including the choice of log level.
 * The environment is a map from variable name to value; an unset variable
 * reads as the empty string, as `os.Getenv` has it.
 */
module Bootstrap {
  import opened Wrappers
  import Api

  datatype LogLevel = Debug | Info | Warn

  /** The resolved configuration of one process. `origins` is resolved but never handed to the server. */
  datatype Config = Config(listenAddr: string, logLevel: LogLevel, version: string, origins: string, serverUrl: string)

  const DefaultListen := ":3030"
  const DefaultOrigins := "http://localhost:5173"
  const DefaultServer := "http://localhost:3000"

  /** `os.Getenv`: the value, or the empty string when the variable is unset. */
  function Getenv(env: map<string, string>, key: string): string {
    if key in env then env[key] else ""
  }

  // ----- ASCII case folding -----

  function UpperAscii(c: char): char {
    if 'a' <= c <= 'z' then (c as int - 32) as char else c
  }

  /** Upper-cases the ASCII letters of `s` and leaves every other character alone. */
  function ToUpper(s: string): string {
    if s == [] then [] else [UpperAscii(s[0])] + ToUpper(s[1..])
  }

  lemma {:induction false} ToUpperAt(s: string)
    ensures |ToUpper(s)| == |s|
    ensures forall i :: 0 <= i < |s| ==> ToUpper(s)[i] == UpperAscii(s[i])
  {
    if s != [] {
      ToUpperAt(s[1..]);
      assert forall i :: 1 <= i < |s| ==> ToUpper(s)[i] == ToUpper(s[1..])[i - 1];
    }
  }

  /** `s` and `t` are equal once their ASCII letters are upper-cased, character by character. */
  predicate EqualFoldAscii(s: string, t: string) {
    |s| == |t| && forall i :: 0 <= i < |s| ==> UpperAscii(s[i]) == UpperAscii(t[i])
  }

  /** For a word already in upper case, upper-casing `s` yields the word exactly when `s` equals it ignoring case. */
  lemma ToUpperIsWord(s: string, word: string)
    requires forall i :: 0 <= i < |word| ==> UpperAscii(word[i]) == word[i]
    ensures ToUpper(s) == word <==> EqualFoldAscii(s, word)
  {
    ToUpperAt(s);
    if EqualFoldAscii(s, word) {
      assert forall i :: 0 <= i < |s| ==> ToUpper(s)[i] == word[i];
    }
  }

  // ----- Log level -----

  /** The `switch` on the upper-cased `LOG_LEVEL`. */
  function SelectLevel(raw: string): LogLevel {
    var level := ToUpper(raw);
    if level == "DEBUG" then Debug
    else if level == "INFO" then Info
    else Warn
  }

  /** DEBUG, INFO in any ASCII case select Debug and Info; everything else, the empty string too, selects Warn. */
  lemma SelectLevelCases(raw: string)
    ensures SelectLevel(raw) == Debug <==> EqualFoldAscii(raw, "DEBUG")
    ensures SelectLevel(raw) == Info <==> EqualFoldAscii(raw, "INFO")
    ensures SelectLevel(raw) == Warn <==> !EqualFoldAscii(raw, "DEBUG") && !EqualFoldAscii(raw, "INFO")
  {
    ToUpperIsWord(raw, "DEBUG");
    ToUpperIsWord(raw, "INFO");
  }

  /** Examples: a lower- or mixed-case name is recognised, an unknown or missing one is not. */
  lemma SelectLevelExamples()
    ensures SelectLevel("debug") == Debug && SelectLevel("Info") == Info
    ensures SelectLevel("") == Warn && SelectLevel("trace") == Warn && SelectLevel("WARN") == Warn
  {
    SelectLevelCases("debug");
    SelectLevelCases("Info");
    SelectLevelCases("trace");
    SelectLevelCases("WARN");
    assert UpperAscii("trace"[0]) != UpperAscii("DEBUG"[0]);
    assert UpperAscii("WARN"[0]) != UpperAscii("INFO"[0]);
  }

  // ----- Configuration -----

  /** `main` up to the construction of the server: flag and environment resolved to a configuration. */
  function Resolve(env: map<string, string>, listenFlag: Option<string>): Config {
    var listenAddr := listenFlag.GetOr(DefaultListen);
    var origins := Getenv(env, "ALLOW_ORIGINS");
    var serverUrl := Getenv(env, "SERVER");
    var origins := if origins == "" then DefaultOrigins else origins;
    var serverUrl := if serverUrl == "" then DefaultServer else serverUrl;
    Config(listenAddr, SelectLevel(Getenv(env, "LOG_LEVEL")), Getenv(env, "VERSION"), origins, serverUrl)
  }

  /** Each setting takes its default exactly when its flag or variable gives nothing, and is kept verbatim otherwise. */
  lemma ResolveDefaults(env: map<string, string>, listenFlag: Option<string>)
    ensures var c := Resolve(env, listenFlag);
      (listenFlag.None? ==> c.listenAddr == DefaultListen) && (listenFlag.Some? ==> c.listenAddr == listenFlag.value)
    ensures var c := Resolve(env, listenFlag);
      (Getenv(env, "ALLOW_ORIGINS") == "" ==> c.origins == DefaultOrigins)
      && (Getenv(env, "ALLOW_ORIGINS") != "" ==> c.origins == env["ALLOW_ORIGINS"])
    ensures var c := Resolve(env, listenFlag);
      (Getenv(env, "SERVER") == "" ==> c.serverUrl == DefaultServer)
      && (Getenv(env, "SERVER") != "" ==> c.serverUrl == env["SERVER"])
    ensures var c := Resolve(env, listenFlag);
      c.version == Getenv(env, "VERSION") && c.logLevel == SelectLevel(Getenv(env, "LOG_LEVEL"))
  {
  }

  /** An empty environment and no flag give the development defaults. */
  lemma ResolveEmptyEnvironment()
    ensures Resolve(map[], None) == Config(DefaultListen, Warn, "", DefaultOrigins, DefaultServer)
  {
  }

  /** The server `main` builds: listen address, upstream URL and version, in that order. */
  function Boot(env: map<string, string>, listenFlag: Option<string>): Api.Server {
    var c := Resolve(env, listenFlag);
    Api.NewServer(c.listenAddr, c.serverUrl, c.version)
  }

  /** The `dev` default of the version is applied by the server, not by the configuration. */
  lemma BootVersion(env: map<string, string>, listenFlag: Option<string>)
    ensures Resolve(env, listenFlag).version == "" <==> "VERSION" !in env || env["VERSION"] == ""
    ensures Boot(env, listenFlag).version == Api.DefaultVersion <==> Getenv(env, "VERSION") in {"", Api.DefaultVersion}
    ensures Boot(env, listenFlag).serverUrl == Resolve(env, listenFlag).serverUrl
    ensures Boot(env, listenFlag).listenAddr == Resolve(env, listenFlag).listenAddr
  {
  }
}
