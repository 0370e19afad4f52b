/** Synthesis of the launch command from one server-list entry. */
module Command {
  import opened Php
  import opened Environment

  /** Whether the entry asks for a runtime configuration file. */
  predicate HasIni(cfg: ServerConfig) {
    cfg.iniPath.Some? && !Falsy(cfg.iniPath.value)
  }

  /** Whether the entry names an executable at all. */
  predicate HasCli(cfg: ServerConfig) {
    cfg.cli.Some? && !Falsy(cfg.cli.value)
  }

  /** The launch command, or `None` for PHP's `false`. The `cwd` default tests
      `cli` rather than `cwd` for emptiness, as the source does; `cli` is known
      non-empty there, so the default applies only when `cwd` is unset. */
  function BuildCommand(cfg: ServerConfig, workingDir: string): (cmd: Option<string>)
    ensures cmd.None? <==> !HasCli(cfg)
    ensures cmd.Some? ==> !Falsy(cmd.value)
    ensures cmd.Some? ==> cfg.cli.value <= cmd.value
    ensures cmd.Some? ==>
      |cfg.cli.value| + 1 < |cmd.value| && (cmd.value[|cfg.cli.value| + 1] == '-' <==> HasIni(cfg))
    ensures cmd.Some? ==>
      var tail := "/" + OrEmpty(cfg.startScript);
      |tail| <= |cmd.value| && cmd.value[|cmd.value| - |tail|..] == tail
  {
    var systemConfig := if HasIni(cfg) then " -c " + cfg.iniPath.value else " ";
    if !HasCli(cfg) then None
    else
      var cwd := if cfg.cwd.None? || Falsy(cfg.cli.value) then workingDir else cfg.cwd.value;
      Some(cfg.cli.value + systemConfig + " " + cwd + "/" + OrEmpty(cfg.startScript))
  }

  /** The layout `<cli> [-c <ini>] <cwd>/<script>`, with the
      directory taken from the entry whenever `cwd` is set, even to "" or "0". */
  lemma CommandLayout(cfg: ServerConfig, workingDir: string)
    requires HasCli(cfg)
    ensures var dir := if cfg.cwd.Some? then cfg.cwd.value else workingDir;
      BuildCommand(cfg, workingDir) == Some(
        if HasIni(cfg)
        then cfg.cli.value + " -c " + cfg.iniPath.value + " " + dir + "/" + OrEmpty(cfg.startScript)
        else cfg.cli.value + "  " + dir + "/" + OrEmpty(cfg.startScript))
  {
    var dir := if cfg.cwd.Some? then cfg.cwd.value else workingDir;
    var s := OrEmpty(cfg.startScript);
    var cli := cfg.cli.value;
    if HasIni(cfg) {
      var ini := cfg.iniPath.value;
      assert cli + (" -c " + ini) == cli + " -c " + ini;
    } else {
      assert " " + " " == "  ";
      assert cli + " " + " " == cli + "  ";
    }
  }

  /** An `iniPath` of "" or "0" is treated as unset. */
  lemma FalsyIniIgnored(cfg: ServerConfig, workingDir: string)
    requires !HasIni(cfg)
    ensures BuildCommand(cfg, workingDir) == BuildCommand(cfg.(iniPath := None), workingDir)
  {
  }

  /** The current directory enters the command exactly when `cwd` is unset:
      with `cwd` set it is ignored, without it different directories give
      different commands. */
  lemma WorkingDirUsedOnlyWhenCwdUnset(cfg: ServerConfig, w1: string, w2: string)
    ensures cfg.cwd.Some? ==> BuildCommand(cfg, w1) == BuildCommand(cfg, w2)
    ensures HasCli(cfg) && cfg.cwd.None? && w1 != w2 ==>
      BuildCommand(cfg, w1) != BuildCommand(cfg, w2)
  {
    if HasCli(cfg) && cfg.cwd.None? && w1 != w2 {
      var sep := if HasIni(cfg) then " -c " + cfg.iniPath.value else " ";
      var pre := cfg.cli.value + sep + " ";
      var post := "/" + OrEmpty(cfg.startScript);
      assert BuildCommand(cfg, w1).value == pre + w1 + post;
      assert BuildCommand(cfg, w2).value == pre + w2 + post;
      InfixInjective(pre, w1, w2, post);
    }
  }

  lemma InfixInjective(pre: string, a: string, b: string, post: string)
    requires a != b
    ensures pre + a + post != pre + b + post
  {
    if |a| == |b| {
      var k :| 0 <= k < |a| && a[k] != b[k];
      assert (pre + a + post)[|pre| + k] == a[k];
      assert (pre + b + post)[|pre| + k] == b[k];
    } else {
      assert |pre + a + post| != |pre + b + post|;
    }
  }

  /** An example of the layout. */
  lemma SynthesisExample()
    ensures BuildCommand(
      ServerConfig(Some("/usr/bin/php"), Some("/etc/php.ini"), Some("/srv/web1"), Some("server.php")),
      "/tmp")
      == Some("/usr/bin/php -c /etc/php.ini /srv/web1/server.php")
  {
    var cfg := ServerConfig(Some("/usr/bin/php"), Some("/etc/php.ini"), Some("/srv/web1"), Some("server.php"));
    assert HasCli(cfg) && HasIni(cfg);
    CommandLayout(cfg, "/tmp");
    ExampleText();
  }

  lemma ExampleText()
    ensures "/usr/bin/php" + " -c " + "/etc/php.ini" + " " + "/srv/web1" + "/" + "server.php"
      == "/usr/bin/php -c /etc/php.ini /srv/web1/server.php"
  {
    assert "/usr/bin/php" + " -c " == "/usr/bin/php -c ";
    assert "/usr/bin/php -c " + "/etc/php.ini" == "/usr/bin/php -c /etc/php.ini";
    assert "/usr/bin/php -c /etc/php.ini" + " " == "/usr/bin/php -c /etc/php.ini ";
    assert "/usr/bin/php -c /etc/php.ini " + "/srv/web1" == "/usr/bin/php -c /etc/php.ini /srv/web1";
    assert "/usr/bin/php -c /etc/php.ini /srv/web1" + "/" == "/usr/bin/php -c /etc/php.ini /srv/web1/";
  }
}
