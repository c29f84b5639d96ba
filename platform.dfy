/**
 * The platform-family table that picks the directories of the init-script and
 * configuration templates (recipes/cron.rb, the value_for_platform_family call).
 */
module Platform {
  import opened Options

  /** The template directory of the init script and the configuration directory under /etc. */
  datatype TemplateDirs = TemplateDirs(distDir: string, confDir: string)

  const RedHatFamilies: set<string> := {"amazon", "rhel", "fedora"}
  const KnownFamilies: set<string> := RedHatFamilies + {"debian", "suse"}

  /**
   * value_for_platform_family over the recipe's five entries. A family that no
   * entry names yields nil, so both directories are nil.
   */
  function PlatformDirs(family: string): (r: Option<TemplateDirs>)
    ensures r.Some? <==> family in KnownFamilies
    ensures r.Some? ==> (r.value.distDir == "redhat" <==> family in RedHatFamilies)
    ensures r.Some? ==> (r.value.distDir == family <==> family in {"debian", "suse"})
    ensures r.Some? ==> (r.value.confDir == "default" <==> family == "debian")
    ensures r.Some? ==> (r.value.confDir == "sysconfig" <==> family != "debian")
  {
    if family == "amazon" then Some(TemplateDirs("redhat", "sysconfig"))
    else if family == "debian" then Some(TemplateDirs("debian", "default"))
    else if family == "rhel" then Some(TemplateDirs("redhat", "sysconfig"))
    else if family == "fedora" then Some(TemplateDirs("redhat", "sysconfig"))
    else if family == "suse" then Some(TemplateDirs("suse", "sysconfig"))
    else None
  }
}
