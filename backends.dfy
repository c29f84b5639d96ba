/**
 * The scheduled entry and the switch between its two homes (recipes/cron.rb,
 * from the use_cron_d test to the end): the `cron` resource, an entry in root's
 * crontab, and the `cron_d` resource, a file under /etc/cron.d. Each home is a
 * store from entry name to entry. One run of the recipe deletes the entry named
 * chef-client from the home not in use and writes it, freshly computed, into
 * the one in use.
 */
module CronBackends {
  import opened Options
  import opened Text
  import opened Splay
  import opened CronCommand

  const EntryName: string := "chef-client"
  const RootUser: string := "root"

  /** The properties the recipe gives a scheduled entry. */
  datatype CronEntry = CronEntry(
    minute: string,
    hour: string,
    weekday: string,
    path: Option<string>,     // PATH for the run, only when configured
    mailto: Option<string>,   // where cron mails the output, only when configured
    user: string,
    command: string)

  /** The crontab managed by the `cron` resource, or the cron.d directory managed by `cron_d`. */
  datatype Backend = Crontab | CronD

  function Other(b: Backend): (o: Backend)
    ensures o != b
  {
    if b == Crontab then CronD else Crontab
  }

  /** The store the recipe writes to: cron.d when use_cron_d is set, the crontab otherwise. */
  function SelectedBackend(useCronD: bool): (b: Backend)
    ensures b == CronD <==> useCronD
  {
    if useCronD then CronD else Crontab
  }

  /** The contents of both stores, by entry name. */
  datatype Stores = Stores(crontab: map<string, CronEntry>, cronD: map<string, CronEntry>) {

    function Get(b: Backend): map<string, CronEntry> {
      if b == Crontab then crontab else cronD
    }

    /** `action :delete`: the entry goes if it is there; an absent entry is no error. */
    function Delete(b: Backend, name: string): Stores {
      if b == Crontab then Stores(crontab - {name}, cronD) else Stores(crontab, cronD - {name})
    }

    /** The default `:create` action: the entry is written with exactly the given properties. */
    function Upsert(b: Backend, name: string, e: CronEntry): Stores {
      if b == Crontab then Stores(crontab[name := e], cronD) else Stores(crontab, cronD[name := e])
    }

    /** How many of the two stores hold an entry called `name`. */
    function Holders(name: string): (n: nat)
      ensures n <= 2
      ensures n == 0 <==> name !in crontab && name !in cronD
    {
      (if name in crontab then 1 else 0) + (if name in cronD then 1 else 0)
    }
  }

  /** The node attributes the recipe reads, as one immutable record. */
  datatype CronConfig = CronConfig(
    minute: string,
    hour: string,
    weekday: string,
    path: Option<string>,
    mailto: Option<string>,
    useCronD: bool,
    logFile: string,
    appendLog: bool,
    daemonOptions: seq<string>,
    splay: int,                 // the configured splay after to_i
    shardSeed: Option<int>,
    nodeName: string)

  /** Values the recipe takes from its helper library: find_chef_client, env_vars / env_vars?, process_priority. */
  datatype HelperValues = HelperValues(clientBin: string, envVars: Option<string>, processPriority: Option<int>)

  /** What the recipe has computed when it reaches the command buffer. */
  function RecipeCommandInputs(cfg: CronConfig, h: HelperValues, hexdigest: string -> string): CommandInputs {
    CommandInputs(SleepTime(cfg.splay, cfg.shardSeed, cfg.nodeName, hexdigest), h.envVars, h.processPriority,
                  h.clientBin, DaemonOptions(cfg.daemonOptions), Redirect(cfg.appendLog), cfg.logFile)
  }

  /** The entry both branches declare, with the given command. */
  function DesiredEntry(cfg: CronConfig, command: string): CronEntry {
    CronEntry(cfg.minute, cfg.hour, cfg.weekday, cfg.path, cfg.mailto, RootUser, command)
  }

  /** The entry one run of the recipe writes. */
  function RecipeEntry(cfg: CronConfig, h: HelperValues, hexdigest: string -> string): CronEntry {
    DesiredEntry(cfg, CommandLine(RecipeCommandInputs(cfg, h, hexdigest)))
  }

  /** The stores after one run of the recipe: delete from the unused store, then write the selected one. */
  function Converge(s: Stores, cfg: CronConfig, h: HelperValues, hexdigest: string -> string): Stores {
    var b := SelectedBackend(cfg.useCronD);
    s.Delete(Other(b), EntryName).Upsert(b, EntryName, RecipeEntry(cfg, h, hexdigest))
  }

  /** The host's two cron stores, which the recipe's resources change in place. */
  class CronHost {
    var crontab: map<string, CronEntry>
    var cronD: map<string, CronEntry>

    function State(): Stores
      reads this
    {
      Stores(crontab, cronD)
    }

    constructor (initial: Stores)
      ensures State() == initial
    {
      crontab := initial.crontab;
      cronD := initial.cronD;
    }

    method Delete(b: Backend, name: string)
      modifies this
      ensures State() == old(State()).Delete(b, name)
    {
      if b == Crontab {
        crontab := crontab - {name};
      } else {
        cronD := cronD - {name};
      }
    }

    method Upsert(b: Backend, name: string, e: CronEntry)
      modifies this
      ensures State() == old(State()).Upsert(b, name, e)
    {
      if b == Crontab {
        crontab := crontab[name := e];
      } else {
        cronD := cronD[name := e];
      }
    }

    /**
     * One run of the scheduling part of the recipe. The digest of the node
     * name is a parameter; the helper values are inputs.
     */
    method RunCronRecipe(cfg: CronConfig, h: HelperValues, hexdigest: string -> string)
      modifies this
      ensures State() == Converge(old(State()), cfg, h, hexdigest)
      ensures State().Holders(EntryName) == 1
      ensures cfg.useCronD ==> EntryName in cronD && EntryName !in crontab
      ensures !cfg.useCronD ==> EntryName in crontab && EntryName !in cronD
    {
      var sleepTime := SleepTime(cfg.splay, cfg.shardSeed, cfg.nodeName, hexdigest);
      var logFile := cfg.logFile;
      var appendLog := Redirect(cfg.appendLog);
      var daemonOptions := DaemonOptions(cfg.daemonOptions);
      var inputs := CommandInputs(sleepTime, h.envVars, h.processPriority, h.clientBin,
                                  daemonOptions, appendLog, logFile);
      if cfg.useCronD {
        Delete(Crontab, EntryName);
        var cmd := BuildCommand(inputs);
        Upsert(CronD, EntryName, CronEntry(cfg.minute, cfg.hour, cfg.weekday, cfg.path, cfg.mailto, RootUser, cmd));
      } else {
        Delete(CronD, EntryName);
        var cmd := BuildCommand(inputs);
        Upsert(Crontab, EntryName, CronEntry(cfg.minute, cfg.hour, cfg.weekday, cfg.path, cfg.mailto, RootUser, cmd));
      }
      ConvergeExclusive(old(State()), cfg, h, hexdigest);
    }
  }

  // ---------------------------------------------------------------------------
  // Properties of the delete and write steps

  /** Deleting an entry that is not there changes nothing. */
  lemma DeleteAbsentIsNoop(s: Stores, b: Backend, name: string)
    requires name !in s.Get(b)
    ensures s.Delete(b, name) == s
  {
  }

  /** Deleting removes that one name from that one store. */
  lemma DeleteRemovesOnlyName(s: Stores, b: Backend, name: string)
    ensures name !in s.Delete(b, name).Get(b)
    ensures s.Delete(b, name).Get(Other(b)) == s.Get(Other(b))
    ensures forall k :: k != name ==>
      (k in s.Delete(b, name).Get(b) <==> k in s.Get(b)) &&
      (k in s.Get(b) ==> s.Delete(b, name).Get(b)[k] == s.Get(b)[k])
  {
  }

  /** Writing an entry puts it under its name in that store and leaves the rest alone. */
  lemma UpsertWritesOnlyName(s: Stores, b: Backend, name: string, e: CronEntry)
    ensures var t := s.Upsert(b, name, e);
      name in t.Get(b) && t.Get(b)[name] == e &&
      t.Get(Other(b)) == s.Get(Other(b)) &&
      t.Get(b) - {name} == s.Get(b) - {name}
  {
  }

  // ---------------------------------------------------------------------------
  // Properties of a run

  /**
   * After a run the selected store holds the freshly computed entry and the
   * other store holds none: exactly one store holds chef-client.
   */
  lemma ConvergeExclusive(s: Stores, cfg: CronConfig, h: HelperValues, hexdigest: string -> string)
    ensures var t, b := Converge(s, cfg, h, hexdigest), SelectedBackend(cfg.useCronD);
      EntryName in t.Get(b) && t.Get(b)[EntryName] == RecipeEntry(cfg, h, hexdigest) &&
      EntryName !in t.Get(Other(b)) &&
      t.Holders(EntryName) == 1
  {
  }

  /** A run touches no entry other than chef-client, in either store. */
  lemma ConvergeKeepsOtherEntries(s: Stores, cfg: CronConfig, h: HelperValues, hexdigest: string -> string)
    ensures var t := Converge(s, cfg, h, hexdigest);
      t.crontab - {EntryName} == s.crontab - {EntryName} &&
      t.cronD - {EntryName} == s.cronD - {EntryName}
  {
  }

  /** Running again with the same configuration changes nothing. */
  lemma ConvergeIdempotent(s: Stores, cfg: CronConfig, h: HelperValues, hexdigest: string -> string)
    ensures Converge(Converge(s, cfg, h, hexdigest), cfg, h, hexdigest) == Converge(s, cfg, h, hexdigest)
  {
  }

  /**
   * Switching use_cron_d and running again moves the entry: the new store holds
   * the same entry (same command), the old one holds none, and nothing else changes.
   */
  lemma SwitchMovesEntry(s: Stores, cfg: CronConfig, h: HelperValues, hexdigest: string -> string)
    ensures var switched := cfg.(useCronD := !cfg.useCronD);
      var t := Converge(s, cfg, h, hexdigest);
      var u := Converge(t, switched, h, hexdigest);
      var b := SelectedBackend(cfg.useCronD);
      RecipeEntry(switched, h, hexdigest) == RecipeEntry(cfg, h, hexdigest) &&
      EntryName !in u.Get(b) &&
      EntryName in u.Get(Other(b)) && u.Get(Other(b))[EntryName] == t.Get(b)[EntryName] &&
      u.Holders(EntryName) == 1 &&
      u.crontab - {EntryName} == s.crontab - {EntryName} &&
      u.cronD - {EntryName} == s.cronD - {EntryName}
  {
  }

  /**
   * The written entry runs as root, on the configured schedule, and carries
   * PATH and MAILTO exactly when they are configured, with the configured values.
   */
  lemma RecipeEntryFields(cfg: CronConfig, h: HelperValues, hexdigest: string -> string)
    ensures var e := RecipeEntry(cfg, h, hexdigest);
      e.user == "root" &&
      (e.path.Some? <==> cfg.path.Some?) && (e.mailto.Some? <==> cfg.mailto.Some?) &&
      e.path == cfg.path && e.mailto == cfg.mailto &&
      e.minute == cfg.minute && e.hour == cfg.hour && e.weekday == cfg.weekday
  {
  }

  /**
   * The delay that can be read off the installed command: `seed % splay` when
   * the splay is positive (0 included), whatever else is configured.
   */
  lemma EntryDelayWithSplay(cfg: CronConfig, h: HelperValues, hexdigest: string -> string)
    requires cfg.splay > 0
    ensures SleepPrefixOf(RecipeEntry(cfg, h, hexdigest).command)
            == Some(Seed(cfg.shardSeed, cfg.nodeName, hexdigest) % cfg.splay)
  {
    SleepRoundTrip(RecipeCommandInputs(cfg, h, hexdigest));
  }

  /**
   * With no positive splay the installed command starts without a delay
   * (given an environment prefix, if any, that does not start with '/' and an
   * executable not named like the sleep program).
   */
  lemma EntryDelayWithoutSplay(cfg: CronConfig, h: HelperValues, hexdigest: string -> string)
    requires cfg.splay <= 0
    requires h.envVars.Some? ==> !StartsWith(h.envVars.value, "/")
    requires !StartsWith(h.clientBin, SleepProgram)
    ensures SleepPrefixOf(RecipeEntry(cfg, h, hexdigest).command) == None
  {
    NoSleepNoPrefix(RecipeCommandInputs(cfg, h, hexdigest), cfg.appendLog, cfg.daemonOptions);
  }

  /** The installed command appends to the log exactly when append_log is set. */
  lemma EntryAppendsExactlyWhenConfigured(cfg: CronConfig, h: HelperValues, hexdigest: string -> string)
    ensures AppendsTo(RecipeEntry(cfg, h, hexdigest).command, cfg.logFile) <==> cfg.appendLog
  {
    AppendModeRecoverable(RecipeCommandInputs(cfg, h, hexdigest), cfg.appendLog, cfg.daemonOptions);
  }
}
