# chef-client cron recipe: a Dafny model

The chef-client cookbook's `cron` recipe schedules the Chef client to run
periodically instead of as a service. This project models the logic in that
recipe that can be checked:

- **Platform table** (`Platform`): `value_for_platform_family` maps amazon,
  rhel and fedora to `redhat`/`sysconfig`, debian to `debian`/`default`, suse to
  `suse`/`sysconfig`, and any other family to nil.
- **Splay** (`Splay`): when the configured splay, as an integer, is positive,
  the run first sleeps `seed % splay` seconds. The seed is the node's
  `shard_seed` when set. Otherwise it is the node name's MD5 digest as
  hexadecimal text, read by `String#hex`. The digest is a function parameter
  (`hexdigest`). The `.hex` conversion is modelled, along with its round trip
  against a 32-digit hex rendering. Ruby's `%` with a positive divisor is
  floored, which agrees with Dafny's Euclidean `%`.
- **Command line** (`CronCommand`): the redirect (`>>` when `append_log` is
  set, `>` otherwise) and `daemon_options` (`" " + options.join(' ') + " "`,
  or nothing when there are no options). The `cmd` buffer is built by the method
  `BuildCommand` as the recipe appends to it: an optional
  `/bin/sleep N; `, the optional environment prefix and a space, an optional
  `/bin/nice -n P `, and then `"<client_bin> <daemon_options><redirect> <log_file> 2>&1"`.
  With options the executable is followed by two spaces, and the options end
  with a space before the redirect. A sleep time of 0 still produces `/bin/sleep 0; `.
  The command and its pieces are related to readers that recover the delay,
  the append mode and the options from the text.
- **Backend switch** (`CronBackends`): the crontab (`cron` resource) and the
  cron.d directory (`cron_d` resource) are two maps from entry name to entry,
  held in the fields of the class `CronHost`. `RunCronRecipe` deletes
  `chef-client` from the store not selected by `use_cron_d` (deleting an absent
  entry is a no-op). It then writes the entry into the selected store: minute,
  hour, weekday, PATH and MAILTO only when configured, user `root`, and the
  computed command. The pure function `Converge` states the resulting state.
  The lemmas prove that exactly one store holds `chef-client` afterwards and
  that other entries are untouched. They also prove that a second run with the
  same configuration changes nothing, and that switching `use_cron_d` moves the
  same entry, with the same command, from one store to the other.

The helper library's values (`find_chef_client`, `env_vars`/`env_vars?`,
`process_priority`) are inputs (`HelperValues`). The node attributes are one
immutable record (`CronConfig`).

## Model

| member | source | states |
|---|---|---|
| Platform.PlatformDirs | recipes/cron.rb:35-41 | the five listed families, and only they, get directories; the distribution directory is `redhat` exactly for amazon, rhel and fedora, otherwise the family's own name; the configuration directory is `default` exactly for debian, `sysconfig` for the others |
| Splay.SleepTime | recipes/cron.rb:91-96 | there is a sleep time exactly when the splay is positive, and it then lies in `[0, splay)` |
| Splay.ShardSeedTakesPrecedence | recipes/cron.rb:92-93 | with `shard_seed` set, the offset is `shard_seed % splay`, whatever the node name or the digest |
| Splay.DigestSeed | recipes/cron.rb:92-93 | without `shard_seed`, a node whose 128-bit MD5 digest is `d` (written as 32 hex digits) sleeps `d % splay` seconds |
| Splay.SameNodeSameOffset | recipes/cron.rb:92-93 | the offset depends only on the digest of the node name, so it is the same on every run |
| Text.NatToDecimal | recipes/cron.rb:116 | the sleep time is rendered as at least one decimal digit, with no leading zero |
| Text.DecimalRoundTrip | recipes/cron.rb:116 | reading the rendered sleep time back gives the number |
| Text.IntToDecimal | recipes/cron.rb:118 | the rendered priority starts with `-` exactly when it is negative |
| Text.IntRoundTrip | recipes/cron.rb:118 | reading the rendered priority back, sign included, gives the number |
| Text.ToHex | recipes/cron.rb:92 | the reference hex rendering has exactly the requested number of hex digits |
| Text.HexRoundTrip | recipes/cron.rb:92 | `String#hex` reads a full-width hex rendering back as the number it renders |
| Text.SplitJoin | recipes/cron.rb:99 | joining tokens that contain no space with single spaces is undone by splitting at spaces |
| Text.JoinLosesEmbeddedSeparators | recipes/cron.rb:99 | a token that itself holds a space joins to the same text as two tokens: nothing is escaped |
| CronCommand.Redirect | recipes/cron.rb:98 | the redirect is made of `>` characters and has two of them exactly when `append_log` is set |
| CronCommand.DaemonOptions | recipes/cron.rb:99 | the options string is empty exactly when there are no options, and otherwise starts and ends with a space |
| CronCommand.DaemonOptionsRoundTrip | recipes/cron.rb:99 | without its outer spaces, the options string splits back into the configured options when none holds a space |
| CronCommand.BuildCommand | recipes/cron.rb:115-120 | the buffer after the conditional appends is the ordered concatenation of the present segments and the client invocation |
| CronCommand.SleepRoundTrip | recipes/cron.rb:116 | when there is a sleep time, 0 included, the command starts with `/bin/sleep N; ` and N reads back as the sleep time |
| CronCommand.NoSleepNoPrefix | recipes/cron.rb:115-119 | with no sleep time the command carries no `/bin/sleep` delay (environment prefix, if any, not starting with `/`; executable not named like the sleep program) |
| CronCommand.CommandEndsWithLog | recipes/cron.rb:119 | every command ends with the redirect, a space, the log file and ` 2>&1` |
| CronCommand.AppendModeRecoverable | recipes/cron.rb:98 | the command appends to the log file exactly when `append_log` is set |
| CronCommand.TruncateModeNotAppend | recipes/cron.rb:119 | with `>` the character before the redirect is a space, so the command never reads as appending |
| CronCommand.MinimalCommand | recipes/cron.rb:115-119 | with no optional segment and no options the command is `bin + " " + redirect + " " + log + " 2>&1"` |
| CronCommand.ExampleWithoutOptions | recipes/cron.rb:115-119 | `/usr/bin/chef-client > /var/log/chef/client.log 2>&1` for the plain configuration |
| CronBackends.Other | recipes/cron.rb:103-141 | the store not in use differs from the one in use |
| CronBackends.SelectedBackend | recipes/cron.rb:103 | cron.d is selected exactly when `use_cron_d` is set |
| CronBackends.CronHost.Delete | recipes/cron.rb:104-106 | deleting removes the named entry from that store and changes nothing else |
| CronBackends.CronHost.Upsert | recipes/cron.rb:108-121 | writing replaces the named entry in that store and changes nothing else |
| CronBackends.CronHost.RunCronRecipe | recipes/cron.rb:103-141 | the new stores are `Converge` of the old ones; the selected store holds `chef-client` and the other does not |
| CronBackends.DeleteAbsentIsNoop | recipes/cron.rb:104-106 | deleting an entry that is not there changes nothing |
| CronBackends.DeleteRemovesOnlyName | recipes/cron.rb:123-125 | deleting removes the name from that store only, and keeps every other entry |
| CronBackends.UpsertWritesOnlyName | recipes/cron.rb:127-140 | writing puts the entry under its name and keeps every other entry in both stores |
| CronBackends.ConvergeExclusive | recipes/cron.rb:103-141 | after a run the selected store holds the computed entry, the other holds none, and exactly one store holds `chef-client` |
| CronBackends.ConvergeKeepsOtherEntries | recipes/cron.rb:103-141 | a run leaves every entry not named `chef-client` unchanged in both stores |
| CronBackends.ConvergeIdempotent | recipes/cron.rb:103-141 | a second run with the same configuration leaves the stores as the first left them |
| CronBackends.SwitchMovesEntry | recipes/cron.rb:103-141 | toggling `use_cron_d` and running again moves the identical entry to the other store, leaves one holder in all and keeps other entries |
| CronBackends.RecipeEntryFields | recipes/cron.rb:109-114 | the entry runs as root, carries PATH and MAILTO exactly when configured and with the configured values, and uses the configured schedule |
| CronBackends.EntryDelayWithSplay | recipes/cron.rb:91-116 | with a positive splay the installed command's delay is `seed % splay` |
| CronBackends.EntryDelayWithoutSplay | recipes/cron.rb:91-116 | with no positive splay the installed command has no delay prefix (same conditions as NoSleepNoPrefix) |
| CronBackends.EntryAppendsExactlyWhenConfigured | recipes/cron.rb:97-119 | the installed command appends to the configured log exactly when `append_log` is set |

## Left out

- `find_chef_client` and `create_chef_directories`: they come from the helper library, which is not part of this model, and they touch the file system. The executable path is an input.
- `env_vars`, `env_vars?` and `process_priority`: also from the helper library. They are inputs, and the environment prefix is present exactly when `env_vars?` holds.
- The init-script and configuration templates, and the service disable and stop blocks (lines 44-88): these are resource declarations for the convergence engine, with no logic. Only the directory table that feeds them is modelled.
- The MD5 digest itself: a library call, modelled as the parameter `hexdigest`.
- `String#hex` for leading whitespace, a sign, a `0x` prefix or underscores: a hex digest never contains them, so only the leading-hex-digit reading is modelled (`Hex(" ff")` is 0 here, 255 in Ruby).
- `to_i` on the splay attribute: the splay is taken as the integer that `to_i` yields.
- Splay.Seed: `shard_seed` is taken as an Integer. Ruby accepts any numeric value there; a Float seed would give a fractional sleep time such as `/bin/sleep 12.5; `, which the model does not produce.
- `Array#any?` on a list with nil or false elements: options are strings, and every string is truthy, so `any?` is modelled as "non-empty".
- The convergence engine's resource semantics beyond the two stores: cron properties that the recipe does not set (day, month, home, shell), writing the crontab and the cron.d file, and executing the command.
- Errors the engine raises while writing an entry (permissions, malformed fields): they abort the run outside the recipe's code.
- CronCommand.NoSleepNoPrefix: states the absence of a delay as "no `/bin/sleep N; ` can be read at the head", under two conditions: an environment prefix, if any, that does not start with `/`, and an executable not starting with `/bin/sleep `. An arbitrary environment prefix could itself start with that text. The unconditional fact, that no sleep segment is appended, is `BuildCommand`'s postcondition with `SleepSegment(None) == ""`.
- CronBackends.EntryDelayWithoutSplay: same conditions as CronCommand.NoSleepNoPrefix, for the same reason.
