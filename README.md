# Gladius configuration bootstrap, modelled in Dafny

This project models the decision logic of the Gladius node's configuration
package (`config/config.go`): how the base directory is resolved from the
`GLADIUSBASE` environment variable, the `-b` command-line flag and the
operating system; which directories are handed to the configuration library as
search paths; and how the library's read error is classified at start-up
(continue, continue with defaults, or panic).

- `go_strings.dfy`, module `GoStrings`: Go's `strings.HasPrefix`, character by
  character, proved equal to Go's slice definition.
- `config.dfy`, module `Config`: the environment snapshot `Env`, the resolver
  `GetGladiusBase`, the search-path choice `SearchPaths`, the read-error
  classification `Classify`, and `SetupConfig`, a method that strings these
  together in the order the Go function runs them.

The environment reads (`os.Getenv`, `runtime.GOOS`) and the parsed `-b` flag are
fields of `Env`; an unset variable is the empty string, as `os.Getenv` returns
it. `filepath.Join` is a function parameter `join` of type `PathJoin`; for the
Windows branch the model claims only that the result is
`join(HOMEDRIVE, HOMEPATH, ".gladius")` with no error. The read error of the
configuration library is an input of `SetupConfig` (`None` for a nil error,
`Some(message)` otherwise).

The `-b` flag is consulted only when `GLADIUSBASE` is non-empty, and then it
beats `GLADIUSBASE`. When `GLADIUSBASE` is empty the flag is ignored and the
operating system decides, even on an unknown system, although the error message
given there (config/config.go:72) suggests using `-b`.
`Config.FlagIsNotFirst` and `Config.FlagIgnoredWhenEnvUnset` state this.

## Model

| member | source | states |
|---|---|---|
| `Config.GetGladiusBase` | config/config.go:55-81 | the error is non-nil exactly when GLADIUSBASE is empty and the OS is not windows, linux or darwin; then the path is empty and the error carries the unknown-OS message; with GLADIUSBASE set the path is never empty |
| `Config.UnixDefault` | config/config.go:62-69 | GLADIUSBASE empty on linux or darwin gives HOME + "/.config/gladius" and no error, whatever -b holds |
| `Config.WindowsDefault` | config/config.go:62-65 | GLADIUSBASE empty on windows gives the join of HOMEDRIVE, HOMEPATH and ".gladius" and no error |
| `Config.UnknownOsFails` | config/config.go:70-72 | GLADIUSBASE empty on any other OS gives the empty path and a non-nil error |
| `Config.FlagOverridesEnv` | config/config.go:74-75 | GLADIUSBASE set and -b non-empty gives the -b value and no error |
| `Config.EnvWithoutFlag` | config/config.go:76-77 | GLADIUSBASE set and -b empty gives the GLADIUSBASE value and no error |
| `Config.OsIgnoredWhenEnvSet` | config/config.go:62-78 | with GLADIUSBASE set, the OS, HOME, HOMEDRIVE, HOMEPATH and the join do not affect the result, and the error is nil |
| `Config.FlagIgnoredWhenEnvUnset` | config/config.go:59-73 | with GLADIUSBASE empty, changing -b does not change the result |
| `Config.FlagIsNotFirst` | config/config.go:59-78 | concrete inputs: with GLADIUSBASE empty a non-empty -b loses to the Linux home default, and does not avoid the unknown-OS error |
| `Config.SearchPaths` | config/config.go:26-32 | the search path starts with "."; it is exactly ["."] when the resolver failed, otherwise [".", base] |
| `Config.LocalOnlySearch` | config/config.go:26-32 | the search is restricted to "." exactly when GLADIUSBASE is empty and the OS is unknown |
| `Config.Classify` | config/config.go:38-46 | a nil error proceeds; a message beginning with "Config File" is recoverable; every other error is fatal |
| `Config.NotFoundIsRecoverable` | config/config.go:41-42 | every message "Config File" + anything is recoverable |
| `Config.MismatchIsFatal` | config/config.go:41-44 | a message differing from "Config File" in one of its first eleven characters (case included) is fatal |
| `Config.ShortMessageIsFatal` | config/config.go:41-44 | a message shorter than "Config File" is fatal |
| `Config.SetupConfig` | config/config.go:23-51 | registers "." then, if the resolver succeeded, the base directory; classifies the read error; installs the watch exactly when the error is nil or begins with "Config File" (no panic) |
| `GoStrings.HasPrefix` | config/config.go:41 | the character-wise prefix test agrees with Go's definition: len(s) >= len(prefix) and s[:len(prefix)] == prefix |

## Left out

- `GetString` and the configuration store: lookup, defaults and file values belong to the configuration library (viper), whose code is not part of this model.
- `SetConfigName`, `AddConfigPath`, `SetDefault`, `ReadInConfig`, `WatchConfig`: calls into viper; `SetupConfig` returns the search paths it would register instead of registering them, and the loop over the defaults map (one `SetDefault` per entry) is not modelled because it only feeds viper's store.
- The change-watch callback and its print: background filesystem observation owned by fsnotify and viper; the model records only whether the watch is installed.
- `flag.String` and `flag.Parse`: the flag's value is an input; the global flag set, and the re-registration of `-b` on a second call, are not modelled.
- `filepath.Join`: its path-cleaning rules are not modelled; it is the parameter `join`.
- `log.Printf`, `panic` and `fmt.Println`: only the classification outcome is modelled, not the messages or the process termination.
- Go strings are byte strings; the model uses `seq<char>`. For the ASCII prefix "Config File" the byte-wise and character-wise prefix tests agree.
