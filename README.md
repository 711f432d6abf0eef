# Snapshot configuration of the validator runtime, in Dafny

This project models `SnapshotConfig`, the descriptor that tells the validator
runtime how snapshots of bank state are used (only loaded at startup, or loaded
and also generated in steady state), where the full and incremental snapshot
archives and the bank snapshot directory live, which archive format and
snapshot version to use, how many archives to retain, and whether the initial
state comes from archives or straight from the bank snapshot directory.

The record's fields are public. The configuration code provides three
constructors, one query and no method that changes a configuration:

- `Default` — load and generate, from archives, `TarBzip2`, empty directories,
  the default intervals, retention counts and version, no accounts-hash debug
  verification, niceness adjustment 0;
- `NewLoadOnly` — the default configuration with usage `LoadOnly`;
- `NewFromFile(dir)` — the load-only configuration with bank snapshot directory
  `dir`, source `File` and archive format `None`;

and queried by `ShouldGenerateSnapshots`, true exactly for usage
`LoadAndGenerate`.

The two derived constructors are struct-update expressions in the source
(`Self { field: value, ..base }`); the model writes them as Dafny's datatype
update `base.(field := value)`. `Get` reads a configuration field by field, and
the constructors' contracts state, in that view, which fields they set and that
every other field is inherited from the base.

Types: `Slot` is an unsigned 64-bit newtype, the niceness adjustment an 8-bit
signed newtype, paths are `seq<char>` with the empty sequence as the default
path. The defaults that come from the snapshot utilities (the two interval
constants, the two retention constants and the default snapshot version) are
not part of this model; every constructor takes them as one record,
`ExternalDefaults`, so nothing is claimed about their values.

The code names the non-archive source `SnapshotFrom::File`; the model follows
the code and calls it `File`.

## Model

| member | source | states |
|---|---|---|
| `SnapshotConfiguration.FieldsDetermineConfig` | runtime/src/snapshot_config.rs:9-49 | Two configurations that agree on each of the thirteen fields are equal, so the field-by-field view used in every "inherited" property loses nothing. |
| `SnapshotConfiguration.DefaultFields` | runtime/src/snapshot_config.rs:52-71 | The default configuration loads and generates, from archives, in `TarBzip2`, with all three directories empty, debug verification off, niceness 0, and the external default intervals, retention counts and version. |
| `SnapshotConfiguration.NewLoadOnly` | runtime/src/snapshot_config.rs:78-83 | The load-only configuration has usage `LoadOnly` and equals the default configuration on every other field. |
| `SnapshotConfiguration.NewFromFile` | runtime/src/snapshot_config.rs:86-96 | The from-file configuration holds exactly the given bank snapshot directory, source `File` and format `None`, and equals the load-only configuration on every other field. |
| `SnapshotConfiguration.FromFileInheritsDefaults` | runtime/src/snapshot_config.rs:87-94 | The from-file configuration has usage `LoadOnly`, both archive directories empty, and the default intervals, retention counts, version, debug flag and niceness. |
| `SnapshotConfiguration.GenerationByConstructor` | runtime/src/snapshot_config.rs:52-102 | Generation is enabled for the default configuration and disabled for the load-only configuration and for the from-file configuration of any directory. |
| `SnapshotConfiguration.GenerationOnlyFromArchives` | runtime/src/snapshot_config.rs:52-102 | A configuration built by one of the three constructors for which the query says snapshots should be generated is the default configuration, so its source is `Archive` and its format `TarBzip2`. |
| `SnapshotConfiguration.ReachablePairs` | runtime/src/snapshot_config.rs:52-96 | A usage/source pair is produced by some constructor if and only if it is one of (`LoadAndGenerate`, `Archive`), (`LoadOnly`, `Archive`) and (`LoadOnly`, `File`); (`LoadAndGenerate`, `File`) is never produced. |
| `SnapshotConfiguration.FromFileInjective` | runtime/src/snapshot_config.rs:86-96 | The from-file constructor is injective in its directory: two from-file configurations are equal if and only if their directories are equal. |

## Left out

- fs-wrap-error/src/fs_wrap_error.rs is not part of this model: it wraps the operating system's file-open call and captures the caller's file and line through compiler intrinsics, which is I/O with no logic of its own to state.
- The values of the snapshot utilities' interval and retention constants and of the default snapshot version are not part of this model; they enter as the `ExternalDefaults` parameter.
- Configurations that callers build directly with a struct literal, or change afterwards through the public fields, are not covered: `ReachablePairs` and `GenerationOnlyFromArchives` speak only of what the three constructors return (a directly built value may pair `LoadAndGenerate` with `File`).
- `SnapshotFrom` is defined outside the configuration code; the model takes exactly the two variants the configuration code names, `Archive` and `File`.
- Archive formats other than `TarBzip2` and `None` are defined outside the configuration code and are represented by one catch-all variant, `OtherFormat`.
- The retention counts (`usize` in the source) are modelled as unbounded `nat`; nothing in the configuration code does arithmetic on them.
- The derived `Clone` and `Debug` implementations, and what the loader and the packager do with a configuration, are outside the configuration code.
- `ShouldGenerateSnapshots` leaves the configuration unchanged by construction: it is a function of an immutable value, so there is nothing further to state.
