/** A model of the snapshot configuration descriptor of the validator runtime.

    `SnapshotConfig` is a plain record with public fields. The configuration
    code offers three constructors (`Default`, `NewLoadOnly`, `NewFromFile`),
    one query (`ShouldGenerateSnapshots`) and no method that changes a
    configuration; `Constructed` names the values the three constructors return,
    and the reachability facts below are about those values only. The two derived constructors are written in the
    source as struct-update expressions `Self { f: v, .., ..base }`, which are
    Dafny's datatype updates `base.(f := v, ..)`; `Get` gives the field-by-field
    view in which "every other field is inherited unchanged" is stated.
 */
module SnapshotConfiguration {

  /** A ledger slot: an unsigned 64-bit count. */
  newtype Slot = x: int | 0 <= x < 0x1_0000_0000_0000_0000

  /** A signed 8-bit integer, the type of the packager's niceness adjustment. */
  newtype I8 = x: int | -0x80 <= x < 0x80

  /** A filesystem path; the default path is the empty one. */
  type Path = seq<char>

  /** The ways snapshots are allowed to be used. */
  datatype SnapshotUsage =
    | LoadOnly          // snapshots are only loaded at startup
    | LoadAndGenerate   // snapshots are loaded at startup and generated in steady state

  /** Where the initial bank state is reconstructed from. */
  datatype SnapshotFrom = Archive | File

  /** Archive encodings. Only `TarBzip2` and `None` are named by the configuration
      code; every other encoding is represented by `OtherFormat`. */
  datatype ArchiveFormat = TarBzip2 | None | OtherFormat(name: string)

  /** The snapshot serialization version, an opaque tag here. */
  datatype SnapshotVersion = SnapshotVersion(name: string)

  /** The defaults that the configuration takes from the snapshot utilities:
      the two interval constants, the two retention constants and the default
      snapshot version. Their values are not part of this model, so every
      constructor takes them as this one record. */
  datatype ExternalDefaults = ExternalDefaults(
    fullSnapshotArchiveIntervalSlots: Slot,
    incrementalSnapshotArchiveIntervalSlots: Slot,
    maxFullSnapshotArchivesToRetain: nat,
    maxIncrementalSnapshotArchivesToRetain: nat,
    snapshotVersion: SnapshotVersion)

  /** How snapshots are loaded and generated, where they live and how many are kept. */
  datatype SnapshotConfig = SnapshotConfig(
    usage: SnapshotUsage,
    fullSnapshotArchiveIntervalSlots: Slot,
    incrementalSnapshotArchiveIntervalSlots: Slot,
    fullSnapshotArchivesDir: Path,
    incrementalSnapshotArchivesDir: Path,
    bankSnapshotsDir: Path,
    archiveFormat: ArchiveFormat,
    snapshotVersion: SnapshotVersion,
    maximumFullSnapshotArchivesToRetain: nat,
    maximumIncrementalSnapshotArchivesToRetain: nat,  // kept for the latest full snapshot only
    accountsHashDebugVerify: bool,
    packagerThreadNicenessAdj: I8,
    snapshotFrom: SnapshotFrom)

  // ---------------------------------------------------------------------------
  // Field-by-field view of a configuration
  // ---------------------------------------------------------------------------

  /** The names of the thirteen fields of `SnapshotConfig`. */
  datatype Field =
    | UsageField
    | FullIntervalField
    | IncrementalIntervalField
    | FullArchivesDirField
    | IncrementalArchivesDirField
    | BankSnapshotsDirField
    | ArchiveFormatField
    | SnapshotVersionField
    | MaxFullToRetainField
    | MaxIncrementalToRetainField
    | DebugVerifyField
    | NicenessAdjField
    | SnapshotFromField

  /** The value held by one field, tagged with its type. */
  datatype Value =
    | UsageValue(usage: SnapshotUsage)
    | SlotValue(slots: Slot)
    | PathValue(path: Path)
    | FormatValue(format: ArchiveFormat)
    | VersionValue(version: SnapshotVersion)
    | CountValue(count: nat)
    | FlagValue(flag: bool)
    | NicenessValue(adj: I8)
    | FromValue(from: SnapshotFrom)

  /** The value of field `f` of `c`. */
  function Get(c: SnapshotConfig, f: Field): Value {
    match f
    case UsageField => UsageValue(c.usage)
    case FullIntervalField => SlotValue(c.fullSnapshotArchiveIntervalSlots)
    case IncrementalIntervalField => SlotValue(c.incrementalSnapshotArchiveIntervalSlots)
    case FullArchivesDirField => PathValue(c.fullSnapshotArchivesDir)
    case IncrementalArchivesDirField => PathValue(c.incrementalSnapshotArchivesDir)
    case BankSnapshotsDirField => PathValue(c.bankSnapshotsDir)
    case ArchiveFormatField => FormatValue(c.archiveFormat)
    case SnapshotVersionField => VersionValue(c.snapshotVersion)
    case MaxFullToRetainField => CountValue(c.maximumFullSnapshotArchivesToRetain)
    case MaxIncrementalToRetainField => CountValue(c.maximumIncrementalSnapshotArchivesToRetain)
    case DebugVerifyField => FlagValue(c.accountsHashDebugVerify)
    case NicenessAdjField => NicenessValue(c.packagerThreadNicenessAdj)
    case SnapshotFromField => FromValue(c.snapshotFrom)
  }

  /** The field view loses nothing: two configurations that agree on every field
      are the same configuration. */
  lemma FieldsDetermineConfig(a: SnapshotConfig, b: SnapshotConfig)
    requires forall f :: Get(a, f) == Get(b, f)
    ensures a == b
  {
    assert Get(a, UsageField) == Get(b, UsageField);
    assert Get(a, FullIntervalField) == Get(b, FullIntervalField);
    assert Get(a, IncrementalIntervalField) == Get(b, IncrementalIntervalField);
    assert Get(a, FullArchivesDirField) == Get(b, FullArchivesDirField);
    assert Get(a, IncrementalArchivesDirField) == Get(b, IncrementalArchivesDirField);
    assert Get(a, BankSnapshotsDirField) == Get(b, BankSnapshotsDirField);
    assert Get(a, ArchiveFormatField) == Get(b, ArchiveFormatField);
    assert Get(a, SnapshotVersionField) == Get(b, SnapshotVersionField);
    assert Get(a, MaxFullToRetainField) == Get(b, MaxFullToRetainField);
    assert Get(a, MaxIncrementalToRetainField) == Get(b, MaxIncrementalToRetainField);
    assert Get(a, DebugVerifyField) == Get(b, DebugVerifyField);
    assert Get(a, NicenessAdjField) == Get(b, NicenessAdjField);
    assert Get(a, SnapshotFromField) == Get(b, SnapshotFromField);
  }


  // ---------------------------------------------------------------------------
  // The three constructors and the query
  // ---------------------------------------------------------------------------

  /** The default configuration: load and generate snapshots from archives,
      bzip2-compressed tar archives, empty directories, the external default
      intervals, retention counts and version, no debug verification and no
      niceness adjustment. */
  function Default(ext: ExternalDefaults): SnapshotConfig {
    SnapshotConfig(
      usage := LoadAndGenerate,
      fullSnapshotArchiveIntervalSlots := ext.fullSnapshotArchiveIntervalSlots,
      incrementalSnapshotArchiveIntervalSlots := ext.incrementalSnapshotArchiveIntervalSlots,
      fullSnapshotArchivesDir := [],
      incrementalSnapshotArchivesDir := [],
      bankSnapshotsDir := [],
      archiveFormat := TarBzip2,
      snapshotVersion := ext.snapshotVersion,
      maximumFullSnapshotArchivesToRetain := ext.maxFullSnapshotArchivesToRetain,
      maximumIncrementalSnapshotArchivesToRetain := ext.maxIncrementalSnapshotArchivesToRetain,
      accountsHashDebugVerify := false,
      packagerThreadNicenessAdj := 0,
      snapshotFrom := Archive)
  }

  /** A configuration used only for loading at startup: the default one with
      usage forced to `LoadOnly`. */
  function NewLoadOnly(ext: ExternalDefaults): (c: SnapshotConfig)
    ensures c.usage == LoadOnly
    ensures forall f :: f != UsageField ==> Get(c, f) == Get(Default(ext), f)
  {
    Default(ext).(usage := LoadOnly)
  }

  /** The fields `NewFromFile` sets explicitly. */
  const FromFileFields: set<Field> := {BankSnapshotsDirField, SnapshotFromField, ArchiveFormatField}

  /** A configuration that builds the initial bank state from the bank snapshot
      directory `bankSnapshotsDir` rather than from archives: the load-only one
      with that directory, source `File` and archive format `None`. The archive
      fields keep their load-only values and are not used in this case. */
  function NewFromFile(ext: ExternalDefaults, bankSnapshotsDir: Path): (c: SnapshotConfig)
    ensures c.bankSnapshotsDir == bankSnapshotsDir
    ensures c.snapshotFrom == File
    ensures c.archiveFormat == None
    ensures forall f :: f !in FromFileFields ==> Get(c, f) == Get(NewLoadOnly(ext), f)
  {
    NewLoadOnly(ext).(
      bankSnapshotsDir := bankSnapshotsDir,
      snapshotFrom := File,
      archiveFormat := None)
  }

  /** Whether the configuration asks for snapshots to be produced in steady state. */
  function ShouldGenerateSnapshots(c: SnapshotConfig): bool {
    c.usage == LoadAndGenerate
  }

  // ---------------------------------------------------------------------------
  // Properties of the constructors
  // ---------------------------------------------------------------------------

  /** What the default configuration holds, field by field. */
  lemma DefaultFields(ext: ExternalDefaults)
    ensures var c := Default(ext);
      && c.usage == LoadAndGenerate
      && c.snapshotFrom == Archive
      && c.archiveFormat == TarBzip2
      && c.fullSnapshotArchivesDir == [] && c.incrementalSnapshotArchivesDir == [] && c.bankSnapshotsDir == []
      && c.accountsHashDebugVerify == false
      && c.packagerThreadNicenessAdj == 0
      && c.fullSnapshotArchiveIntervalSlots == ext.fullSnapshotArchiveIntervalSlots
      && c.incrementalSnapshotArchiveIntervalSlots == ext.incrementalSnapshotArchiveIntervalSlots
      && c.maximumFullSnapshotArchivesToRetain == ext.maxFullSnapshotArchivesToRetain
      && c.maximumIncrementalSnapshotArchivesToRetain == ext.maxIncrementalSnapshotArchivesToRetain
      && c.snapshotVersion == ext.snapshotVersion
  {
  }

  /** The from-file configuration keeps the load-only usage and everything the
      default configuration puts in the archive directories, intervals,
      retention counts, version, debug flag and niceness. */
  lemma FromFileInheritsDefaults(ext: ExternalDefaults, dir: Path)
    ensures var c := NewFromFile(ext, dir);
      && c.usage == LoadOnly
      && c.fullSnapshotArchivesDir == [] && c.incrementalSnapshotArchivesDir == []
      && c.fullSnapshotArchiveIntervalSlots == ext.fullSnapshotArchiveIntervalSlots
      && c.incrementalSnapshotArchiveIntervalSlots == ext.incrementalSnapshotArchiveIntervalSlots
      && c.maximumFullSnapshotArchivesToRetain == ext.maxFullSnapshotArchivesToRetain
      && c.maximumIncrementalSnapshotArchivesToRetain == ext.maxIncrementalSnapshotArchivesToRetain
      && c.snapshotVersion == ext.snapshotVersion
      && c.accountsHashDebugVerify == false
      && c.packagerThreadNicenessAdj == 0
  {
  }

  /** Generation is on for the default configuration and off for both
      load-only constructors, whatever the directory. */
  lemma GenerationByConstructor(ext: ExternalDefaults, dir: Path)
    ensures ShouldGenerateSnapshots(Default(ext))
    ensures !ShouldGenerateSnapshots(NewLoadOnly(ext))
    ensures !ShouldGenerateSnapshots(NewFromFile(ext, dir))
  {
  }

  /** `c` is what one of the three constructors returns. */
  ghost predicate Constructed(ext: ExternalDefaults, c: SnapshotConfig) {
    c == Default(ext) || c == NewLoadOnly(ext) || exists dir :: c == NewFromFile(ext, dir)
  }

  /** A constructed configuration that generates snapshots is the default one,
      so it reads archives in the default format; generation never goes with a
      file source. */
  lemma GenerationOnlyFromArchives(ext: ExternalDefaults, c: SnapshotConfig)
    requires Constructed(ext, c) && ShouldGenerateSnapshots(c)
    ensures c == Default(ext)
    ensures c.snapshotFrom == Archive && c.archiveFormat == TarBzip2
  {
  }

  /** The usage/source pairs the constructors produce are exactly
      (LoadAndGenerate, Archive), (LoadOnly, Archive) and (LoadOnly, File). */
  lemma ReachablePairs(ext: ExternalDefaults, u: SnapshotUsage, s: SnapshotFrom)
    ensures (exists c :: Constructed(ext, c) && c.usage == u && c.snapshotFrom == s)
        <==> (u, s) in {(LoadAndGenerate, Archive), (LoadOnly, Archive), (LoadOnly, File)}
  {
    if exists c :: Constructed(ext, c) && c.usage == u && c.snapshotFrom == s {
      var c :| Constructed(ext, c) && c.usage == u && c.snapshotFrom == s;
      if c != Default(ext) && c != NewLoadOnly(ext) {
        var dir :| c == NewFromFile(ext, dir);
        FromFileInheritsDefaults(ext, dir);
      }
    } else if (u, s) in {(LoadAndGenerate, Archive), (LoadOnly, Archive), (LoadOnly, File)} {
      var built :=
        if u == LoadAndGenerate then Default(ext)
        else if s == Archive then NewLoadOnly(ext)
        else NewFromFile(ext, []);
      assert Constructed(ext, built);
      FromFileInheritsDefaults(ext, []);
    }
  }

  /** The from-file constructor is injective in its directory: two from-file
      configurations are equal exactly when their directories are. */
  lemma FromFileInjective(ext: ExternalDefaults, dir1: Path, dir2: Path)
    ensures NewFromFile(ext, dir1) == NewFromFile(ext, dir2) <==> dir1 == dir2
  {
  }
}
