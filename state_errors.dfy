/// The error type `WasiStateCreationError` returned by `WasiEnvBuilder` and
/// `PreopenDirBuilder`. The human-readable messages of the Rust variants
/// are replaced by structured reasons carrying the same offending value.
module StateErrors {
  import opened WasixTypes

  /** Why an environment pair was rejected (the three messages of build_init). */
  datatype EnvFormatFault =
    | NulInKey(key: Bytes)        // "found nul byte in env var key"
    | EqualInKey(key: Bytes)      // "found equal sign in env var key"
    | NulInValue(value: Bytes)    // "found nul byte in env var value"

  /** Why a preopen was rejected (the two messages of PreopenDirBuilder::build). */
  datatype PreopenFault =
    | NoPermission                // none of read, write, create set
    | NoHostPath                  // no directory given

  /** `virtual_fs::FsError`; its variants are not part of this model. */
  datatype FsError = FsError(code: nat)

  datatype WasiStateCreationError =
    | EnvironmentVariableFormatError(fault: EnvFormatFault)
    | ArgumentContainsNulByte(arg: Bytes)
    | PreopenedDirectoryNotFound(path: Bytes)
    | PreopenedDirectoryError(why: PreopenFault)
    | MappedDirAliasFormattingError(alias: Bytes)
    | WasiFsCreationError(message: Bytes)
    | WasiFsSetupError(message: Bytes)
    | FileSystemError(fsError: FsError)
    | WasiInheritError(message: Bytes)
    | WasiIncludePackageError(message: Bytes)
    | ControlPlane(planeError: nat)
}
