/// `PreopenDirBuilder` and `PreopenedDir` (lib/wasix/src/state/builder.rs):
/// a fluent record of a host directory, an optional guest-visible alias and
/// three permission flags, turned into a validated `PreopenedDir` by `build`.
module Preopen {
  import opened WasixTypes
  import opened StateErrors

  /** The built, immutable preopen. */
  datatype PreopenedDir = PreopenedDir(path: Bytes, alias: Option<Bytes>, read: bool, write: bool, create: bool)

  /** The fields of a `PreopenDirBuilder`, as a value. */
  datatype PreopenConfig = PreopenConfig(path: Option<Bytes>, alias: Option<Bytes>, read: bool, write: bool, create: bool)

  /** `PreopenDirBuilder::default()` */
  const EmptyConfig := PreopenConfig(None, None, false, false, false)

  /** One call on a `PreopenDirBuilder`; a `preopen_build` closure is a sequence of these. */
  datatype PreopenStep =
    | Directory(dir: Bytes)
    | Alias(name: Bytes)
    | Read(toggle: bool)
    | Write(toggle: bool)
    | Create(toggle: bool)

  ghost predicate AllSlashes(s: Bytes) {
    forall i :: 0 <= i < |s| ==> s[i] == SLASH
  }

  /** `str::trim_start_matches('/')`: `r` is what is left after the longest
      all-slash prefix of `s`. */
  function TrimLeadingSlashes(s: Bytes): (r: Bytes)
    ensures |r| <= |s| && r == s[|s| - |r|..]
    ensures AllSlashes(s[..|s| - |r|])
    ensures r == [] || r[0] != SLASH
  {
    if |s| > 0 && s[0] == SLASH then
      var r := TrimLeadingSlashes(s[1..]);
      SlashPrefixGrows(s, r);
      r
    else
      s
  }

  /** One more leading '/' extends the removed all-slash prefix by one. */
  lemma SlashPrefixGrows(s: Bytes, r: Bytes)
    requires |s| > 0 && s[0] == SLASH
    requires |r| <= |s| - 1 && r == s[1..][|s| - 1 - |r|..]
    requires AllSlashes(s[1..][..|s| - 1 - |r|])
    ensures r == s[|s| - |r|..]
    ensures AllSlashes(s[..|s| - |r|])
  {
    var n := |s| - |r|;
    var removed, inner := s[..n], s[1..][..n - 1];
    forall k | 0 <= k < n ensures removed[k] == SLASH {
      if k > 0 {
        assert removed[k] == inner[k - 1];
      }
    }
  }

  /** The three facts TrimLeadingSlashes promises determine its result. */
  lemma {:induction false} TrimLeadingSlashesUnique(s: Bytes, r: Bytes)
    requires |r| <= |s| && r == s[|s| - |r|..]
    requires AllSlashes(s[..|s| - |r|])
    requires r == [] || r[0] != SLASH
    ensures r == TrimLeadingSlashes(s)
    decreases |s|
  {
    var n := |s| - |r|;
    if n == 0 {
      assert r == s;
    } else {
      assert s[0] == s[..n][0];
      var tail := s[1..];
      assert tail[|tail| - |r|..] == s[n..];
      var prefix, slashes := tail[..n - 1], s[..n];
      forall k | 0 <= k < n - 1 ensures prefix[k] == SLASH {
        assert prefix[k] == slashes[k + 1];
      }
      TrimLeadingSlashesUnique(tail, r);
    }
  }

  /** Trimming slashes never adds or removes a nul byte. */
  lemma TrimKeepsNul(s: Bytes)
    ensures NUL in TrimLeadingSlashes(s) <==> NUL in s
  {
    var r := TrimLeadingSlashes(s);
    var n := |s| - |r|;
    assert forall i :: 0 <= i < n ==> s[i] == s[..n][i] == SLASH;
    assert forall i :: n <= i < |s| ==> s[i] == r[i - n];
  }

  /** `validate_mapped_dir_alias` */
  function ValidateMappedDirAlias(alias: Bytes): (r: Result<(), WasiStateCreationError>)
    ensures r.Ok? <==> NUL !in alias
    ensures r.Err? ==> r.error == MappedDirAliasFormattingError(alias)
  {
    if !(forall i | 0 <= i < |alias| :: alias[i] != NUL) then
      Err(MappedDirAliasFormattingError(alias))
    else
      Ok(())
  }

  /** The effect of one builder call on the builder's fields. */
  function Apply(c: PreopenConfig, step: PreopenStep): (r: PreopenConfig)
    ensures AliasNormalized(c.alias) ==> AliasNormalized(r.alias)
    ensures step.Create? && step.toggle ==> r.create && r.write
    ensures !step.Write? && !(step.Create? && step.toggle) ==> r.write == c.write
  {
    match step
    case Directory(dir) => c.(path := Some(dir))
    case Alias(name) => c.(alias := Some(TrimLeadingSlashes(name)))
    case Read(t) => c.(read := t)
    case Write(t) => c.(write := t)
    case Create(t) => c.(create := t, write := if t then true else c.write)
  }

  /** The effect of a sequence of builder calls, applied left to right. */
  function ApplyAll(c: PreopenConfig, steps: seq<PreopenStep>): (r: PreopenConfig)
    ensures (forall i :: 0 <= i < |steps| ==> !steps[i].Directory?) ==> r.path == c.path
    ensures (forall i :: 0 <= i < |steps| ==> !steps[i].Alias?) ==> r.alias == c.alias
    decreases |steps|
  {
    if steps == [] then c else Apply(ApplyAll(c, steps[..|steps| - 1]), steps[|steps| - 1])
  }

  /** `PreopenDirBuilder::build`: the permission check comes first, then the
      path, then the alias; on success every field is copied. */
  function BuildPreopen(c: PreopenConfig): (r: Result<PreopenedDir, WasiStateCreationError>)
    ensures !(c.read || c.write || c.create) ==> r == Err(PreopenedDirectoryError(NoPermission))
    ensures (c.read || c.write || c.create) && c.path.None? ==> r == Err(PreopenedDirectoryError(NoHostPath))
    ensures (c.read || c.write || c.create) && c.path.Some? && c.alias.Some? && NUL in c.alias.value ==>
              r == Err(MappedDirAliasFormattingError(c.alias.value))
    ensures r.Ok? <==> (c.read || c.write || c.create) && c.path.Some? && (c.alias.Some? ==> NUL !in c.alias.value)
    ensures r.Ok? ==> r.value == PreopenedDir(c.path.value, c.alias, c.read, c.write, c.create)
  {
    if !(c.read || c.write || c.create) then
      Err(PreopenedDirectoryError(NoPermission))
    else if c.path.None? then
      Err(PreopenedDirectoryError(NoHostPath))
    else if c.alias.Some? && ValidateMappedDirAlias(c.alias.value).Err? then
      Err(ValidateMappedDirAlias(c.alias.value).error)
    else
      Ok(PreopenedDir(c.path.value, c.alias, c.read, c.write, c.create))
  }

  /** A stored alias never starts with '/'. */
  ghost predicate AliasNormalized(alias: Option<Bytes>) {
    alias.Some? ==> alias.value == [] || alias.value[0] != SLASH
  }

  /** Every sequence of builder calls leaves the alias normalized, so every
      built preopen carries a normalized alias. */
  lemma {:induction false} ApplyAllNormalizesAlias(steps: seq<PreopenStep>)
    ensures AliasNormalized(ApplyAll(EmptyConfig, steps).alias)
    ensures BuildPreopen(ApplyAll(EmptyConfig, steps)).Ok? ==>
              AliasNormalized(BuildPreopen(ApplyAll(EmptyConfig, steps)).value.alias)
    decreases |steps|
  {
    if steps != [] {
      ApplyAllNormalizesAlias(steps[..|steps| - 1]);
    }
  }

  /** `create(true)` grants write; `create(false)` leaves write alone. */
  lemma CreateImpliesWrite(c: PreopenConfig, t: bool)
    ensures Apply(c, Create(t)).create == t
    ensures Apply(c, Create(t)).write == (t || c.write)
    ensures Apply(c, Create(t)).read == c.read && Apply(c, Create(t)).path == c.path && Apply(c, Create(t)).alias == c.alias
  {
  }

  /** A later `write(false)` undoes what `create(true)` implied: the built
      preopen may have create set and write clear. */
  lemma {:induction false} CreateWithoutWriteIsBuilt(dir: Bytes)
    ensures BuildPreopen(ApplyAll(EmptyConfig, [Directory(dir), Create(true), Write(false)]))
         == Ok(PreopenedDir(dir, None, false, false, true))
  {
    var steps := [Directory(dir), Create(true), Write(false)];
    assert steps[..2][..1] == [Directory(dir)];
    assert steps[..2] == [Directory(dir), Create(true)];
    assert ApplyAll(EmptyConfig, [Directory(dir)]) == EmptyConfig.(path := Some(dir)) by {
      assert [Directory(dir)][..0] == [];
    }
  }

  /** The builder behind `Preopen.BuildPreopen`; each setter updates its field in place. */
  class PreopenDirBuilder {
    var path: Option<Bytes>
    var alias: Option<Bytes>
    var read: bool
    var write: bool
    var create: bool

    /** The builder's fields as a value. */
    function Config(): PreopenConfig
      reads this
    {
      PreopenConfig(path, alias, read, write, create)
    }

    /** `PreopenDirBuilder::new` */
    constructor ()
      ensures Config() == EmptyConfig
    {
      path, alias := None, None;
      read, write, create := false, false, false;
    }

    /** `directory` */
    method Directory(dir: Bytes)
      modifies this
      ensures Config() == old(Config()).(path := Some(dir))
    {
      path := Some(dir);
    }

    /** `alias`: leading '/' are dropped before the alias is stored. */
    method Alias(name: Bytes)
      modifies this
      ensures Config() == old(Config()).(alias := Some(TrimLeadingSlashes(name)))
      ensures AliasNormalized(alias)
    {
      alias := Some(TrimLeadingSlashes(name));
    }

    /** `read` */
    method Read(toggle: bool)
      modifies this
      ensures Config() == old(Config()).(read := toggle)
    {
      read := toggle;
    }

    /** `write` */
    method Write(toggle: bool)
      modifies this
      ensures Config() == old(Config()).(write := toggle)
    {
      write := toggle;
    }

    /** `create`: turning create on also turns write on. */
    method Create(toggle: bool)
      modifies this
      ensures Config() == old(Config()).(create := toggle, write := toggle || old(write))
    {
      create := toggle;
      if toggle {
        write := true;
      }
    }

    /** Performs one builder call. */
    method Perform(step: PreopenStep)
      modifies this
      ensures Config() == Apply(old(Config()), step)
    {
      match step
      case Directory(dir) => Directory(dir);
      case Alias(name) => Alias(name);
      case Read(t) => Read(t);
      case Write(t) => Write(t);
      case Create(t) => Create(t);
    }

    /** `build`: succeeds exactly when a permission is set, a path is given
        and the alias, if any, has no nul byte, and then copies every field. */
    function Build(): (r: Result<PreopenedDir, WasiStateCreationError>)
      reads this
      ensures r.Ok? <==> (read || write || create) && path.Some? && (alias.Some? ==> NUL !in alias.value)
      ensures r.Ok? ==> r.value == PreopenedDir(path.value, alias, read, write, create)
      ensures !(read || write || create) ==> r == Err(PreopenedDirectoryError(NoPermission))
    {
      BuildPreopen(Config())
    }
  }
}
