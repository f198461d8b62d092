/// The validation pass that `WasiEnvBuilder::build_init` runs over the whole
/// configuration before anything is assembled (lib/wasix/src/state/builder.rs
/// 584-633), and the `key=value` strings it produces afterwards (684-695).
module EnvValidation {
  import opened WasixTypes
  import opened StateErrors

  /** A byte that may not occur in an environment key. */
  predicate IsKeyFault(b: Byte) { b == NUL || b == EQUALS }

  predicate ContainsNul(s: Bytes) { NUL in s }

  /** The argument pass: the first argument holding a nul byte is reported. */
  function ValidateArgs(args: seq<Bytes>): (r: Result<(), WasiStateCreationError>)
    ensures r.Err? ==> r.error.ArgumentContainsNulByte? && r.error.arg in args && NUL in r.error.arg
  {
    var i := FirstIndex(args, ContainsNul);
    if i < |args| then Err(ArgumentContainsNulByte(args[i])) else Ok(())
  }

  /** `InvalidCharacter` */
  datatype InvalidCharacter = Nul | Equal

  /** The `find_map` over the key's bytes: the kind of its first nul-or-'=' byte. */
  function KeyFault(key: Bytes): (r: Option<InvalidCharacter>)
    ensures r == Some(Nul) ==> NUL in key
    ensures r == Some(Equal) ==> EQUALS in key
  {
    var i := FirstIndex(key, IsKeyFault);
    if i == |key| then None
    else if key[i] == NUL then Some(Nul)
    else Some(Equal)
  }

  /** The check of one pair: the key first, then the value. */
  function PairFault(key: Bytes, value: Bytes): (r: Option<EnvFormatFault>)
    ensures r.Some? && (r.value.NulInKey? || r.value.EqualInKey?) ==> r.value.key == key && KeyFault(key).Some?
    ensures r.Some? && r.value.NulInValue? ==> r.value.value == value && NUL in value && KeyFault(key).None?
  {
    match KeyFault(key)
    case Some(Nul) => Some(NulInKey(key))
    case Some(Equal) => Some(EqualInKey(key))
    case None => if NUL in value then Some(NulInValue(value)) else None
  }

  predicate PairRejected(pair: (Bytes, Bytes)) {
    PairFault(pair.0, pair.1).Some?
  }

  /** The environment pass: the first rejected pair is reported. */
  function ValidateEnvs(envs: seq<(Bytes, Bytes)>): (r: Result<(), WasiStateCreationError>)
    ensures r.Err? ==> r.error.EnvironmentVariableFormatError?
    ensures r.Err? ==> exists i :: 0 <= i < |envs| && PairFault(envs[i].0, envs[i].1) == Some(r.error.fault)
  {
    var i := FirstIndex(envs, PairRejected);
    if i < |envs| then Err(EnvironmentVariableFormatError(PairFault(envs[i].0, envs[i].1).value)) else Ok(())
  }

  /** The whole pass: arguments first, then environment pairs. */
  function Validate(args: seq<Bytes>, envs: seq<(Bytes, Bytes)>): (r: Result<(), WasiStateCreationError>)
    ensures r.Ok? <==> ValidateArgs(args).Ok? && ValidateEnvs(envs).Ok?
    ensures r.Err? && ValidateArgs(args).Ok? ==> r.error.EnvironmentVariableFormatError?
  {
    if ValidateArgs(args).Err? then ValidateArgs(args) else ValidateEnvs(envs)
  }

  /** The argument pass rejects exactly the lists holding a nul byte somewhere,
      and names the first such argument. */
  lemma ArgsVerdict(args: seq<Bytes>)
    ensures ValidateArgs(args).Ok? <==> forall i :: 0 <= i < |args| ==> NUL !in args[i]
    ensures ValidateArgs(args).Err? ==>
              exists j :: 0 <= j < |args| && NUL in args[j] && ValidateArgs(args).error == ArgumentContainsNulByte(args[j]) &&
                          forall k :: 0 <= k < j ==> NUL !in args[k]
  {
    var i := FirstIndex(args, ContainsNul);
    if i < |args| {
      assert ContainsNul(args[i]);
    } else {
      assert forall k :: 0 <= k < |args| ==> !ContainsNul(args[k]);
    }
  }

  /** A key is rejected exactly when it holds a nul or '=' byte, and the kind
      reported is that of the first such byte. */
  lemma KeyVerdict(key: Bytes)
    ensures KeyFault(key).None? <==> NUL !in key && EQUALS !in key
    ensures KeyFault(key) == Some(Nul) <==>
              exists j :: 0 <= j < |key| && key[j] == NUL && forall k :: 0 <= k < j ==> !IsKeyFault(key[k])
    ensures KeyFault(key) == Some(Equal) <==>
              exists j :: 0 <= j < |key| && key[j] == EQUALS && forall k :: 0 <= k < j ==> !IsKeyFault(key[k])
  {
    var i := FirstIndex(key, IsKeyFault);
    if i < |key| {
      assert IsKeyFault(key[i]);
      forall j | 0 <= j < |key| && IsKeyFault(key[j]) && forall k :: 0 <= k < j ==> !IsKeyFault(key[k])
        ensures j == i
      {
        FirstIndexAt(key, IsKeyFault, j);
      }
    } else {
      assert forall k :: 0 <= k < |key| ==> !IsKeyFault(key[k]);
    }
  }

  /** A pair is accepted exactly when its key has no nul and no '=' and its
      value has no nul; '=' in the value is allowed. */
  lemma PairVerdict(key: Bytes, value: Bytes)
    ensures PairFault(key, value).None? <==> NUL !in key && EQUALS !in key && NUL !in value
    ensures NUL in key && EQUALS !in key ==> PairFault(key, value) == Some(NulInKey(key))
    ensures EQUALS in key && NUL !in key ==> PairFault(key, value) == Some(EqualInKey(key))
    ensures NUL !in key && EQUALS !in key && NUL in value ==> PairFault(key, value) == Some(NulInValue(value))
  {
    KeyVerdict(key);
  }

  /** The environment pass names the first rejected pair, and only runs once
      every argument has passed. */
  lemma EnvsVerdict(args: seq<Bytes>, envs: seq<(Bytes, Bytes)>, j: nat)
    requires j < |envs| && PairRejected(envs[j])
    requires forall k :: 0 <= k < j ==> !PairRejected(envs[k])
    ensures ValidateEnvs(envs) == Err(EnvironmentVariableFormatError(PairFault(envs[j].0, envs[j].1).value))
    ensures ValidateArgs(args).Ok? ==> Validate(args, envs) == ValidateEnvs(envs)
    ensures ValidateArgs(args).Err? ==> Validate(args, envs) == ValidateArgs(args)
  {
    FirstIndexAt(envs, PairRejected, j);
  }

  /** One environment string: `key=value` as bytes. */
  function EnvString(key: Bytes, value: Bytes): (r: Bytes)
    ensures |r| == |key| + 1 + |value| && r[|key|] == EQUALS
    ensures NUL in r <==> NUL in key || NUL in value
  {
    key + [EQUALS] + value
  }

  /** The `map`/`collect` of build_init: one string per pair, same order. */
  function EnvStrings(envs: seq<(Bytes, Bytes)>): (r: seq<Bytes>)
    ensures |r| == |envs|
    ensures forall i :: 0 <= i < |envs| ==> r[i] == EnvString(envs[i].0, envs[i].1)
    decreases |envs|
  {
    if envs == [] then [] else [EnvString(envs[0].0, envs[0].1)] + EnvStrings(envs[1..])
  }

  /** How a guest reads an environment string back: split at the first '='. */
  function SplitEnvString(s: Bytes): (Bytes, Bytes) {
    var i := FirstIndex(s, (b: Byte) => b == EQUALS);
    if i < |s| then (s[..i], s[i + 1..]) else (s, [])
  }

  /** Every pair that passes validation is recovered from its environment
      string, and that string holds no nul byte. */
  lemma EnvStringRoundTrip(key: Bytes, value: Bytes)
    requires PairFault(key, value).None?
    ensures SplitEnvString(EnvString(key, value)) == (key, value)
    ensures NUL !in EnvString(key, value)
  {
    PairVerdict(key, value);
    var s := EnvString(key, value);
    FirstIndexAt(s, (b: Byte) => b == EQUALS, |key|);
    assert s[..|key|] == key;
    assert s[|key| + 1..] == value;
  }

  /** Test `env_var_errors` (builder.rs 1099-1105): '=' in a key is rejected. */
  lemma EqualInKeyCase()
    ensures Validate([Ascii("test_prog")], [(Ascii("HOM=E"), Ascii("/home/home"))])
         == Err(EnvironmentVariableFormatError(EqualInKey(Ascii("HOM=E"))))
  {
    FirstIndexAt([Ascii("test_prog")], ContainsNul, 1);
    FirstIndexAt(Ascii("HOM=E"), IsKeyFault, 3);
    FirstIndexAt([(Ascii("HOM=E"), Ascii("/home/home"))], PairRejected, 0);
  }

  /** Test `env_var_errors` (builder.rs 1108-1114): nul in a key is rejected. */
  lemma NulInKeyCase()
    ensures Validate([Ascii("test_prog")], [(Ascii("HOME") + [NUL], Ascii("/home/home"))])
         == Err(EnvironmentVariableFormatError(NulInKey(Ascii("HOME") + [NUL])))
  {
    FirstIndexAt([Ascii("test_prog")], ContainsNul, 1);
    FirstIndexAt(Ascii("HOME") + [NUL], IsKeyFault, 4);
    FirstIndexAt([(Ascii("HOME") + [NUL], Ascii("/home/home"))], PairRejected, 0);
  }

  /** Test `env_var_errors` (builder.rs 1117-1123): '=' in a value is accepted. */
  lemma EqualInValueCase()
    ensures Validate([Ascii("test_prog")], [(Ascii("HOME"), Ascii("/home/home=home"))]) == Ok(())
  {
    FirstIndexAt([Ascii("test_prog")], ContainsNul, 1);
    FirstIndexAt(Ascii("HOME"), IsKeyFault, 4);
    AsciiNulFree("/home/home=home");
    FirstIndexAt([(Ascii("HOME"), Ascii("/home/home=home"))], PairRejected, 1);
  }

  /** Test `env_var_errors` (builder.rs 1126-1132): nul in a value is rejected. */
  lemma NulInValueCase()
    ensures Validate([Ascii("test_prog")], [(Ascii("HOME"), Ascii("/home/home") + [NUL])])
         == Err(EnvironmentVariableFormatError(NulInValue(Ascii("/home/home") + [NUL])))
  {
    FirstIndexAt([Ascii("test_prog")], ContainsNul, 1);
    FirstIndexAt(Ascii("HOME"), IsKeyFault, 4);
    assert (Ascii("/home/home") + [NUL])[10] == NUL;
    FirstIndexAt([(Ascii("HOME"), Ascii("/home/home") + [NUL])], PairRejected, 0);
  }

  /** `build_init` tests, lines 1136-1155: a nul byte anywhere in an argument
      is rejected, and the offending argument is named. */
  lemma NulCharacterInArgsCases()
    ensures Validate([Ascii("test_prog"), Ascii("--h") + [NUL] + Ascii("elp")], [])
         == Err(ArgumentContainsNulByte(Ascii("--h") + [NUL] + Ascii("elp")))
    ensures Validate([Ascii("test_prog"), Ascii("--help"), Ascii("--wat") + [NUL]], [])
         == Err(ArgumentContainsNulByte(Ascii("--wat") + [NUL]))
  {
    assert (Ascii("--h") + [NUL] + Ascii("elp"))[3] == NUL;
    assert (Ascii("--wat") + [NUL])[5] == NUL;
    FirstIndexAt([Ascii("test_prog"), Ascii("--h") + [NUL] + Ascii("elp")], ContainsNul, 1);
    FirstIndexAt([Ascii("test_prog"), Ascii("--help"), Ascii("--wat") + [NUL]], ContainsNul, 2);
  }
}
