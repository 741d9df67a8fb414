/** `TONWalletGenerator.generateWallet`: default parameters, validation,
    default subwallet substitution, the version switch, the library steps in
    order, assembly of the wallet record and the wrapping of every error.

    The library steps (`mnemonicNew`, `mnemonicToWalletKey`,
    `WalletContractV3R2.create`, `WalletContractV4.create`, `wallet.address`
    and the address formatters) are not part of this model: they are the
    fields of a `Library` value passed in. The pipeline reports the calls of
    the three steps that can fail (drawing the mnemonic, deriving the keys,
    creating the contract), in order; the address getter and the formatters,
    which only read the created contract, are not logged. */
module WalletGenerator {
  import opened Results
  import Text
  import Hex
  import opened Validation

  /** The number of words requested from `mnemonicNew`. */
  const MnemonicWords: nat := 24

  /** The prefix that `generateWallet` puts in front of every error message it re-throws. */
  const FailurePrefix: string := "Failed to generate wallet: "

  /** The wallet contract variants the switch can choose. */
  datatype Variant = V3R2 | V4

  /** The arm of `switch (version.toLowerCase())` that matches; the
      `'v4r2'` arm and `default` share one body. */
  datatype SwitchArm = CaseV3R2 | CaseV4R2 | DefaultArm

  datatype KeyPair = KeyPair(publicKey: seq<Hex.byte>, secretKey: seq<Hex.byte>)

  /** The argument object given to `WalletContract*.create`. */
  datatype CreateArgs = CreateArgs(workchain: int, publicKey: seq<Hex.byte>, walletId: int)

  /** The option object given to `address.toString`; `None` is an absent key. */
  datatype AddressOptions = AddressOptions(urlSafe: Option<bool>, bounceable: Option<bool>)

  /** The library functions the generator calls. `mnemonicNew` stands for the
      secure random source as it is at the time of the call; each step may
      throw, which is an `Err`. `W` is the wallet contract object and `A` its
      address. */
  datatype Library<!W, !A> = Library(
    mnemonicNew: nat -> Result<seq<string>>,
    mnemonicToWalletKey: seq<string> -> Result<KeyPair>,
    createV3R2: CreateArgs -> Result<W>,
    createV4: CreateArgs -> Result<W>,
    addressOf: W -> A,
    toRawString: A -> string,
    toFriendlyString: (A, AddressOptions) -> string)

  /** One call into the library, with its arguments. */
  datatype LibraryCall =
    | MnemonicNew(wordCount: nat)
    | MnemonicToWalletKey(mnemonic: seq<string>)
    | Create(variant: Variant, args: CreateArgs)

  datatype AddressForms = AddressForms(raw: string, bounceable: string, nonBounceable: string, urlSafe: string)

  /** The record `generateWallet` returns. */
  datatype WalletData<W> = WalletData(
    mnemonic: seq<string>,
    mnemonicString: string,
    publicKey: string,
    secretKey: string,
    address: AddressForms,
    walletVersion: string,
    workchain: int,
    subwalletId: int,
    wallet: W)

  /** What one `generateWallet` call does: the library calls it makes, in
      order, and the record it returns or the error it throws. */
  datatype Run<W> = Run(calls: seq<LibraryCall>, result: Result<WalletData<W>>)

  /** The parameter defaults `version = 'v4r2'`, `workchain = 0` and
      `subwalletId = null`, which apply only to an `undefined` argument. */
  function ApplyDefaults(version: Option<string>, workchain: JsArg, subwalletId: JsArg): (r: (string, JsArg, JsArg))
    ensures !r.1.Undefined? && !r.2.Undefined?
    ensures version.Some? ==> r.0 == version.value
    ensures version.None? ==> r.0 == "v4r2"
    ensures workchain.Undefined? ==> r.1 == Int(0)
    ensures !workchain.Undefined? ==> r.1 == workchain
    ensures subwalletId.Undefined? ==> r.2 == Null
    ensures !subwalletId.Undefined? ==> r.2 == subwalletId
  {
    (if version.Some? then version.value else "v4r2",
     if workchain.Undefined? then Int(0) else workchain,
     if subwalletId.Undefined? then Null else subwalletId)
  }

  /** `subwalletId || this.defaultSubwalletId`, evaluated only after the
      subwallet check has passed: `null` and `0` are falsy and give the
      default, any other accepted ID is kept. */
  function EffectiveSubwalletId(subwalletId: JsArg): (id: int)
    requires IsValidSubwalletId(subwalletId)
    ensures id > 0
    ensures subwalletId == Null || subwalletId == Int(0) ==> id == DefaultSubwalletId
    ensures subwalletId.Int? && subwalletId.n != 0 ==> id == subwalletId.n
  {
    match subwalletId
    case Int(n) => if n != 0 then n else DefaultSubwalletId
    case _ => DefaultSubwalletId
  }

  /** The arm of `switch (version.toLowerCase())` taken for a lower-cased
      token: a named case exactly for the supported versions. */
  function SwitchOn(lowered: string): (arm: SwitchArm)
    ensures arm == CaseV3R2 <==> lowered == "v3r2"
    ensures arm == CaseV4R2 <==> lowered == "v4r2"
    ensures arm == DefaultArm <==> lowered !in SupportedVersions
  {
    if lowered == "v3r2" then CaseV3R2
    else if lowered == "v4r2" then CaseV4R2
    else DefaultArm
  }

  /** The contract variant the version switch creates: V3R2 only for a token
      that lower-cases to `v3r2`, V4 for everything else, which for a
      supported token means exactly `v4r2`. */
  function SelectVariant(version: string): (v: Variant)
    ensures v == V3R2 <==> Text.ToLowerCase(version) == "v3r2"
    ensures IsSupportedVersion(version) ==> (v == V4 <==> Text.ToLowerCase(version) == "v4r2")
    ensures !IsSupportedVersion(version) ==> v == V4
  {
    match SwitchOn(Text.ToLowerCase(version))
    case CaseV3R2 => V3R2
    case CaseV4R2 => V4
    case DefaultArm => V4
  }

  /** The factory each switch arm calls: `WalletContractV3R2.create(args)`
      for V3R2, `WalletContractV4.create(args)` for V4. */
  function CreateWith<W, A>(lib: Library<W, A>, variant: Variant, args: CreateArgs): (r: Result<W>)
    ensures variant == V3R2 ==> r == lib.createV3R2(args)
    ensures variant == V4 ==> r == lib.createV4(args)
  {
    if variant == V3R2 then lib.createV3R2(args) else lib.createV4(args)
  }

  /** The message carries the prefix `generateWallet` puts on every error it re-throws. */
  predicate IsWrapped(message: string) {
    |FailurePrefix| <= |message| && message[..|FailurePrefix|] == FailurePrefix
  }

  /** The record literal built from the resolved values and the library
      results: the words and their space-joined phrase, the keys as hex text
      that decodes back to them, the four address forms of the created
      contract's address, the inputs as resolved, and the contract itself. */
  function Assemble<W, A>(lib: Library<W, A>, mnemonic: seq<string>, keyPair: KeyPair, wallet: W,
                          version: string, workchain: int, subwalletId: int): (r: WalletData<W>)
    ensures r.mnemonic == mnemonic && r.mnemonicString == Text.Join(mnemonic, " ")
    ensures Hex.Decode(r.publicKey) == Some(keyPair.publicKey)
    ensures Hex.Decode(r.secretKey) == Some(keyPair.secretKey)
    ensures var a := lib.addressOf(wallet);
      r.address == AddressForms(
        lib.toRawString(a),
        lib.toFriendlyString(a, AddressOptions(None, Some(true))),
        lib.toFriendlyString(a, AddressOptions(None, Some(false))),
        lib.toFriendlyString(a, AddressOptions(Some(true), Some(true))))
    ensures r.walletVersion == version && r.workchain == workchain && r.subwalletId == subwalletId
    ensures r.wallet == wallet
  {
    Hex.DecodeEncode(keyPair.publicKey);
    Hex.DecodeEncode(keyPair.secretKey);
    var address := lib.addressOf(wallet);
    WalletData(
      mnemonic,
      Text.Join(mnemonic, " "),
      Hex.Encode(keyPair.publicKey),
      Hex.Encode(keyPair.secretKey),
      AddressForms(
        lib.toRawString(address),
        lib.toFriendlyString(address, AddressOptions(None, Some(true))),
        lib.toFriendlyString(address, AddressOptions(None, Some(false))),
        lib.toFriendlyString(address, AddressOptions(Some(true), Some(true)))),
      version,
      workchain,
      subwalletId,
      wallet)
  }

  /** The body of `generateWallet` once the defaults are applied. */
  function Generate<W, A>(lib: Library<W, A>, version: string, workchain: JsArg, subwalletId: JsArg): (run: Run<W>)
    // Validation comes first: a rejected input makes no library call at all,
    // so no randomness is drawn and no key is derived.
    ensures run.calls == [] <==> ValidateInputs(version, workchain, subwalletId).Fail?
    ensures ValidateInputs(version, workchain, subwalletId).Fail? ==>
      run.result == Err(FailurePrefix + ValidateInputs(version, workchain, subwalletId).message)
    // Every call sequence starts with drawing the mnemonic and follows the fixed order.
    ensures run.calls != [] ==> run.calls[0] == MnemonicNew(MnemonicWords)
    ensures |run.calls| <= 3
    // All or nothing: every failure is re-thrown with the prefix.
    ensures run.result.Err? ==> IsWrapped(run.result.message)
    // A failing library step stops the pipeline; its message follows the prefix.
    ensures ValidateInputs(version, workchain, subwalletId).Pass? && lib.mnemonicNew(MnemonicWords).Err? ==>
      run == Run([MnemonicNew(MnemonicWords)], Err(FailurePrefix + lib.mnemonicNew(MnemonicWords).message))
    ensures ValidateInputs(version, workchain, subwalletId).Pass? && lib.mnemonicNew(MnemonicWords).Ok? ==>
      var mnemonic := lib.mnemonicNew(MnemonicWords).value;
      lib.mnemonicToWalletKey(mnemonic).Err? ==>
        run == Run([MnemonicNew(MnemonicWords), MnemonicToWalletKey(mnemonic)],
                   Err(FailurePrefix + lib.mnemonicToWalletKey(mnemonic).message))
    ensures ValidateInputs(version, workchain, subwalletId).Pass? && lib.mnemonicNew(MnemonicWords).Ok? ==>
      var mnemonic := lib.mnemonicNew(MnemonicWords).value;
      lib.mnemonicToWalletKey(mnemonic).Ok? ==>
        var args := CreateArgs(workchain.n, lib.mnemonicToWalletKey(mnemonic).value.publicKey,
                               EffectiveSubwalletId(subwalletId));
        var created := CreateWith(lib, SelectVariant(version), args);
        && run.calls == [MnemonicNew(MnemonicWords), MnemonicToWalletKey(mnemonic), Create(SelectVariant(version), args)]
        && (created.Err? ==> run.result == Err(FailurePrefix + created.message))
    // A returned record reflects the validated inputs and the library results.
    ensures run.result.Ok? ==>
      var data := run.result.value;
      && ValidateInputs(version, workchain, subwalletId).Pass?
      && lib.mnemonicNew(MnemonicWords) == Ok(data.mnemonic)
      && lib.mnemonicToWalletKey(data.mnemonic).Ok?
      && var keyPair := lib.mnemonicToWalletKey(data.mnemonic).value;
         var args := CreateArgs(workchain.n, keyPair.publicKey, EffectiveSubwalletId(subwalletId));
         && run.calls == [MnemonicNew(MnemonicWords), MnemonicToWalletKey(data.mnemonic), Create(SelectVariant(version), args)]
         && CreateWith(lib, SelectVariant(version), args) == Ok(data.wallet)
         && (SelectVariant(version) == V3R2 ==> lib.createV3R2(args) == Ok(data.wallet))
         && (SelectVariant(version) == V4 ==> lib.createV4(args) == Ok(data.wallet))
         && data == Assemble(lib, data.mnemonic, keyPair, data.wallet, version, workchain.n, EffectiveSubwalletId(subwalletId))
  {
    match ValidateInputs(version, workchain, subwalletId)
    case Fail(message) => Run([], Err(FailurePrefix + message))
    case Pass =>
      var first := [MnemonicNew(MnemonicWords)];
      match lib.mnemonicNew(MnemonicWords)
      case Err(message) => Run(first, Err(FailurePrefix + message))
      case Ok(mnemonic) =>
        var second := first + [MnemonicToWalletKey(mnemonic)];
        match lib.mnemonicToWalletKey(mnemonic)
        case Err(message) => Run(second, Err(FailurePrefix + message))
        case Ok(keyPair) =>
          var id := EffectiveSubwalletId(subwalletId);
          var variant := SelectVariant(version);
          var args := CreateArgs(workchain.n, keyPair.publicKey, id);
          var calls := second + [Create(variant, args)];
          match CreateWith(lib, variant, args)
          case Err(message) => Run(calls, Err(FailurePrefix + message))
          case Ok(wallet) => Run(calls, Ok(Assemble(lib, mnemonic, keyPair, wallet, version, workchain.n, id)))
  }

  /** `generateWallet(version, workchain, subwalletId)`, with JavaScript's
      default parameters. */
  function GenerateWallet<W, A>(lib: Library<W, A>, version: Option<string>, workchain: JsArg, subwalletId: JsArg): (run: Run<W>)
    ensures run.result.Err? ==> IsWrapped(run.result.message)
  {
    var (v, w, s) := ApplyDefaults(version, workchain, subwalletId);
    Generate(lib, v, w, s)
  }

  /** A call with no arguments passes validation and, if the library steps
      succeed, creates a V4 wallet on the basechain with the default ID. */
  lemma DefaultArguments<W, A>(lib: Library<W, A>)
    ensures var run := GenerateWallet(lib, None, Undefined, Undefined);
      && run.calls != []
      && (run.result.Ok? ==>
            && run.calls[2] == Create(V4, run.calls[2].args)
            && lib.createV4(run.calls[2].args) == Ok(run.result.value.wallet)
            && run.calls[2].args.workchain == 0
            && run.calls[2].args.walletId == DefaultSubwalletId
            && run.result.value.walletVersion == "v4r2"
            && run.result.value.workchain == 0
            && run.result.value.subwalletId == DefaultSubwalletId)
  {
    assert Text.ToLowerCase("v4r2") == "v4r2";
  }

  /** Once validation passes, the `default` arm of the version switch is never
      taken: every accepted token matches one of the two named cases. */
  lemma DefaultArmUnreachable(version: string, workchain: JsArg, subwalletId: JsArg)
    requires ValidateInputs(version, workchain, subwalletId).Pass?
    ensures SwitchOn(Text.ToLowerCase(version)) != DefaultArm
  {
  }

  /** For the same library results, leaving the subwallet ID out, passing
      `0` and passing the default ID itself all give the same calls and the
      same record. */
  lemma DefaultSubstitution<W, A>(lib: Library<W, A>, version: string, workchain: JsArg)
    ensures Generate(lib, version, workchain, Null) == Generate(lib, version, workchain, Int(0))
    ensures Generate(lib, version, workchain, Null) == Generate(lib, version, workchain, Int(DefaultSubwalletId))
  {
  }

  /** A wallet record is returned exactly when validation passes and each of
      the three library steps succeeds. */
  lemma SucceedsExactlyWhenEveryStepSucceeds<W, A>(lib: Library<W, A>, version: string, workchain: JsArg, subwalletId: JsArg)
    ensures Generate(lib, version, workchain, subwalletId).result.Ok? <==>
      && ValidateInputs(version, workchain, subwalletId).Pass?
      && lib.mnemonicNew(MnemonicWords).Ok?
      && lib.mnemonicToWalletKey(lib.mnemonicNew(MnemonicWords).value).Ok?
      && var args := CreateArgs(workchain.n,
                                lib.mnemonicToWalletKey(lib.mnemonicNew(MnemonicWords).value).value.publicKey,
                                EffectiveSubwalletId(subwalletId));
         CreateWith(lib, SelectVariant(version), args).Ok?
  {
  }

  /** The record keeps the version token as it was written while the switch
      uses its lower-cased form. */
  lemma VersionCaseKept<W, A>(lib: Library<W, A>)
    ensures var run := Generate(lib, "V3R2", Int(-1), Int(7));
      run.result.Ok? ==>
        && run.calls[2] == Create(V3R2, run.calls[2].args)
        && lib.createV3R2(run.calls[2].args) == Ok(run.result.value.wallet)
        && run.calls[2].args.workchain == -1
        && run.calls[2].args.walletId == 7
        && run.result.value.walletVersion == "V3R2"
  {
    assert Text.ToLowerCase("V3R2") == "v3r2";
  }

  /** An unsupported version makes no library call and throws the prefixed
      message naming the token. */
  lemma RejectedVersion<W, A>(lib: Library<W, A>)
    ensures GenerateWallet(lib, Some("v1"), Int(0), Null) ==
      Run([], Err(FailurePrefix + "Unsupported wallet version: v1. Supported versions: v3r2, v4r2"))
  {
    UnsupportedVersionExample(Int(0), Null);
  }

  /** A bad workchain or subwallet ID makes no library call and throws the
      prefixed message of its check. */
  lemma RejectedArguments<W, A>(lib: Library<W, A>)
    ensures GenerateWallet(lib, Some("v4r2"), Int(5), Null) == Run([], Err(FailurePrefix + WorkchainMessage))
    ensures GenerateWallet(lib, Some("v4r2"), Int(0), Int(-3)) == Run([], Err(FailurePrefix + SubwalletMessage))
  {
    RejectedArgumentExamples();
  }

  /** The mnemonic string of a returned record splits back into its words
      when no word contains a space. */
  lemma MnemonicStringSplitsBack<W, A>(lib: Library<W, A>, version: string, workchain: JsArg, subwalletId: JsArg)
    requires Generate(lib, version, workchain, subwalletId).result.Ok?
    requires var words := Generate(lib, version, workchain, subwalletId).result.value.mnemonic;
      |words| >= 1 && forall i :: 0 <= i < |words| ==> ' ' !in words[i]
    ensures var data := Generate(lib, version, workchain, subwalletId).result.value;
      Text.Split(data.mnemonicString, ' ') == data.mnemonic
  {
    var data := Generate(lib, version, workchain, subwalletId).result.value;
    Text.SplitJoin(data.mnemonic, ' ');
  }

  /** The hex texts of a returned record decode to the derived key pair. */
  lemma KeysDecodeBack<W, A>(lib: Library<W, A>, version: string, workchain: JsArg, subwalletId: JsArg)
    requires Generate(lib, version, workchain, subwalletId).result.Ok?
    ensures var data := Generate(lib, version, workchain, subwalletId).result.value;
      && lib.mnemonicToWalletKey(data.mnemonic).Ok?
      && Hex.Decode(data.publicKey) == Some(lib.mnemonicToWalletKey(data.mnemonic).value.publicKey)
      && Hex.Decode(data.secretKey) == Some(lib.mnemonicToWalletKey(data.mnemonic).value.secretKey)
  {
    var keyPair := lib.mnemonicToWalletKey(lib.mnemonicNew(MnemonicWords).value).value;
    Hex.DecodeEncode(keyPair.publicKey);
    Hex.DecodeEncode(keyPair.secretKey);
  }
}
