# TON wallet generator: parameter handling

This project models the logic that `TONWalletGenerator` (wallet-generator.js)
owns itself: the constants set by its constructor, the input check
`validateInputs`, and the body of `generateWallet`. That body applies the
parameter defaults and validates the inputs. It then draws a 24-word mnemonic,
derives a key pair and resolves the subwallet ID. It picks the wallet
contract by switching on the lower-cased version and assembles the wallet
record. Every error is re-thrown as `"Failed to generate wallet: " + message`.

Everything the generator delegates is a parameter of the model. This covers
mnemonic generation, key derivation, contract creation and address
formatting. A `Library` value holds these functions. Drawing the mnemonic,
deriving the keys and creating the contract may each fail. A run of the
pipeline returns the calls it made to these three steps, in order, together
with the record or the error. The address getter and the address formatters
only read the created contract and are not logged. This is enough to state
the ordering (nothing is drawn or derived before validation passes) and the
all-or-nothing behaviour.

Modules:

- `Results` (results.dfy): `Result`, `Outcome` and `Option`. A thrown `Error` is its message.
- `Text` (text.dfy): `toLowerCase`, `Array.prototype.join`, and a one-character
  `split` that undoes `join` on a non-empty list of separator-free words
  (`[].join(" ")` is `""`, which splits to `[""]`).
- `Hex` (hex.dfy): the lower-case hex text of a byte buffer, which is how the keys
  appear in the record, and a decoder.
- `Validation` (validation.dfy): `DefaultSubwalletId` (698983191) and
  `SupportedVersions` (`["v3r2", "v4r2"]`), the three checks, their messages, and `ValidateInputs`.
- `WalletGenerator` (generator.dfy): defaults, `subwalletId || defaultSubwalletId`,
  the version switch, the pipeline and the lemmas about it.

JavaScript arguments are `JsArg = Undefined | Null | Int(n) | Other`. `Int(n)`
is a number with an integral value; `-0` is `Int(0)`, which `!==` and `||` treat
like `0`. `Other` is any other value: a fraction, `NaN`, an infinity, a string,
a boolean or an object. Every check rejects these the same way, so one case
covers them all.

Behaviour worth noting, all following the code:

- The subwallet check accepts `0`, but `subwalletId || defaultSubwalletId` then
  replaces it with 698983191, exactly as it replaces `null`. So no wallet
  with ID 0 can be produced: `EffectiveSubwalletId` is always positive.
- The record's `walletVersion` is the token as written (`"V3R2"` stays
  upper-case). The switch uses the lower-cased form.
- The `default` arm of the version switch shares V4's body. Validation has
  already rejected every token that would reach it.
- The code performs no mnemonic checksum validation of its own, and the
  model adds none.

## Model

| member | source | states |
|---|---|---|
| Validation.ValidateInputs | wallet-generator.js:16-28 | passes iff the lower-cased version is supported, the workchain is 0 or -1, and the subwallet ID is null or a non-negative integer; otherwise fails with the message of the first failing check, in the order version, workchain, subwallet; the version message names the token and lists `v3r2, v4r2` |
| Validation.SupportedVersionSpelling | wallet-generator.js:17 | a version is supported iff it has four characters `v`/`V`, `3`/`4`, `r`/`R`, `2`, i.e. any case spelling of `v3r2` or `v4r2` |
| Validation.SupportedVersionsText | wallet-generator.js:18 | the supported list joined with `", "` reads `v3r2, v4r2` |
| Validation.ErrorMessagesDistinct | wallet-generator.js:18-26 | the version, workchain and subwallet messages are pairwise different |
| Validation.AcceptedExamples | wallet-generator.js:16-28 | `V4R2`, `v3r2` and `V3r2` pass with valid workchain and subwallet values, including subwallet 0 |
| Validation.UnsupportedVersionExample | wallet-generator.js:17-19 | `v1` fails with `Unsupported wallet version: v1. Supported versions: v3r2, v4r2`, whatever the other arguments are |
| Validation.RejectedArgumentExamples | wallet-generator.js:21-27 | workchain 5 or null fails the workchain check; subwallet -3, a non-integer or undefined fails the subwallet check |
| WalletGenerator.ApplyDefaults | wallet-generator.js:37 | an undefined version, workchain or subwallet ID becomes `"v4r2"`, 0 or null; a supplied value is kept |
| WalletGenerator.EffectiveSubwalletId | wallet-generator.js:54 | for an accepted subwallet argument the ID is 698983191 when it is null or 0 and the supplied value otherwise; it is always positive |
| WalletGenerator.SelectVariant | wallet-generator.js:56-72 | V3R2 iff the lower-cased version is `v3r2`; V4 for a supported token iff it lower-cases to `v4r2`; V4 for every unsupported token (the default arm) |
| WalletGenerator.DefaultArmUnreachable | wallet-generator.js:40-72 | once validation passes, the switch always matches one of the two named cases |
| WalletGenerator.SwitchOn | wallet-generator.js:56-72 | the switch takes the `v3r2` arm iff the lower-cased token is `v3r2`, the `v4r2` arm iff it is `v4r2`, and the default arm iff the token is not in the supported list |
| WalletGenerator.Assemble | wallet-generator.js:78-93 | the record holds the words and their space-joined phrase, key texts that decode to the public and secret keys, the raw, bounceable, non-bounceable and URL-safe forms of the created contract's address (with the option objects the source passes), the version, workchain and subwallet ID given, and the contract object itself |
| WalletGenerator.Generate | wallet-generator.js:38-99 | makes no library call iff validation fails, and then throws the prefixed validation message; otherwise draws 24 words first; a failing step stops the pipeline and its message is re-thrown after the prefix, for the draw, the key derivation and the selected create alike; a returned record comes after exactly the draw, the derivation of that mnemonic's keys, and the selected variant's create with the workchain, the derived public key and the effective ID, the returned contract coming from `WalletContractV3R2.create` when the variant is V3R2 and from `WalletContractV4.create` when it is V4; the record is the assembly of that mnemonic, key pair and created contract with the version as written, the workchain and the effective ID |
| WalletGenerator.GenerateWallet | wallet-generator.js:37-100 | the entry point with JavaScript's parameter defaults; every error it throws carries the prefix |
| WalletGenerator.DefaultArguments | wallet-generator.js:37-72 | a call without arguments passes validation and, if the library succeeds, creates the wallet with `WalletContractV4.create` on workchain 0 with ID 698983191, and the record holds the contract that factory returned |
| WalletGenerator.DefaultSubstitution | wallet-generator.js:54 | for the same library results, subwallet null, 0 and 698983191 give identical library calls and identical records |
| WalletGenerator.SucceedsExactlyWhenEveryStepSucceeds | wallet-generator.js:38-96 | a record is returned iff validation passes and mnemonic generation, key derivation and contract creation all succeed |
| WalletGenerator.VersionCaseKept | wallet-generator.js:56-89 | `"V3R2"` makes `WalletContractV3R2.create` build the returned contract, but the record keeps `"V3R2"`; workchain -1 and ID 7 pass through to the create call |
| WalletGenerator.RejectedVersion | wallet-generator.js:97-99 | `generateWallet("v1", 0, null)` makes no library call and throws `Failed to generate wallet: Unsupported wallet version: v1. Supported versions: v3r2, v4r2` |
| WalletGenerator.RejectedArguments | wallet-generator.js:97-99 | `generateWallet("v4r2", 5, null)` and `generateWallet("v4r2", 0, -3)` make no library call and throw the prefixed workchain or subwallet message |
| WalletGenerator.MnemonicStringSplitsBack | wallet-generator.js:80 | the record's mnemonic string splits on spaces back into the mnemonic words when the mnemonic is non-empty and no word contains a space |
| WalletGenerator.KeysDecodeBack | wallet-generator.js:81-82 | the record's public and secret key texts decode to the key pair derived from the record's mnemonic |
| Text.ToLowerCase | wallet-generator.js:17 | the lower-cased token (used at lines 17 and 56) has the same length and maps each ASCII capital to its small letter, leaving every other character |
| Text.Join | wallet-generator.js:80 | `join` of no parts is empty and of one part is that part; used for the mnemonic phrase here and for the version list at line 18; `Text.SplitJoin` inverts it on non-empty lists of separator-free words |
| Hex.Encode | wallet-generator.js:81-82 | the hex text of a key has two characters per byte, all of them lower-case hex digits; `Hex.DecodeEncode` inverts it |
| Text.SplitJoin | wallet-generator.js:80 | joining a non-empty list of separator-free words with a one-character separator and splitting on it gives the words back |
| Hex.DecodeEncode | wallet-generator.js:81-82 | decoding the hex text of a byte buffer gives the buffer back |
| Hex.EncodeInjective | wallet-generator.js:81-82 | different key bytes give different hex texts |

## Left out

- `mnemonicNew(24)`, `mnemonicToWalletKey`, `WalletContractV3R2.create`, `WalletContractV4.create`, `wallet.address`, `address.toRawString()` and `address.toString(...)` come from the `@ton/crypto` and `@ton/ton` libraries. They are fields of `Library`, passed in. Their randomness, key derivation, cell hashing and address encodings are not modelled. The model therefore proves nothing about determinism of addresses, sensitivity of addresses to version or workchain, address round trips, mnemonic checksums or golden test vectors.
- The address getter and the address formatters are treated as total functions. Whether they can throw is not modelled.
- `generateAndDisplayWallet`, `examples`, the `require.main` hook and every `console.log`/`console.error` call are presentation and I/O.
- `async`/`await`: the steps run strictly one after another, so the model has no concurrency.
- Text.ToLowerCase: models only the ASCII case mapping. No non-ASCII character lower-cases to `v`, `r`, `3`, `4` or `2`, so the accept/reject decision is the same as with the full Unicode mapping.
- A version argument that is not a string (and not undefined) makes `version.toLowerCase()` throw the engine's `TypeError`. This is not modelled: the version is a `string`, or `None` for undefined.
- The subwallet check accepts integers beyond the 32-bit wallet ID range. What the library does with such an ID is not modelled.
- The returned `wallet` object is an opaque value of the library's type.
