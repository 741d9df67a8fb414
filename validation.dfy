/** `TONWalletGenerator`'s constants and its `validateInputs` check. */
module Validation {
  import opened Results
  import Text

  /** The wallet ID used when none is supplied (set by the constructor). */
  const DefaultSubwalletId: int := 698983191

  /** The version tokens the generator accepts, in lower case. */
  const SupportedVersions: seq<string> := ["v3r2", "v4r2"]

  /** A JavaScript argument as far as the checks can tell it apart:
      `undefined`, `null`, a number with an integral value (`-0` is `Int(0)`),
      or any other value (a fraction, `NaN`, an infinity, a string, a boolean,
      an object). */
  datatype JsArg = Undefined | Null | Int(n: int) | Other

  /** `supportedVersions.includes(version.toLowerCase())`. */
  predicate IsSupportedVersion(version: string) {
    Text.ToLowerCase(version) in SupportedVersions
  }

  /** The workchain check passes only for the numbers 0 and -1 (strict equality). */
  predicate IsValidWorkchain(workchain: JsArg) {
    workchain == Int(0) || workchain == Int(-1)
  }

  /** The subwallet check passes for `null` and for non-negative integers. */
  predicate IsValidSubwalletId(subwalletId: JsArg) {
    subwalletId.Null? || (subwalletId.Int? && subwalletId.n >= 0)
  }

  function UnsupportedVersionMessage(version: string): string {
    "Unsupported wallet version: " + version + ". Supported versions: " + Text.Join(SupportedVersions, ", ")
  }

  const WorkchainMessage: string := "Workchain must be 0 (basechain) or -1 (masterchain)"

  const SubwalletMessage: string := "Subwallet ID must be a non-negative integer"

  /** The supported versions as the error message lists them. */
  lemma SupportedVersionsText()
    ensures Text.Join(SupportedVersions, ", ") == "v3r2, v4r2"
  {
    assert SupportedVersions[1..] == ["v4r2"];
  }

  /** `validateInputs`: the version, workchain and subwallet checks in that
      order; the first one that fails decides the error. */
  function ValidateInputs(version: string, workchain: JsArg, subwalletId: JsArg): (r: Outcome)
    ensures r.Pass? <==> IsSupportedVersion(version) && IsValidWorkchain(workchain) && IsValidSubwalletId(subwalletId)
    ensures !IsSupportedVersion(version) ==>
      r == Fail("Unsupported wallet version: " + version + ". Supported versions: v3r2, v4r2")
    ensures IsSupportedVersion(version) && !IsValidWorkchain(workchain) ==> r == Fail(WorkchainMessage)
    ensures IsSupportedVersion(version) && IsValidWorkchain(workchain) && !IsValidSubwalletId(subwalletId) ==>
      r == Fail(SubwalletMessage)
  {
    SupportedVersionsText();
    if Text.ToLowerCase(version) !in SupportedVersions then
      Fail(UnsupportedVersionMessage(version))
    else if workchain != Int(0) && workchain != Int(-1) then
      Fail(WorkchainMessage)
    else if subwalletId != Null && (!subwalletId.Int? || subwalletId.n < 0) then
      Fail(SubwalletMessage)
    else
      Pass
  }

  /** A version token is supported exactly when it spells `v3r2` or `v4r2`
      with either case for each letter. */
  lemma SupportedVersionSpelling(version: string)
    ensures IsSupportedVersion(version) <==>
      |version| == 4 && version[0] in "vV" && version[1] in "34" && version[2] in "rR" && version[3] == '2'
  {
    var lower := Text.ToLowerCase(version);
    if IsSupportedVersion(version) {
      assert |lower| == 4;
      assert lower[0] == 'v' && lower[2] == 'r' && lower[3] == '2';
      assert lower[1] == '3' || lower[1] == '4';
    }
    if |version| == 4 && version[0] in "vV" && version[1] in "34" && version[2] in "rR" && version[3] == '2' {
      assert lower == ['v', version[1], 'r', '2'];
      if version[1] == '3' {
        assert lower == "v3r2";
      } else {
        assert lower == "v4r2";
      }
    }
  }

  /** The three error messages differ, so a caller can tell which check failed. */
  lemma ErrorMessagesDistinct(version: string)
    ensures UnsupportedVersionMessage(version) != WorkchainMessage
    ensures UnsupportedVersionMessage(version) != SubwalletMessage
    ensures WorkchainMessage != SubwalletMessage
  {
    SupportedVersionsText();
    assert |UnsupportedVersionMessage(version)| >= 60;
    assert |WorkchainMessage| == 51 && |SubwalletMessage| == 43;
  }

  /** Upper-case and mixed spellings of a supported version pass. */
  lemma AcceptedExamples()
    ensures ValidateInputs("V4R2", Int(0), Null) == Pass
    ensures ValidateInputs("v3r2", Int(-1), Int(0)) == Pass
    ensures ValidateInputs("V3r2", Int(0), Int(42)) == Pass
  {
    assert Text.ToLowerCase("V4R2") == "v4r2";
    assert Text.ToLowerCase("v3r2") == "v3r2";
    assert Text.ToLowerCase("V3r2") == "v3r2";
  }

  /** `v1` fails with the message that names it and lists the supported
      versions, whatever the other arguments are. */
  lemma UnsupportedVersionExample(workchain: JsArg, subwalletId: JsArg)
    ensures ValidateInputs("v1", workchain, subwalletId) ==
      Fail("Unsupported wallet version: v1. Supported versions: v3r2, v4r2")
  {
    assert |Text.ToLowerCase("v1")| == 2;
    assert "Unsupported wallet version: " + "v1" + ". Supported versions: v3r2, v4r2" ==
      "Unsupported wallet version: v1. Supported versions: v3r2, v4r2";
  }

  /** A bad workchain or subwallet ID with a good version fails with the
      matching message. */
  lemma RejectedArgumentExamples()
    ensures ValidateInputs("v4r2", Int(5), Null) == Fail(WorkchainMessage)
    ensures ValidateInputs("v4r2", Null, Null) == Fail(WorkchainMessage)
    ensures ValidateInputs("v4r2", Int(0), Int(-3)) == Fail(SubwalletMessage)
    ensures ValidateInputs("v4r2", Int(0), Other) == Fail(SubwalletMessage)
    ensures ValidateInputs("v4r2", Int(0), Undefined) == Fail(SubwalletMessage)
  {
    assert Text.ToLowerCase("v4r2") == "v4r2";
  }
}
