/**
 * The license decisions of licenseManager.js: the local signature check on
 * launch and the outcome of an activation request. `signData` is an HMAC
 * keyed by the LICENSE_SECRET environment variable; the HMAC itself, the
 * machine id and the HTTP exchange are inputs. The license file is a value
 * that each operation hands back in its new state.
 */
module LicenseManager {
  import opened Js

  /** The four fields read from (or written to) license.json; None when missing. */
  datatype LicenseData = LicenseData(
    licenseKey: Option<string>, organization: Option<string>,
    deviceFingerprint: Option<string>, signature: Option<string>)

  /** license.json: absent, present but not readable as JSON (with the error), or parsed. */
  datatype LicenseFile = Absent | Unreadable(error: string) | Present(data: LicenseData)

  /** `{ valid, message }` */
  datatype CheckResult = CheckResult(valid: bool, message: string)

  /** The text `signData` signs: `${licenseKey}|${organization}|${deviceFingerprint}`. */
  function Payload(licenseKey: string, organization: string, deviceFingerprint: string): string
  {
    licenseKey + "|" + organization + "|" + deviceFingerprint
  }

  /**
   * `signData(...)`: None where it throws (no LICENSE_SECRET), otherwise
   * `hmac(secret, payload)` as hex.
   */
  function SignData(secret: Option<string>, hmac: (string, string) -> string,
                    licenseKey: string, organization: string, deviceFingerprint: string): (r: Option<string>)
    ensures r.Some? <==> Truthy(secret)
  {
    if Truthy(secret) then Some(hmac(secret.value, Payload(licenseKey, organization, deviceFingerprint)))
    else None
  }

  /** `verifySignature(...)`: equality with the expected signature, false when signing throws. */
  function VerifySignature(secret: Option<string>, hmac: (string, string) -> string,
                           licenseKey: string, organization: string, deviceFingerprint: string,
                           signature: string): (r: bool)
    ensures r <==> SignData(secret, hmac, licenseKey, organization, deviceFingerprint) == Some(signature)
    ensures !Truthy(secret) ==> !r
  {
    var expected := SignData(secret, hmac, licenseKey, organization, deviceFingerprint);
    expected.Some? && expected.value == signature
  }

  /** All four fields are present and non-empty. */
  predicate FieldsPresent(d: LicenseData)
  {
    Truthy(d.licenseKey) && Truthy(d.organization) && Truthy(d.deviceFingerprint) && Truthy(d.signature)
  }

  /** The license file carries a signature that `signData` reproduces. */
  predicate Genuine(file: LicenseFile, secret: Option<string>, hmac: (string, string) -> string)
  {
    && file.Present?
    && FieldsPresent(file.data)
    && SignData(secret, hmac, file.data.licenseKey.value, file.data.organization.value,
                file.data.deviceFingerprint.value) == file.data.signature
  }

  /**
   * `checkLicense(licenseFilePath)`: the result, and license.json afterwards.
   * Every failure other than a missing file removes the file.
   */
  function CheckLicense(file: LicenseFile, secret: Option<string>, hmac: (string, string) -> string)
    : (r: (CheckResult, LicenseFile))
    ensures r.0.valid <==> Genuine(file, secret, hmac)
    ensures r.1 == if r.0.valid then file else Absent
    ensures file.Absent? ==> r.0.message == "No license found"
    ensures file.Unreadable? ==> r.0.message == file.error
    ensures file.Present? && !FieldsPresent(file.data) ==> r.0.message == "Invalid license file"
    ensures file.Present? && FieldsPresent(file.data) && !r.0.valid ==> r.0.message == "Invalid license signature"
  {
    match file
    case Absent => (CheckResult(false, "No license found"), Absent)
    case Unreadable(error) => (CheckResult(false, error), Absent)
    case Present(d) =>
      if !FieldsPresent(d) then (CheckResult(false, "Invalid license file"), Absent)
      else if VerifySignature(secret, hmac, d.licenseKey.value, d.organization.value,
                              d.deviceFingerprint.value, d.signature.value)
      then (CheckResult(true, "License valid"), file)
      else (CheckResult(false, "Invalid license signature"), Absent)
  }

  /** A failed check leaves no file, so the next launch reports that there is none. */
  lemma FailedCheckForgets(file: LicenseFile, secret: Option<string>, hmac: (string, string) -> string)
    requires !CheckLicense(file, secret, hmac).0.valid
    ensures CheckLicense(CheckLicense(file, secret, hmac).1, secret, hmac).0 == CheckResult(false, "No license found")
  {
  }

  /** A passing check keeps the file, so checking again gives the same answer. */
  lemma PassedCheckStable(file: LicenseFile, secret: Option<string>, hmac: (string, string) -> string)
    requires CheckLicense(file, secret, hmac).0.valid
    ensures CheckLicense(CheckLicense(file, secret, hmac).1, secret, hmac) == CheckLicense(file, secret, hmac)
  {
  }

  // ---------------------------------------------------------------------
  // activateLicense
  // ---------------------------------------------------------------------

  /** What an axios error carries: `err.code`, `err.message`, `err.response?.data?.message`. */
  datatype ErrorInfo = ErrorInfo(code: Option<string>, message: string, serverMessage: Option<string>)

  /**
   * How the POST to `/activate` ends: a response with `data.status`,
   * `data.signature` and `data.message`, or a thrown error.
   */
  datatype PostOutcome =
    | Response(status: Option<string>, signature: Option<string>, message: Option<string>)
    | Failed(err: ErrorInfo)

  /** The object `activateLicense` resolves to. */
  datatype Activation = Activation(success: bool, status: Option<string>, message: Option<string>,
                                   data: Option<LicenseData>)

  const NetworkMessage: string :=
    "\U{274C} Cannot reach server to activate. Please check your network or try again later."

  /** The first test of the catch block: a refused or unknown host, or a network/timeout message. */
  predicate IsNetworkError(err: ErrorInfo)
  {
    || err.code == Some("ECONNREFUSED")
    || err.code == Some("ENOTFOUND")
    || Contains(err.message, "Network Error")
    || Contains(err.message, "timeout")
  }

  /** The catch block of `activateLicense`. */
  function Classify(err: ErrorInfo): (r: Activation)
    ensures !r.success && r.status.None? && r.data.None?
    ensures IsNetworkError(err) ==> r.message == Some(NetworkMessage)
    ensures !IsNetworkError(err) && Truthy(err.serverMessage) ==> r.message == err.serverMessage
    ensures !IsNetworkError(err) && !Truthy(err.serverMessage) ==> r.message == Some(err.message)
  {
    if IsNetworkError(err) then Activation(false, None, Some(NetworkMessage), None)
    else if Truthy(err.serverMessage) then Activation(false, None, err.serverMessage, None)
    else Activation(false, None, Some(err.message), None)
  }

  /**
   * `activateLicense(licenseKey, organization, licenseFilePath)`: the result
   * and license.json afterwards. `fingerprint` is the machine id; `writeError`
   * is the error writing the file throws, if it does.
   */
  function ActivateLicense(licenseKey: string, organization: string, fingerprint: string,
                           post: PostOutcome, writeError: Option<ErrorInfo>, file: LicenseFile)
    : (r: (Activation, LicenseFile))
    ensures post.Response? && post.status == Some("approved") && writeError.None? ==>
      var d := LicenseData(Some(licenseKey), Some(organization), Some(fingerprint), post.signature);
      && r.0 == Activation(true, Some("approved"), Some("Activated"), Some(d))
      && r.1 == Present(d)
    ensures post.Response? && post.status != Some("approved") ==>
      r.0 == Activation(false, post.status, post.message, None) && r.1 == file
    ensures post.Failed? ==> r.0 == Classify(post.err) && r.1 == file
    ensures post.Response? && post.status == Some("approved") && writeError.Some? ==>
      r.0 == Classify(writeError.value) && r.1 == file
    ensures r.0.success <==> post.Response? && post.status == Some("approved") && writeError.None?
    ensures !r.0.success ==> r.1 == file
  {
    match post
    case Failed(err) => (Classify(err), file)
    case Response(status, signature, message) =>
      if status == Some("approved") then
        var d := LicenseData(Some(licenseKey), Some(organization), Some(fingerprint), signature);
        if writeError.Some? then (Classify(writeError.value), file)
        else (Activation(true, Some("approved"), Some("Activated"), Some(d)), Present(d))
      else (Activation(false, status, message, None), file)
  }

  /**
   * An approved activation whose signature is the one `signData` computes
   * for the same key, organisation and machine, with the same secret,
   * passes the next launch's check.
   */
  lemma ActivatedLicenseChecks(licenseKey: string, organization: string, fingerprint: string,
                               post: PostOutcome, file: LicenseFile,
                               secret: Option<string>, hmac: (string, string) -> string)
    requires licenseKey != "" && organization != "" && fingerprint != ""
    requires post.Response? && post.status == Some("approved")
    requires post.signature == SignData(secret, hmac, licenseKey, organization, fingerprint)
    requires Truthy(post.signature)
    ensures var written := ActivateLicense(licenseKey, organization, fingerprint, post, None, file).1;
      CheckLicense(written, secret, hmac) == (CheckResult(true, "License valid"), written)
  {
    var written := ActivateLicense(licenseKey, organization, fingerprint, post, None, file).1;
    assert written.Present? && FieldsPresent(written.data);
  }

  /** Without a working secret no license file ever checks valid. */
  lemma NoSecretNoLicense(file: LicenseFile, secret: Option<string>, hmac: (string, string) -> string)
    requires !Truthy(secret)
    ensures !CheckLicense(file, secret, hmac).0.valid
    ensures CheckLicense(file, secret, hmac).1 == Absent
  {
  }
}
