/** Validation of the `openrasp.*` ini settings that remote management needs
    (`OpenraspAgentManager::verify_ini_correct`). */
module Ini {
  import opened Common

  /** The ini settings the agent manager reads. A `None` is a setting left unset
      (a null `char *` in the extension's globals). */
  datatype Settings = Settings(
    remoteManagementEnable: bool,
    backendUrl: Option<string>,
    appId: Option<string>,
    pluginUpdateEnable: bool,
    rootDir: string)

  /** The three configuration errors, each reported with its own warning. */
  datatype IniError = BackendUrlMissing | AppIdMissing | AppIdMalformed

  datatype IniCheck = Correct | Incorrect(error: IniError)

  predicate IsHexDigit(c: char) {
    '0' <= c <= '9' || 'a' <= c <= 'f' || 'A' <= c <= 'F'
  }

  /** Stands for `regex_match(app_id, "^[0-9a-fA-F]{40}$")`: the whole string is
      exactly forty hexadecimal digits. */
  predicate IsAppId(s: string) {
    |s| == 40 && forall i :: 0 <= i < |s| ==> IsHexDigit(s[i])
  }

  /** The checks run in the source's order; `needShm` is the result of
      `check_sapi_need_alloc_shm()` for the running SAPI. */
  function VerifyIniCorrect(ini: Settings, needShm: bool): (r: IniCheck)
    // Nothing is demanded unless remote management is on and shared memory is used.
    ensures !(ini.remoteManagementEnable && needShm) ==> r == Correct
    // Otherwise the settings are correct exactly when both are set and the app id is well formed.
    ensures r == Correct <==>
      (!(ini.remoteManagementEnable && needShm) ||
       (ini.backendUrl.Some? && ini.appId.Some? && IsAppId(ini.appId.value)))
    // A missing backend URL is reported before anything about the app id.
    ensures r == Incorrect(BackendUrlMissing) <==>
      ini.remoteManagementEnable && needShm && ini.backendUrl.None?
    ensures r == Incorrect(AppIdMissing) <==>
      ini.remoteManagementEnable && needShm && ini.backendUrl.Some? && ini.appId.None?
    ensures r == Incorrect(AppIdMalformed) <==>
      ini.remoteManagementEnable && needShm && ini.backendUrl.Some? && ini.appId.Some? &&
      !IsAppId(ini.appId.value)
  {
    if ini.remoteManagementEnable && needShm then
      if ini.backendUrl.None? then Incorrect(BackendUrlMissing)
      else if ini.appId.None? then Incorrect(AppIdMissing)
      else if !IsAppId(ini.appId.value) then Incorrect(AppIdMalformed)
      else Correct
    else
      Correct
  }

  /** An app id that is forty characters long but holds one non-hex character is refused:
      length alone is not enough, although the warning speaks only of length. */
  lemma NonHexAppIdRefused(ini: Settings, k: nat)
    requires ini.remoteManagementEnable && ini.backendUrl.Some? && ini.appId.Some?
    requires |ini.appId.value| == 40 && k < 40 && !IsHexDigit(ini.appId.value[k])
    ensures VerifyIniCorrect(ini, true) == Incorrect(AppIdMalformed)
  {
  }
}
