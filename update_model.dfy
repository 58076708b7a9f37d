/**
 * The update model: the state of the update process ("idle", "checking",
 * "available", "downloading", "ready_to_install", "installing", "error")
 * and what is known about the latest release. The state is a free string,
 * as `set_state` accepts any.
 */
module UpdateState {

  /** `get_update_info`: every field of the model. */
  datatype UpdateInfo = UpdateInfo(
    state: string,
    currentVersion: string,
    latestVersion: string,
    releaseNotes: string,
    downloadUrl: string,
    installerPath: string,
    downloadSize: int,
    errorMessage: string)

  const IDLE := "idle"
  const CHECKING := "checking"
  const AVAILABLE := "available"
  const DOWNLOADING := "downloading"
  const READY_TO_INSTALL := "ready_to_install"
  const ERROR := "error"

  /** The state a new model starts in. */
  const INITIAL := UpdateInfo(IDLE, "", "", "", "", "", 0, "")

  /** `set_error`. */
  function Errored(u: UpdateInfo, message: string): (r: UpdateInfo)
    ensures r.state == ERROR && r.errorMessage == message
  {
    u.(errorMessage := message, state := ERROR)
  }

  /** `clear_error`. */
  function Cleared(u: UpdateInfo): (r: UpdateInfo)
    ensures r.errorMessage == ""
    ensures u.state == ERROR ==> r.state == IDLE
    ensures u.state != ERROR ==> r.state == u.state
  {
    u.(errorMessage := "", state := if u.state == ERROR then IDLE else u.state)
  }

  /** `reset`. */
  function ResetInfo(u: UpdateInfo): (r: UpdateInfo)
    ensures r == INITIAL.(currentVersion := u.currentVersion)
  {
    UpdateInfo(IDLE, u.currentVersion, "", "", "", "", 0, "")
  }

  /** `set_release_info`. */
  function WithRelease(u: UpdateInfo, version: string, notes: string, url: string, size: int): (r: UpdateInfo)
    ensures r.latestVersion == version && r.releaseNotes == notes && r.downloadUrl == url && r.downloadSize == size
    ensures r.(latestVersion := u.latestVersion, releaseNotes := u.releaseNotes,
               downloadUrl := u.downloadUrl, downloadSize := u.downloadSize) == u
  {
    u.(latestVersion := version, releaseNotes := notes, downloadUrl := url, downloadSize := size)
  }

  /** Clearing an error always leaves a state other than "error". */
  lemma ClearedNeverError(u: UpdateInfo)
    ensures Cleared(u).state != ERROR
  {
  }

  /** An error followed by clearing it returns to "idle" with everything
      else as it was. */
  lemma ErrorThenClear(u: UpdateInfo, message: string)
    ensures Cleared(Errored(u, message)) == u.(state := IDLE, errorMessage := "")
  {
  }

  /** Resetting twice is resetting once, and a reset forgets any release. */
  lemma ResetIdempotent(u: UpdateInfo, version: string, notes: string, url: string, size: int)
    ensures ResetInfo(ResetInfo(u)) == ResetInfo(u)
    ensures ResetInfo(WithRelease(u, version, notes, url, size)) == ResetInfo(u)
  {
  }

  class UpdateModel {
    var state: string
    var currentVersion: string
    var latestVersion: string
    var releaseNotes: string
    var downloadUrl: string
    var installerPath: string
    var downloadSize: int
    var errorMessage: string

    function Info(): UpdateInfo
      reads this
    {
      UpdateInfo(state, currentVersion, latestVersion, releaseNotes, downloadUrl, installerPath, downloadSize, errorMessage)
    }

    constructor()
      ensures Info() == INITIAL
    {
      state := IDLE;
      currentVersion := "";
      latestVersion := "";
      releaseNotes := "";
      downloadUrl := "";
      installerPath := "";
      downloadSize := 0;
      errorMessage := "";
    }

    /** `set_state`. */
    method SetState(s: string)
      modifies this
      ensures Info() == old(Info()).(state := s)
    {
      if state != s {
        state := s;
      }
    }

    /** `is_checking`. */
    predicate IsChecking()
      reads this
    {
      state == CHECKING
    }

    /** `is_available`. */
    predicate IsAvailable()
      reads this
    {
      state == AVAILABLE
    }

    /** `is_downloading`. */
    predicate IsDownloading()
      reads this
    {
      state == DOWNLOADING
    }

    /** `is_ready_to_install`. */
    predicate IsReadyToInstall()
      reads this
    {
      state == READY_TO_INSTALL
    }

    /** `set_current_version`. */
    method SetCurrentVersion(version: string)
      modifies this
      ensures Info() == old(Info()).(currentVersion := version)
    {
      currentVersion := version;
    }

    /** `set_latest_version`. */
    method SetLatestVersion(version: string)
      modifies this
      ensures Info() == old(Info()).(latestVersion := version)
    {
      latestVersion := version;
    }

    /** `set_installer_path`. */
    method SetInstallerPath(path: string)
      modifies this
      ensures Info() == old(Info()).(installerPath := path)
    {
      installerPath := path;
    }

    /** `set_release_info`. */
    method SetReleaseInfo(version: string, notes: string, url: string, size: int)
      modifies this
      ensures Info() == WithRelease(old(Info()), version, notes, url, size)
    {
      latestVersion := version;
      releaseNotes := notes;
      downloadUrl := url;
      downloadSize := size;
    }

    /** `set_error`. */
    method SetError(message: string)
      modifies this
      ensures Info() == Errored(old(Info()), message)
      ensures state == ERROR
    {
      errorMessage := message;
      state := ERROR;
    }

    /** `clear_error`. */
    method ClearError()
      modifies this
      ensures Info() == Cleared(old(Info()))
    {
      errorMessage := "";
      if state == ERROR {
        state := IDLE;
      }
    }

    /** `reset`. */
    method Reset()
      modifies this
      ensures Info() == ResetInfo(old(Info()))
    {
      state := IDLE;
      latestVersion := "";
      releaseNotes := "";
      downloadUrl := "";
      installerPath := "";
      downloadSize := 0;
      errorMessage := "";
    }
  }

  /** Each state predicate holds in exactly its own state. */
  lemma StatePredicatesExclusive(m: UpdateModel)
    ensures m.IsChecking() ==> !m.IsAvailable() && !m.IsDownloading() && !m.IsReadyToInstall()
    ensures m.IsAvailable() ==> !m.IsDownloading() && !m.IsReadyToInstall()
    ensures m.IsDownloading() ==> !m.IsReadyToInstall()
  {
  }
}
