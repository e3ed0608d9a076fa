/**
 * PackageManagerImplementation: the download queue with its monotone
 * ids and single in-progress slot, pause/resume/cancel/delete against
 * that slot, the retry loop of the downloader thread with the reason it
 * reports, and the per-package lock counts.
 *
 * The HTTP client, the file system and the package library are inputs;
 * the commands sent to the HTTP client and the status notifications are
 * recorded in order. The build with the package library is modelled.
 */
module PackageManager {
  import opened Core
  import opened Text

  /** `HttpClient::Status`. */
  datatype Status = Success | DiskError | HttpError

  /** `DownloadReason`. */
  datatype DownloadReason = NONE | DOWNLOAD_FAILURE | DISK_PERSISTENCE_FAILURE

  /** A queued download; `num` is the counter value its id is rendered from. */
  datatype DownloadInfo = DownloadInfo(
    url: string, num: nat, retries: int, rateLimit: int, fileLocator: string, cancelled: bool)
  {
    function Id(): string { NatToString(num) }
  }

  datatype ClientCommand = Pause | Resume | Cancel

  /** `mNextDownloadId` starts here; the first id handed out is "1001". */
  const FIRST_DOWNLOAD_COUNTER := 1000

  /** The file a download is written to. */
  function FileLocatorFor(downloadDir: string, id: string): (r: string)
    ensures r == downloadDir + "package" + id
    ensures r[|downloadDir| + 7..] == id
  {
    downloadDir + "package" + id
  }

  // ----- The retry loop of `downloader` -----

  /** Where the retry loop stops: the last status and HTTP code, and how many downloads ran. */
  datatype Outcome = Outcome(status: Status, code: int, attempts: nat)

  /** The loop stops after a success or a 404. */
  predicate Final(s: Status, code: int)
  {
    s == Success || code == 404
  }

  /**
   * The loop from retry `i`: `attempt(i)` is what the `i`th download
   * returns (status and HTTP code); `cancelledBy(i)` is whether the
   * download was cancelled by the time retry `i` starts.
   */
  function Run(i: nat, retries: int, attempt: nat -> (Status, int), cancelledBy: nat -> bool,
               status: Status, code: int): (r: Outcome)
    ensures i <= r.attempts
    ensures i < retries ==> r.attempts <= retries
    ensures i >= retries ==> r == Outcome(status, code, i)
    decreases retries - i
  {
    if i >= retries then Outcome(status, code, i)
    else if i > 0 && cancelledBy(i) then Outcome(status, code, i)
    else
      var (s, c) := attempt(i);
      if Final(s, c) then Outcome(s, c, i + 1)
      else Run(i + 1, retries, attempt, cancelledBy, s, c)
  }

  /** The loop only ends early on a success or 404 of the last download, or on a cancellation. */
  lemma {:induction false} RunStopsForAReason(i: nat, retries: int, attempt: nat -> (Status, int),
                                              cancelledBy: nat -> bool, status: Status, code: int)
    requires i < retries
    ensures var r := Run(i, retries, attempt, cancelledBy, status, code);
      r.attempts < retries ==>
        (r.attempts > i && Final(attempt(r.attempts - 1).0, attempt(r.attempts - 1).1))
        || (r.attempts > 0 && cancelledBy(r.attempts))
    ensures var r := Run(i, retries, attempt, cancelledBy, status, code);
      forall j :: i <= j < r.attempts - 1 ==> !Final(attempt(j).0, attempt(j).1)
    decreases retries - i
  {
    if !(i > 0 && cancelledBy(i)) {
      var (s, c) := attempt(i);
      if !Final(s, c) && i + 1 < retries {
        RunStopsForAReason(i + 1, retries, attempt, cancelledBy, s, c);
      }
    }
  }

  /** The outcome reports the last download that ran. */
  lemma {:induction false} RunReportsLastAttempt(i: nat, retries: int, attempt: nat -> (Status, int),
                                                 cancelledBy: nat -> bool, status: Status, code: int)
    ensures var r := Run(i, retries, attempt, cancelledBy, status, code);
      r.attempts > i ==> (r.status, r.code) == attempt(r.attempts - 1)
    decreases retries - i
  {
    if i < retries && !(i > 0 && cancelledBy(i)) {
      var (s, c) := attempt(i);
      if !Final(s, c) {
        RunReportsLastAttempt(i + 1, retries, attempt, cancelledBy, s, c);
      }
    }
  }

  /** A 404 is a download failure whatever the status; otherwise the status decides. */
  function ReasonOf(status: Status, code: int): (r: DownloadReason)
    ensures code == 404 ==> r == DOWNLOAD_FAILURE
    ensures code != 404 ==> (r == NONE <==> status == Success)
    ensures code != 404 ==> (r == DISK_PERSISTENCE_FAILURE <==> status == DiskError)
  {
    var s := if code == 404 then HttpError else status;
    match s
    case DiskError => DISK_PERSISTENCE_FAILURE
    case HttpError => DOWNLOAD_FAILURE
    case Success => NONE
  }

  /**
   * The retry loop, with `codeBefore` the HTTP code the client holds from
   * its previous download. The back-off sleep is not modelled.
   */
  method RetryDownload(retries: int, attempt: nat -> (Status, int), cancelledBy: nat -> bool, codeBefore: int)
    returns (status: Status, code: int, attempts: nat)
    ensures Outcome(status, code, attempts) == Run(0, retries, attempt, cancelledBy, Success, codeBefore)
  {
    status, code := Success, codeBefore;
    ghost var expected := Run(0, retries, attempt, cancelledBy, Success, codeBefore);
    var i: nat := 0;
    while i < retries
      invariant Run(i, retries, attempt, cancelledBy, status, code) == expected
      decreases retries - i
    {
      if i > 0 && cancelledBy(i) {
        break;
      }
      var (s, c) := attempt(i);
      status, code := s, c;
      i := i + 1;
      if s == Success || c == 404 {
        break;
      }
    }
    attempts := i;
  }

  // ----- Lock counts -----

  /**
   * `Lock` as written: `lockedInfo` is the lock state `GetLockedInfo`
   * reports, `None` when that call fails; `libLock` is whether the
   * library lock succeeds. Result code and the new count, if any.
   */
  function LockAsWritten(count: nat, lockedInfo: Option<bool>, libLock: bool): (r: (HResult, Option<nat>))
    ensures r.1.Some? ==> r.1.value == count + 1 && r.0 == ERROR_NONE
    ensures r.0 == ERROR_GENERAL <==> lockedInfo == Some(false) && !libLock
  {
    match lockedInfo
    case None => (ERROR_NONE, None)
    case Some(locked) =>
      if locked || libLock then (ERROR_NONE, Some(count + 1)) else (ERROR_GENERAL, None)
  }

  /** When `GetLockedInfo` fails, `Lock` reports success without taking a lock or setting `lockId`. */
  lemma LockAsWrittenSucceedsWithoutLock(count: nat)
    ensures LockAsWritten(count, None, true) == (ERROR_NONE, None)
  {
  }

  /** `Lock` with the failure of `GetLockedInfo` reported. */
  function LockOutcome(count: nat, lockedInfo: Option<bool>, libLock: bool): (r: (HResult, Option<nat>))
    ensures r.0 == ERROR_NONE <==> r.1.Some?
    ensures r.1.Some? ==> r.1.value == count + 1
    ensures r.0 == ERROR_NONE <==> lockedInfo == Some(true) || (lockedInfo == Some(false) && libLock)
    ensures r.0 != ERROR_NONE ==> r.0 == ERROR_GENERAL
  {
    match lockedInfo
    case None => (ERROR_GENERAL, None)
    case Some(locked) =>
      if locked || libLock then (ERROR_NONE, Some(count + 1)) else (ERROR_GENERAL, None)
  }

  /** An unlock after a successful lock gives the count back. */
  lemma LockThenUnlock(count: nat, lockedInfo: Option<bool>, libLock: bool)
    requires LockOutcome(count, lockedInfo, libLock).0 == ERROR_NONE
    ensures LockOutcome(count, lockedInfo, libLock).1.value - 1 == count
  {
  }

  class PackageManagerImplementation {
    const downloadDir: string
    var nextDownloadId: nat
    /** `mDownloadQueue`, front first. */
    var queue: seq<DownloadInfo>
    /** `mInprogressDowload`. */
    var inProgress: Option<DownloadInfo>
    /** `mState`: lock counts of the known (package id, version) pairs. */
    var lockCounts: map<(string, string), nat>
    var clientCommands: seq<ClientCommand>
    /** `NotifyDownloadStatus(id, locator, reason)` calls. */
    var downloadStatus: seq<(string, string, DownloadReason)>

    /** Every known download has its own counter value, handed out already. */
    ghost predicate Valid()
      reads this
    {
      nextDownloadId >= FIRST_DOWNLOAD_COUNTER
      && (forall i :: 0 <= i < |queue| ==> FIRST_DOWNLOAD_COUNTER < queue[i].num <= nextDownloadId)
      && (forall i, j :: 0 <= i < j < |queue| ==> queue[i].num != queue[j].num)
      && (inProgress.Some? ==> FIRST_DOWNLOAD_COUNTER < inProgress.value.num <= nextDownloadId
                               && forall i :: 0 <= i < |queue| ==> queue[i].num != inProgress.value.num)
    }

    constructor(downloadDir: string, lockCounts: map<(string, string), nat>)
      ensures Valid()
      ensures this.downloadDir == downloadDir && this.lockCounts == lockCounts
      ensures nextDownloadId == FIRST_DOWNLOAD_COUNTER && queue == [] && inProgress.None?
      ensures clientCommands == [] && downloadStatus == []
    {
      this.downloadDir := downloadDir;
      this.lockCounts := lockCounts;
      nextDownloadId := FIRST_DOWNLOAD_COUNTER;
      queue, inProgress := [], None;
      clientCommands, downloadStatus := [], [];
    }

    method Download(url: string, priority: bool, retries: int, rateLimit: int) returns (r: HResult, downloadId: string)
      requires Valid()
      modifies this
      ensures Valid() && r == ERROR_NONE
      ensures nextDownloadId == old(nextDownloadId) + 1 && downloadId == NatToString(nextDownloadId)
      ensures var di := DownloadInfo(url, nextDownloadId, retries, rateLimit, FileLocatorFor(downloadDir, downloadId), false);
        queue == (if priority then [di] + old(queue) else old(queue) + [di])
      ensures inProgress == old(inProgress) && lockCounts == old(lockCounts)
      ensures clientCommands == old(clientCommands) && downloadStatus == old(downloadStatus)
    {
      nextDownloadId := nextDownloadId + 1;
      var id := NatToString(nextDownloadId);
      var di := DownloadInfo(url, nextDownloadId, retries, rateLimit, downloadDir + "package" + id, false);
      if priority {
        queue := [di] + queue;
      } else {
        queue := queue + [di];
      }
      return ERROR_NONE, di.Id();
    }

    method GetNext() returns (di: Option<DownloadInfo>)
      requires Valid()
      modifies this
      ensures Valid() && di == inProgress
      ensures old(queue) != [] && old(inProgress).None? ==> inProgress == Some(old(queue)[0]) && queue == old(queue)[1..]
      ensures !(old(queue) != [] && old(inProgress).None?) ==> inProgress == old(inProgress) && queue == old(queue)
      ensures nextDownloadId == old(nextDownloadId) && lockCounts == old(lockCounts)
      ensures clientCommands == old(clientCommands) && downloadStatus == old(downloadStatus)
    {
      if queue != [] && inProgress.None? {
        inProgress := Some(queue[0]);
        queue := queue[1..];
      }
      return inProgress;
    }

    /** The check shared by Pause, Resume and Cancel. */
    function SlotCheck(downloadId: string): (r: HResult)
      reads this
      ensures inProgress.None? ==> r == ERROR_GENERAL
      ensures inProgress.Some? ==> (r == ERROR_NONE <==> downloadId == inProgress.value.Id())
      ensures r == ERROR_NONE || r == ERROR_GENERAL || r == ERROR_UNKNOWN_KEY
    {
      if inProgress.None? then ERROR_GENERAL
      else if downloadId == inProgress.value.Id() then ERROR_NONE
      else ERROR_UNKNOWN_KEY
    }

    method PauseDownload(downloadId: string) returns (r: HResult)
      modifies this
      ensures r == SlotCheck(downloadId)
      ensures clientCommands == old(clientCommands) + (if r == ERROR_NONE then [Pause] else [])
      ensures queue == old(queue) && inProgress == old(inProgress) && nextDownloadId == old(nextDownloadId)
      ensures lockCounts == old(lockCounts) && downloadStatus == old(downloadStatus)
    {
      r := SlotCheck(downloadId);
      if r == ERROR_NONE {
        clientCommands := clientCommands + [Pause];
      }
    }

    method ResumeDownload(downloadId: string) returns (r: HResult)
      modifies this
      ensures r == SlotCheck(downloadId)
      ensures clientCommands == old(clientCommands) + (if r == ERROR_NONE then [Resume] else [])
      ensures queue == old(queue) && inProgress == old(inProgress) && nextDownloadId == old(nextDownloadId)
      ensures lockCounts == old(lockCounts) && downloadStatus == old(downloadStatus)
    {
      r := SlotCheck(downloadId);
      if r == ERROR_NONE {
        clientCommands := clientCommands + [Resume];
      }
    }

    /** Cancel marks the in-progress download cancelled and stops the client. */
    method CancelDownload(downloadId: string) returns (r: HResult)
      requires Valid()
      modifies this
      ensures Valid() && r == old(SlotCheck(downloadId))
      ensures r == ERROR_NONE ==> inProgress == Some(old(inProgress).value.(cancelled := true))
                                  && clientCommands == old(clientCommands) + [Cancel]
      ensures r != ERROR_NONE ==> inProgress == old(inProgress) && clientCommands == old(clientCommands)
      ensures queue == old(queue) && nextDownloadId == old(nextDownloadId)
      ensures lockCounts == old(lockCounts) && downloadStatus == old(downloadStatus)
    {
      r := SlotCheck(downloadId);
      if r == ERROR_NONE {
        inProgress := Some(inProgress.value.(cancelled := true));
        clientCommands := clientCommands + [Cancel];
      }
    }

    /** `removed` is whether `remove(fileLocator)` succeeds. */
    method Delete(fileLocator: string, removed: bool) returns (r: HResult)
      ensures inProgress.Some? && fileLocator == inProgress.value.fileLocator ==> r == ERROR_GENERAL
      ensures !(inProgress.Some? && fileLocator == inProgress.value.fileLocator) ==> (r == ERROR_NONE <==> removed)
      ensures r == ERROR_NONE || r == ERROR_GENERAL
    {
      if inProgress.Some? && fileLocator == inProgress.value.fileLocator {
        return ERROR_GENERAL;
      }
      r := if removed then ERROR_NONE else ERROR_GENERAL;
    }

    /**
     * One turn of the downloader thread: take the next download, run the
     * retry loop, report its reason and free the slot. With nothing to do
     * the thread waits and nothing changes.
     */
    method DownloaderStep(attempt: nat -> (Status, int), cancelledBy: nat -> bool, codeBefore: int)
      requires Valid()
      modifies this
      ensures Valid()
      ensures old(queue) == [] && old(inProgress).None? ==>
        queue == old(queue) && inProgress.None? && downloadStatus == old(downloadStatus)
      ensures old(inProgress).None? && old(queue) != [] ==>
        var di := old(queue)[0];
        var o := Run(0, di.retries, attempt, (i: nat) => di.cancelled || cancelledBy(i), Success, codeBefore);
        queue == old(queue)[1..] && inProgress.None?
        && downloadStatus == old(downloadStatus) + [(di.Id(), di.fileLocator, ReasonOf(o.status, o.code))]
      ensures old(inProgress).Some? ==>
        var di := old(inProgress).value;
        var o := Run(0, di.retries, attempt, (i: nat) => di.cancelled || cancelledBy(i), Success, codeBefore);
        queue == old(queue) && inProgress.None?
        && downloadStatus == old(downloadStatus) + [(di.Id(), di.fileLocator, ReasonOf(o.status, o.code))]
      ensures nextDownloadId == old(nextDownloadId) && lockCounts == old(lockCounts)
      ensures clientCommands == old(clientCommands)
    {
      var next := GetNext();
      if next.Some? {
        var di := next.value;
        var status, code, attempts := RetryDownload(di.retries, attempt, (i: nat) => di.cancelled || cancelledBy(i), codeBefore);
        downloadStatus := downloadStatus + [(di.Id(), di.fileLocator, ReasonOf(status, code))];
        inProgress := None;
      }
    }

    /** `Lock` as the source writes it; see the corrected `Lock`. */
    method LockAsWrittenMethod(packageId: string, version: string, lockedInfo: Option<bool>, libLock: bool,
                               lockIdIn: nat) returns (r: HResult, lockId: nat)
      modifies this
      ensures (packageId, version) !in old(lockCounts) ==> r == ERROR_BAD_REQUEST && lockId == lockIdIn && lockCounts == old(lockCounts)
      ensures (packageId, version) in old(lockCounts) ==>
        var o := LockAsWritten(old(lockCounts)[(packageId, version)], lockedInfo, libLock);
        r == o.0 && lockId == o.1.GetOr(lockIdIn)
        && lockCounts == (if o.1.Some? then old(lockCounts)[(packageId, version) := o.1.value] else old(lockCounts))
      ensures queue == old(queue) && inProgress == old(inProgress) && nextDownloadId == old(nextDownloadId)
      ensures clientCommands == old(clientCommands) && downloadStatus == old(downloadStatus)
    {
      var key := (packageId, version);
      if key !in lockCounts {
        return ERROR_BAD_REQUEST, lockIdIn;
      }
      r, lockId := ERROR_NONE, lockIdIn;
      if lockedInfo.Some? {
        if lockedInfo.value || libLock {
          lockCounts := lockCounts[key := lockCounts[key] + 1];
          lockId := lockCounts[key];
        } else {
          r := ERROR_GENERAL;
        }
      }
    }

    /** `Lock`, with a failed `GetLockedInfo` reported as ERROR_GENERAL. */
    method Lock(packageId: string, version: string, lockedInfo: Option<bool>, libLock: bool,
                lockIdIn: nat) returns (r: HResult, lockId: nat)
      modifies this
      ensures (packageId, version) !in old(lockCounts) ==> r == ERROR_BAD_REQUEST && lockId == lockIdIn && lockCounts == old(lockCounts)
      ensures (packageId, version) in old(lockCounts) ==>
        var o := LockOutcome(old(lockCounts)[(packageId, version)], lockedInfo, libLock);
        r == o.0 && lockId == o.1.GetOr(lockIdIn)
        && lockCounts == (if o.1.Some? then old(lockCounts)[(packageId, version) := o.1.value] else old(lockCounts))
      ensures queue == old(queue) && inProgress == old(inProgress) && nextDownloadId == old(nextDownloadId)
      ensures clientCommands == old(clientCommands) && downloadStatus == old(downloadStatus)
    {
      var key := (packageId, version);
      if key !in lockCounts {
        return ERROR_BAD_REQUEST, lockIdIn;
      }
      r, lockId := ERROR_NONE, lockIdIn;
      if lockedInfo.Some? {
        if lockedInfo.value || libLock {
          lockCounts := lockCounts[key := lockCounts[key] + 1];
          lockId := lockCounts[key];
        } else {
          r := ERROR_GENERAL;
        }
      } else {
        r := ERROR_GENERAL;
      }
    }

    /** `libUnlock` is whether the library unlock succeeds; the count drops either way. */
    method Unlock(packageId: string, version: string, libUnlock: bool) returns (r: HResult)
      modifies this
      ensures (packageId, version) !in old(lockCounts) ==> r == ERROR_BAD_REQUEST && lockCounts == old(lockCounts)
      ensures (packageId, version) in old(lockCounts) && old(lockCounts)[(packageId, version)] == 0 ==>
        r == ERROR_NONE && lockCounts == old(lockCounts)
      ensures (packageId, version) in old(lockCounts) && old(lockCounts)[(packageId, version)] > 0 ==>
        lockCounts == old(lockCounts)[(packageId, version) := old(lockCounts)[(packageId, version)] - 1]
        && (r == ERROR_NONE <==> libUnlock) && (r != ERROR_NONE ==> r == ERROR_GENERAL)
      ensures queue == old(queue) && inProgress == old(inProgress) && nextDownloadId == old(nextDownloadId)
      ensures clientCommands == old(clientCommands) && downloadStatus == old(downloadStatus)
    {
      var key := (packageId, version);
      if key !in lockCounts {
        return ERROR_BAD_REQUEST;
      }
      r := ERROR_NONE;
      if lockCounts[key] > 0 {
        if !libUnlock {
          r := ERROR_GENERAL;
        }
        lockCounts := lockCounts[key := lockCounts[key] - 1];
      }
    }
  }

  /** Distinct counter values give distinct download ids. */
  lemma DownloadIdsDistinct(a: DownloadInfo, b: DownloadInfo)
    requires a.num != b.num
    ensures a.Id() != b.Id()
  {
    NatToStringInjective(a.num, b.num);
  }
}
