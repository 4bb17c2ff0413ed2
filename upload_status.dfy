/**
 * The upload status store of `src/lib/stores/upload-status.ts`: one record
 * describing the stage of the upload pipeline, its progress and the message
 * shown, replaced or updated by one operation per transition. The clock
 * reading `Date.now()` is a parameter of the operations that take it.
 */
module UploadStatusStore {
  import opened Wrappers
  import opened Decimal

  datatype UploadStage = Idle | Uploading | Processing | Saving | LoadingFont | Complete | Error

  /** The record the store holds; the last three fields are optional. */
  datatype UploadStatus = UploadStatus(
    stage: UploadStage,
    progress: int,
    message: string,
    error: Option<string>,
    fileSize: Option<nat>,
    startTime: Option<int>)

  const InitialState: UploadStatus := UploadStatus(Idle, 0, "", None, None, None)

  const UploadingMessage: string := "Uploading font..."
  const SavingMessage: string := "Saving to cloud..."

  /** The message that carries a progress value: the stage text, a space, the number and `%`. */
  function ProgressMessage(text: string, progress: int): string {
    text + " " + IntToString(progress) + "%"
  }

  /** Reads the progress value back out of a message written for `text`, if it is one. */
  function ReadProgress(text: string, message: string): Option<int> {
    var head := text + " ";
    if |head| + 1 <= |message| && message[..|head|] == head && message[|message| - 1] == '%'
    then ParseInt(message[|head|..|message| - 1])
    else None
  }

  /** The message of a progress update tells the progress value it was written for. */
  lemma ProgressMessageRoundTrip(text: string, progress: int)
    ensures ReadProgress(text, ProgressMessage(text, progress)) == Some(progress)
  {
    var m := ProgressMessage(text, progress);
    var head := text + " ";
    assert m == head + IntToString(progress) + "%";
    assert m[..|head|] == head;
    assert m[|head|..|m| - 1] == IntToString(progress);
    IntToStringRoundTrip(progress);
  }

  /**
   * What every reachable record satisfies: the error text is present
   * exactly in the error stage, and the file size and start time are
   * present together, exactly in the uploading and saving stages.
   */
  predicate WellFormed(s: UploadStatus) {
    (s.stage == Error <==> s.error.Some?)
    && (s.fileSize.Some? <==> s.startTime.Some?)
    && (s.stage == Uploading || s.stage == Saving <==> s.fileSize.Some?)
  }

  class StatusStore {
    var status: UploadStatus

    constructor ()
      ensures status == InitialState && WellFormed(status)
    {
      status := InitialState;
    }

    method StartUpload(fileSize: nat, now: int)
      modifies this
      ensures status == UploadStatus(Uploading, 0, UploadingMessage, None, Some(fileSize), Some(now))
      ensures WellFormed(status)
    {
      status := UploadStatus(Uploading, 0, UploadingMessage, None, Some(fileSize), Some(now));
    }

    /** Keeps the rest of the record, whatever its stage, and rewrites progress and message. */
    method UpdateUploadProgress(progress: int)
      modifies this
      ensures status == old(status).(progress := progress,
                                      message := ProgressMessage(UploadingMessage, progress))
      ensures ReadProgress(UploadingMessage, status.message) == Some(progress)
      ensures old(WellFormed(status)) ==> WellFormed(status)
    {
      status := status.(progress := progress, message := ProgressMessage(UploadingMessage, progress));
      ProgressMessageRoundTrip(UploadingMessage, progress);
    }

    method StartProcessing()
      modifies this
      ensures status == UploadStatus(Processing, 0, "Processing font...", None, None, None)
      ensures WellFormed(status)
    {
      status := UploadStatus(Processing, 0, "Processing font...", None, None, None);
    }

    method StartSaving(fileSize: nat, now: int)
      modifies this
      ensures status == UploadStatus(Saving, 0, SavingMessage, None, Some(fileSize), Some(now))
      ensures WellFormed(status)
    {
      status := UploadStatus(Saving, 0, SavingMessage, None, Some(fileSize), Some(now));
    }

    /** Keeps the rest of the record, whatever its stage, and rewrites progress and message. */
    method UpdateSavingProgress(progress: int)
      modifies this
      ensures status == old(status).(progress := progress,
                                      message := ProgressMessage(SavingMessage, progress))
      ensures ReadProgress(SavingMessage, status.message) == Some(progress)
      ensures old(WellFormed(status)) ==> WellFormed(status)
    {
      status := status.(progress := progress, message := ProgressMessage(SavingMessage, progress));
      ProgressMessageRoundTrip(SavingMessage, progress);
    }

    method StartLoadingFont()
      modifies this
      ensures status == UploadStatus(LoadingFont, 0, "Loading font preview...", None, None, None)
      ensures WellFormed(status)
    {
      status := UploadStatus(LoadingFont, 0, "Loading font preview...", None, None, None);
    }

    method Complete()
      modifies this
      ensures status == UploadStatus(UploadStage.Complete, 100, "Font ready!", None, None, None)
      ensures WellFormed(status)
    {
      status := UploadStatus(UploadStage.Complete, 100, "Font ready!", None, None, None);
    }

    /** `error`: the shown message is fixed; the cause is kept in the error field. */
    method Fail(errorMessage: string)
      modifies this
      ensures status == UploadStatus(Error, 0, "Upload failed", Some(errorMessage), None, None)
      ensures WellFormed(status)
    {
      status := UploadStatus(Error, 0, "Upload failed", Some(errorMessage), None, None);
    }

    method Reset()
      modifies this
      ensures status == InitialState && WellFormed(status)
    {
      status := InitialState;
    }
  }
}
