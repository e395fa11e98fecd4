/**
 * How the pieces fit together: the S3 key layout the three backend lambdas
 * share, and the customer details form's save against the patients route.
 */
module Pipeline {
  import opened Values
  import AudioUpload
  import TranscribeAudio
  import TranscriptionProcessing
  import CustomerDetailsForm
  import PatientsApi

  /**
   * The transcription starter, handed the upload's input key, recovers the
   * session id the upload generated, for every supported extension.
   */
  lemma InputKeyYieldsSessionId(suffix: string, extension: string)
    requires AudioUpload.IsShortUuid(suffix)
    ensures var id := AudioUpload.SessionId(suffix);
      TranscribeAudio.SessionIdOf(AudioUpload.InputPath(id, extension)) == Some(id)
  {
    var id := AudioUpload.SessionId(suffix);
    AudioUpload.SessionIdHasNoSlash(suffix);
    var rest := "input/audio" + extension;
    calc {
      AudioUpload.InputPath(id, extension);
      "sessions/" + id + "/input/audio" + extension;
      { assert "sessions/" == "sessions" + "/"; assert "/input/audio" == "/" + "input/audio"; }
      "sessions" + "/" + id + "/" + rest;
    }
    TranscribeAudio.SessionIdIsSecondSegment("sessions", id, rest);
  }

  /**
   * Transcribe writes `<OutputKey><job name>.json`; with the job named after
   * the session, that is the output path the upload recorded, and the key
   * the finisher reads.
   */
  lemma OutputKeysAgree(id: string)
    ensures TranscribeAudio.OutputKey(id) + id + ".json" == AudioUpload.OutputPath(id)
    ensures TranscriptionProcessing.TranscriptKey(id) == AudioUpload.OutputPath(id)
  {
  }

  /**
   * One upload, followed through: the starter names the job after the
   * session id the upload generated and points Transcribe at the output
   * folder whose `.json` the finisher then reads.
   */
  method UploadThenTranscribe(fields: map<string, Value>, io: AudioUpload.Io, k: nat,
                              bucket: string, transcribeIo: TranscribeAudio.Io)
    returns (upload: AudioUpload.Outcome, started: TranscribeAudio.Outcome)
    requires AudioUpload.Accepted(fields, k) && io.presignedUrl.Some? && io.putSucceeds
    requires AudioUpload.IsShortUuid(io.suffix)
    requires TranscribeAudio.LanguagePreferences(transcribeIo.lookup).Some?
    requires TranscribeAudio.LanguagePreferences(transcribeIo.lookup).value != []
    requires transcribeIo.startSucceeds && transcribeIo.updateSucceeds
    ensures upload.response.statusCode == 200 && upload.stored.Some?
    ensures started.Started?
    ensures var id := AudioUpload.SessionId(io.suffix);
      && "session_id" in upload.stored.value && "s3_output_path" in upload.stored.value
      && "TranscriptionJobName" in started.params
      && upload.stored.value["session_id"] == Str(id)
      && started.update.jobName == id
      && started.params["TranscriptionJobName"] == Str(id)
      && TranscriptionProcessing.TranscriptKey(id) == AudioUpload.OutputPath(id)
      && upload.stored.value["s3_output_path"] == Str(TranscriptionProcessing.TranscriptKey(id))
  {
    var id := AudioUpload.SessionId(io.suffix);
    AudioUpload.AcceptedUpload(fields, io, k);
    upload := AudioUpload.Upload(fields, io);
    var input := AudioUpload.InputPath(id, AudioUpload.Formats[k].0);
    AudioUpload.SessionItemFields(id, AudioUpload.Field(fields, "patient_name"), AudioUpload.LanguagePreferences(fields),
      AudioUpload.Formats[k].1, input, AudioUpload.OutputPath(id), io.createdAt);
    InputKeyYieldsSessionId(io.suffix, AudioUpload.Formats[k].0);
    OutputKeysAgree(id);
    started := TranscribeAudio.Handle(Some((bucket, input)), transcribeIo);
  }

  /**
   * When the job named after session `id` completes, the finisher reads the
   * output path the upload recorded: a transcript stored there is what it
   * records COMPLETED from, and a missing one raises naming that path.
   */
  lemma FinisherReadsStoredOutput(id: string, io: TranscriptionProcessing.Io)
    requires io.statusWriteError.None?
    ensures io.fetch(AudioUpload.OutputPath(id)).Transcript? ==>
      var r := TranscriptionProcessing.Handle(TranscriptionProcessing.Detail(Some(id), Some("COMPLETED")), io);
      var info := TranscriptionProcessing.ExtractPatientInfo(io.reply, io.parseJson);
      && r.writes == [TranscriptionProcessing.Write(id, "COMPLETED", map["extracted_info" := io.dumps(info)], io.now)]
      && Get(r.result.body, "transcriptLength") == Num(|io.fetch(AudioUpload.OutputPath(id)).text|)
    ensures io.fetch(AudioUpload.OutputPath(id)).NoSuchKey? ==>
      TranscriptionProcessing.Handle(TranscriptionProcessing.Detail(Some(id), Some("COMPLETED")), io).result
        == TranscriptionProcessing.Raised("Transcription output file not found: " + AudioUpload.OutputPath(id))
  {
    OutputKeysAgree(id);
    var fetched := io.fetch(AudioUpload.OutputPath(id));
    if fetched.Transcript? {
      TranscriptionProcessing.CompletedJobRecordsInfo(id, io, fetched.text);
    }
    if fetched.NoSuchKey? {
      TranscriptionProcessing.MissingTranscriptRaises(id, io);
    }
  }

  /**
   * The form's Save button against the route it calls: the PUT is answered
   * 405, so the save always reports failure and keeps the draft, `notes`
   * and both highlight sets; `isSaving` ends false.
   */
  method SaveThroughRoute(form: CustomerDetailsForm.Form, patientData: Value, pool: PatientsApi.Query -> PatientsApi.DbResult)
    returns (reply: Option<PatientsApi.Reply>)
    modifies form
    ensures form.formData == old(form.formData)
    ensures form.updatedFields == old(form.updatedFields) && form.newFields == old(form.newFields)
    ensures Truthy(Get(patientData, "patient_id")) ==>
      !form.isSaving && reply.Some? && reply.value.status == 405 && reply.value.sent.None?
    ensures !Truthy(Get(patientData, "patient_id")) ==> reply.None?
  {
    var id := Get(patientData, "patient_id");
    if !Truthy(id) {
      var request := form.Save(patientData, None);
      return None;
    }
    var body := CustomerDetailsForm.SaveBody(id, form.formData);
    var r := PatientsApi.Handle(PatientsApi.Request("PUT", Undefined, Obj(body)), pool, "");
    var request := form.Save(patientData, Some(r.status));
    return Some(r);
  }
}
