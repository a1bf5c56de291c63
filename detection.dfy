/** One pass of the disease-detection page after "Predict" is pressed,
    and the feedback form below it. Every connectivity probe is a fresh
    check, so each decision point has its own `online…` input; the
    classifier's output vector, the remote reply, the file operations and
    the sync stub's answer are inputs too. */
module Detection {

  import opened Wrappers
  import opened Treatments
  import opened Inference
  import opened Ledger

  /** Where the pass stops without recording anything: numpy's argmax
      raises on an empty output, an index past the label list raises
      IndexError, and an unparsable ledger file makes the load raise. */
  datatype DetectionError = EmptyOutput | NoSuchClass(index: nat) | LedgerUnreadable

  datatype DetectionOutcome =
    | Failed(error: DetectionError)
    | Recorded(record: PredictionRecord, data: LocalData)

  /** The "Predict" pass: run the model, map the index to a label, fetch
      the treatment advice, append the record unsynced and save, then, if
      the sync probe and the sync succeed, mark the record synced and save
      again. The model cache is refreshed whatever happens afterwards. */
  method Predict(cache: ModelCache, file: LocalFile, imageName: string, timestamp: string,
                 scores: seq<real>, onlineAtRefresh: bool, removeOk: bool, copyOk: bool,
                 onlineAtLookup: bool, reply: RemoteReply, onlineAtSync: bool, syncOk: bool)
    returns (outcome: DetectionOutcome)
    modifies cache, file
    ensures cache.cached == CacheAfterRefresh(old(cache.cached), onlineAtRefresh, removeOk, copyOk)
    ensures |scores| == 0 ==> outcome == Failed(EmptyOutput)
    ensures outcome.Failed? ==> file.contents == old(file.contents)
    ensures outcome.Recorded? ==>
      exists k: nat :: IsFirstMax(scores, k) && k < |ClassNames|
        && outcome.record == PredictionRecord(timestamp, imageName, ClassNames[k], onlineAtSync && syncOk,
                                              GetTreatmentInfo(ClassNames[k], onlineAtLookup, reply))
    ensures outcome.Recorded? ==>
      && LoadLocalData(old(file.contents)).Some?
      && fresh(outcome.data)
      && file.contents == Written(outcome.data.Value())
      && outcome.data.Value()
         == WithPrediction(LoadLocalData(old(file.contents)).value, outcome.record, outcome.record.synced)
    ensures |scores| > 0 && LoadLocalData(old(file.contents)).Some? ==>
      (outcome.Recorded? <==> forall k: nat :: IsFirstMax(scores, k) ==> k < |ClassNames|)
  {
    var modelPath, index := ModelPrediction(cache, onlineAtRefresh, removeOk, copyOk, scores);
    if index.None? {
      return Failed(EmptyOutput);
    }
    var diseaseName := ClassName(index.value);
    if diseaseName.None? {
      forall k | IsFirstMax(scores, k) ensures k == index.value {
        FirstMaxUnique(scores, k, index.value);
      }
      return Failed(NoSuchClass(index.value));
    }
    var treatmentInfo := GetTreatmentInfo(diseaseName.value, onlineAtLookup, reply);
    var record := PredictionRecord(timestamp, imageName, diseaseName.value, false, treatmentInfo);
    var loaded := file.Load();
    if loaded.None? {
      return Failed(LedgerUnreadable);
    }
    var data := loaded.value;
    data.AppendPrediction(record);
    file.Save(data);
    if onlineAtSync && syncOk {
      record := record.(synced := true);
      data.ReplaceLastPrediction(record);
      file.Save(data);
    }
    forall k | IsFirstMax(scores, k) ensures k == index.value {
      FirstMaxUnique(scores, k, index.value);
    }
    outcome := Recorded(record, data);
  }

  /** Submitting the feedback form: only when it was submitted with an
      answer chosen, the entry is appended unsynced and saved, then marked
      synced and saved again when the probe says online. */
  method SubmitFeedback(file: LocalFile, data: LocalData, timestamp: string, diseaseName: string,
                        submitted: bool, choice: Option<FeedbackChoice>, notes: string, online: bool)
    modifies file, data
    ensures !(submitted && choice.Some?) ==>
      file.contents == old(file.contents) && data.Value() == old(data.Value())
    ensures submitted && choice.Some? ==>
      && data.Value() == WithFeedback(old(data.Value()),
                                      FeedbackRecord(timestamp, diseaseName, choice.value, notes, false), online)
      && file.contents == Written(data.Value())
  {
    if submitted && choice.Some? {
      var entry := FeedbackRecord(timestamp, diseaseName, choice.value, notes, false);
      data.EnsureFeedbackList();
      data.AppendFeedback(entry);
      file.Save(data);
      if online {
        entry := entry.(synced := true);
        data.ReplaceLastFeedback(entry);
        file.Save(data);
      }
    }
  }

  /** Seven of the ten class labels have no entry in the local treatment
      table: offline, only bacterial spot, early blight and the healthy
      class get specific advice; every other class gets the generic record. */
  lemma LocalAdviceCoverage(index: nat, reply: RemoteReply)
    requires index < |ClassNames|
    ensures ClassNames[index] in LocalTreatments <==> index in {0, 1, 9}
    ensures index !in {0, 1, 9} ==> GetTreatmentInfo(ClassNames[index], false, reply) == GenericInfo
  {
  }
}
