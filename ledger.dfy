/** The local prediction ledger (`local_predictions.json`): the JSON
    document as a value, the file that holds it, and the dictionary the
    detection page loads and then changes in place. */
module Ledger {

  import opened Wrappers
  import opened Treatments

  datatype PredictionRecord = PredictionRecord(
    timestamp: string,
    imageName: string,
    prediction: string,
    synced: bool,
    treatmentInfo: TreatmentInfo)

  /** The three answers of the feedback form's radio button. */
  datatype FeedbackChoice = Correct | PartiallyCorrect | Incorrect

  datatype FeedbackRecord = FeedbackRecord(
    timestamp: string,
    prediction: string,
    feedback: FeedbackChoice,
    notes: string,
    synced: bool)

  /** The ledger document: a `predictions` list and, once some feedback
      was given, a `feedback` list (`None` while that key is absent). */
  datatype Snapshot = Snapshot(predictions: seq<PredictionRecord>, feedback: Option<seq<FeedbackRecord>>)

  /** What the ledger file holds: nothing yet, a document, or text that
      does not parse as JSON. */
  datatype LedgerFile = Absent | Written(document: Snapshot) | Unparsable

  /** `load_local_data`: an absent file reads as a ledger with an empty
      `predictions` list and no `feedback` key; a file that does not parse
      makes the load raise (`None`). */
  function LoadLocalData(file: LedgerFile): (data: Option<Snapshot>)
    ensures data.None? <==> file.Unparsable?
    ensures file.Absent? ==> data == Some(Snapshot([], None))
    ensures file.Written? ==> data == Some(file.document)
  {
    match file
    case Absent => Some(Snapshot([], None))
    case Written(document) => Some(document)
    case Unparsable => None
  }

  /** The document after the detection step: the new record appended, its
      `synced` flag set to whether the sync succeeded. */
  function WithPrediction(before: Snapshot, record: PredictionRecord, synced: bool): (after: Snapshot)
    ensures |after.predictions| == |before.predictions| + 1
    ensures after.predictions[..|before.predictions|] == before.predictions
    ensures after.predictions[|before.predictions|] == record.(synced := synced)
    ensures after.feedback == before.feedback
  {
    before.(predictions := before.predictions + [record.(synced := synced)])
  }

  /** The document after a feedback submission: the `feedback` list is
      created when missing and the entry appended, synced when online. */
  function WithFeedback(before: Snapshot, entry: FeedbackRecord, synced: bool): (after: Snapshot)
    ensures after.feedback.Some?
    ensures var earlier := if before.feedback.Some? then before.feedback.value else [];
      && |after.feedback.value| == |earlier| + 1
      && after.feedback.value[..|earlier|] == earlier
      && after.feedback.value[|earlier|] == entry.(synced := synced)
    ensures after.predictions == before.predictions
  {
    var earlier := if before.feedback.Some? then before.feedback.value else [];
    before.(feedback := Some(earlier + [entry.(synced := synced)]))
  }

  /** The ledger after a series of detection steps, each given as the
      record it appends and whether its sync succeeded. */
  function AfterPredictions(start: Snapshot, steps: seq<(PredictionRecord, bool)>): (after: Snapshot)
    decreases |steps|
  {
    if steps == [] then start
    else AfterPredictions(WithPrediction(start, steps[0].0, steps[0].1), steps[1..])
  }

  /** N detection steps leave N more records, in the order they were made,
      after the untouched earlier ones; each record's `synced` flag is the
      outcome of its own sync attempt, and the feedback list is untouched. */
  lemma {:induction false} PredictionsKeepOrder(start: Snapshot, steps: seq<(PredictionRecord, bool)>)
    ensures var after := AfterPredictions(start, steps);
      && |after.predictions| == |start.predictions| + |steps|
      && after.predictions[..|start.predictions|] == start.predictions
      && (forall i :: 0 <= i < |steps| ==>
            after.predictions[|start.predictions| + i] == steps[i].0.(synced := steps[i].1))
      && after.feedback == start.feedback
    decreases |steps|
  {
    if steps != [] {
      var next := WithPrediction(start, steps[0].0, steps[0].1);
      PredictionsKeepOrder(next, steps[1..]);
      var after := AfterPredictions(start, steps);
      assert after == AfterPredictions(next, steps[1..]);
      var n := |start.predictions|;
      assert after.predictions[..n] == next.predictions[..n + 1][..n];
      forall i | 0 <= i < |steps|
        ensures after.predictions[n + i] == steps[i].0.(synced := steps[i].1)
      {
        if i > 0 {
          assert after.predictions[(n + 1) + (i - 1)] == steps[1..][i - 1].0.(synced := steps[1..][i - 1].1);
        } else {
          assert after.predictions[n] == next.predictions[..n + 1][n];
        }
      }
    }
  }

  /** The dictionary returned by `load_local_data`, changed in place by the
      detection and feedback steps. */
  class LocalData {
    var predictions: seq<PredictionRecord>
    var feedback: Option<seq<FeedbackRecord>>

    /** The document this dictionary would be saved as. */
    function Value(): (v: Snapshot)
      reads this
    {
      Snapshot(predictions, feedback)
    }

    constructor (document: Snapshot)
      ensures Value() == document
    {
      predictions := document.predictions;
      feedback := document.feedback;
    }

    /** Appends a record to the predictions list (app3.py:404). */
    method AppendPrediction(record: PredictionRecord)
      modifies this
      ensures predictions == old(predictions) + [record]
      ensures feedback == old(feedback)
    {
      predictions := predictions + [record];
    }

    /** Overwrites the last entry of the predictions list (app3.py:410). */
    method ReplaceLastPrediction(record: PredictionRecord)
      requires predictions != []
      modifies this
      ensures predictions == old(predictions)[..|old(predictions)| - 1] + [record]
      ensures feedback == old(feedback)
    {
      predictions := predictions[..|predictions| - 1] + [record];
    }

    /** Adds an empty feedback list when the document has none (app3.py:456-457). */
    method EnsureFeedbackList()
      modifies this
      ensures feedback == if old(feedback).Some? then old(feedback) else Some([])
      ensures predictions == old(predictions)
    {
      if feedback.None? {
        feedback := Some([]);
      }
    }

    /** Appends an entry to the feedback list (app3.py:458). */
    method AppendFeedback(entry: FeedbackRecord)
      requires feedback.Some?
      modifies this
      ensures feedback == Some(old(feedback).value + [entry])
      ensures predictions == old(predictions)
    {
      feedback := Some(feedback.value + [entry]);
    }

    /** Overwrites the last entry of the feedback list (app3.py:464). */
    method ReplaceLastFeedback(entry: FeedbackRecord)
      requires feedback.Some? && feedback.value != []
      modifies this
      ensures feedback == Some(old(feedback).value[..|old(feedback).value| - 1] + [entry])
      ensures predictions == old(predictions)
    {
      feedback := Some(feedback.value[..|feedback.value| - 1] + [entry]);
    }
  }

  /** The ledger file on disk. */
  class LocalFile {
    var contents: LedgerFile

    constructor (contents: LedgerFile)
      ensures this.contents == contents
    {
      this.contents := contents;
    }

    /** `load_local_data`: a fresh dictionary holding the parsed document,
        or `None` where parsing raises. */
    method Load() returns (data: Option<LocalData>)
      ensures data.None? <==> LoadLocalData(contents).None?
      ensures data.Some? ==> fresh(data.value) && data.value.Value() == LoadLocalData(contents).value
    {
      var document := LoadLocalData(contents);
      if document.None? {
        return None;
      }
      var loaded := new LocalData(document.value);
      data := Some(loaded);
    }

    /** `save_local_data`: the whole file is replaced by the dictionary. */
    method Save(data: LocalData)
      modifies this
      ensures contents == Written(data.Value())
    {
      contents := Written(data.Value());
    }
  }
}
