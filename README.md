# Plant Health Assistant — verified model of the app's stateful core

The Plant Health Assistant is a Streamlit web app (`app3.py`): a user signs
up or logs in, uploads a leaf photo, a trained Keras classifier names one of
ten tomato disease classes, the app shows treatment advice and logs the
prediction to a local JSON ledger, with a simulated cloud sync and an
optional feedback form.

This project models, in Dafny, the logic under the user interface:

- `Credentials` (`credentials.dfy`): the `users` table keyed by user name,
  `create_user` (the insert fails on a taken name), `verify_user` (stored
  digest against the digest of the password offered), the sign-up form's
  checks (confirmation first, then the 6-character minimum), and the session
  fields `authenticated` and `username` set by login and cleared by logout.
  The SHA-256 hex digest is a function-valued parameter of the store; no
  property of it is assumed, in particular not injectivity.
- `Treatments` (`treatments.dfy`): the local treatment table with its three
  entries, the generic "no information" record, and `get_treatment_info`,
  which uses the remote reply only when online, with status 200 and a
  parsable body, and otherwise falls back to the local table.
- `Ledger` (`ledger.dfy`): the ledger document (`predictions`, and
  `feedback` once present), the file (absent, written, or unparsable),
  `load_local_data`/`save_local_data`, and the dictionary that the
  detection page loads and then changes in place (a class).
- `Inference` (`inference.dfy`): the model-cache refresh of
  `model_prediction` (remove the cache, then copy the bundled model over
  it), the choice between cached and bundled model, `np.argmax` with
  first-maximum tie-break, and the ten-entry label list.
- `Detection` (`detection.dfy`): one "Predict" pass (model, label, advice,
  append unsynced, save, then mark synced and save again on a successful
  sync) and the feedback submission.

Every `is_online()` call is a fresh probe, so each decision point takes its
own boolean. The classifier's output vector, the remote reply, whether
`os.remove` succeeds, whether `shutil.copy` leaves a file at the cache path,
and the sync stub's answer are inputs.

Two behaviours of the code are worth knowing:

- The model-cache refresh removes the cache before copying, so a copy that
  leaves no file at the cache path after the removal leaves no cache, and
  the bundled model is loaded (`Inference.CopyFailureLosesCache`).
- `load_local_data` handles only an absent file: an unparsable one makes
  the load raise, and the detection pass records nothing
  (`Detection.DetectionError.LedgerUnreadable`).

## Model

| member | source | states |
|---|---|---|
| Credentials.Insert | app3.py:39-50 | the insert succeeds exactly when the user name is new; the key set grows by that name only, the row count by one on success and zero on failure, and no existing row is ever changed |
| Credentials.UserStore.constructor | app3.py:22-30 | a new store has an empty users table |
| Credentials.UserStore.CreateUser | app3.py:39-50 | returns true exactly for a new user name, stores the password digest and e-mail, leaves the table unchanged on a duplicate, and the new user's password then verifies |
| Credentials.UserStore.VerifyUser | app3.py:52-60 | false for an unknown user; otherwise true exactly when the stored digest equals the digest of the password offered |
| Credentials.InsertKeepsOtherLogins | app3.py:43-59 | after a fresh insert the new user's password verifies and every other user's password check is unchanged |
| Credentials.WrongPasswordNeedsCollision | app3.py:55-59 | after registering a password, another password verifies exactly when its digest collides with the registered one |
| Credentials.SecondRegistrationFails | app3.py:42-48 | registering a name twice: the first succeeds, the second fails, and the table (count and the first row) is as after the first |
| Credentials.ValidateNewPassword | app3.py:100-104 | the insert may proceed exactly when the passwords match and have at least 6 characters; a mismatch is reported before a short password |
| Credentials.SignUp | app3.py:99-108 | a rejected password creates no user; otherwise the outcome is account-created exactly when the name was free, with the table changed as by the insert |
| Credentials.ShortPasswordNeverAccepted | app3.py:102-103 | a password under 6 characters is always rejected |
| Credentials.Session.constructor | app3.py:63-66 | a new session is not authenticated and has no user name |
| Credentials.Session.Login | app3.py:81-88 | succeeds exactly when the password verifies, then sets authenticated and the user name; a failed login changes nothing |
| Credentials.Session.Logout | app3.py:577-579 | clears authenticated and the user name |
| Treatments.LocalLookup | app3.py:180-187 | a label in the local table gets its entry, any other label the generic record; either way at least one prevention tip |
| Treatments.GetTreatmentInfo | app3.py:167-187 | the remote reply is returned only when online, status 200 and parsable; otherwise the local lookup; offline, the advice is specific exactly for labels in the local table |
| Treatments.FallbackIndependentOfCause | app3.py:169-180 | whenever the remote reply is not used (offline, raised, non-200, unparsable) the result is the same as the offline result |
| Treatments.UnknownLabelGetsGenericRecord | app3.py:180-187 | offline, an unknown label gets exactly one prevention tip (consult the extension officer) and empty organic and chemical lists |
| Inference.CacheAfterRefresh | app3.py:225-232 | offline the cache is untouched; online, a failed removal keeps the cache, otherwise the cache exists afterwards exactly when the copy left a file at the cache path |
| Inference.SelectModelPath | app3.py:234-237 | the cached model path is chosen exactly when the cache exists, the bundled path exactly when it does not |
| Inference.OfflineUsesExistingCache | app3.py:225-237 | offline, an existing cache is loaded whatever the file operations would do |
| Inference.CopyFailureLosesCache | app3.py:226-232 | online, with a cache that is removed and a copy that leaves no file at the cache path, the cache is gone and the bundled model is loaded |
| Inference.ModelCache.Refresh | app3.py:225-232 | the cache flag afterwards is the refresh outcome of the old flag and the three inputs |
| Inference.ArgMax | app3.py:243 | none exactly for an empty vector; otherwise an index in range holding the maximum with every earlier score strictly smaller |
| Inference.FirstMaxUnique | app3.py:243 | at most one index is the first maximum, so the argmax is determined by its contract |
| Inference.ArgMaxExamples | app3.py:243 | the output [0.1, 0.9, 0.0] gives class 1 and the tie in [0.5, 0.2, 0.5] goes to index 0 |
| Inference.ClassName | app3.py:379-392 | indexes 0..9 give the label at that position of the ten-entry list; any larger index is an error |
| Inference.ModelPrediction | app3.py:221-243 | the cache is refreshed, the model path is chosen from the refreshed cache, and the index is the first maximum of the output (none when empty) |
| Ledger.LoadLocalData | app3.py:200-203 | an absent file loads as an empty predictions list with no feedback key, a written file as its document, and an unparsable one fails |
| Ledger.WithPrediction | app3.py:403-411 | predictions grow by one, earlier entries are unchanged, the new last entry is the record with its synced flag, and feedback is unchanged |
| Ledger.WithFeedback | app3.py:456-465 | the feedback list exists afterwards (created if missing), grows by exactly one entry after the unchanged earlier ones, and predictions are unchanged |
| Ledger.PredictionsKeepOrder | app3.py:395-411 | N detection steps append N records in order after the untouched earlier ones, each with its own sync outcome as synced flag |
| Ledger.LocalData.AppendPrediction | app3.py:404 | the record is appended to predictions; feedback is unchanged |
| Ledger.LocalData.ReplaceLastPrediction | app3.py:410 | the last prediction is replaced; the rest and feedback are unchanged |
| Ledger.LocalData.EnsureFeedbackList | app3.py:456-457 | a missing feedback list becomes empty, an existing one is kept |
| Ledger.LocalData.AppendFeedback | app3.py:458 | the entry is appended to feedback; predictions are unchanged |
| Ledger.LocalData.ReplaceLastFeedback | app3.py:464 | the last feedback entry is replaced; the rest and predictions are unchanged |
| Ledger.LocalFile.Load | app3.py:200-203 | returns a fresh dictionary holding the loaded document, or nothing exactly when the file does not parse |
| Ledger.LocalFile.Save | app3.py:205-206 | the whole file is replaced by the dictionary's contents |
| Detection.Predict | app3.py:375-411 | the cache is always refreshed; on success the record carries the label of the first-maximum index, the advice for it and synced exactly when the sync probe and sync succeeded, and the file holds the loaded ledger with that record appended; an empty output, an index past the labels or an unreadable ledger records nothing |
| Detection.SubmitFeedback | app3.py:447-467 | only a submitted form with an answer changes anything; then the entry is appended (list created if missing), synced exactly when online, and the file holds the result |
| Detection.LocalAdviceCoverage | app3.py:379-393 | of the ten labels only indexes 0, 1 and 9 have a local table entry; offline every other label gets the generic record |

## Left out

- User interface: Streamlit markup, CSS, the dashboard, page routing and the page bodies (home, pest identification, treatment guide, prevention tips, history) only render.
- Streamlit rerun semantics: the feedback form (app3.py:437-467) sits inside the `if st.button("Predict")` branch. Pressing "Submit Feedback" reruns the script with that button false, so in the running app the feedback step never executes and no feedback is ever stored. `Detection.SubmitFeedback` models the feedback code as written, as if it ran in the same pass as the prediction.
- The "Offline Mode" toggle (app3.py:333) is stored in the session and never read, so no `is_online()` decision depends on it; it is not modelled.
- A `shutil.copy` that raises after it has created the destination file (a partial write, or a failing permission copy) leaves a file at the cache path; the model's `copyOk` input means "a file is at the cache path afterwards", so that file's contents are not modelled.
- TensorFlow: loading the model file, resizing the image and `model.predict` are replaced by the output vector as an input; which model file is loaded does not influence that vector in the model, and a failure to load either file is not modelled.
- Inference.ArgMax: works on real numbers, so numpy's handling of NaN scores is not modelled.
- Network: `is_online` and the remote treatment fetch are inputs (a boolean per probe and a reply value); the URL and timeouts are not modelled.
- Treatments.GetTreatmentInfo: a parsable remote body is taken to have the treatment-record shape; arbitrary JSON bodies are not modelled.
- Storage: SQLite and the JSON file are in-memory values; connection errors, write failures and JSON documents without a `predictions` key are not modelled.
- SHA-256: the digest function is a parameter with no assumed properties.
- Time: timestamps are inputs; the one-second sleep of the sync stub is left out and its answer is an input; `get_cloud_updates` is never called and is left out.
- `service-worker.js`: a browser cache-first fetch handler, I/O only.
