# Assignment submission form — a Dafny model

This project models the form state engine of the discipleship-training
assignment submission page. A trainee enters a name, picks a training week
from a fixed catalog, and attaches files; the files are then posted one at a
time to a Google Apps Script endpoint.

It models:

- **File admission.** A batch of picked or dropped files is screened in
  order. A file over 10 MiB is dropped. So is a file whose
  (name, size, last-modified) identity matches an already selected file or
  one accepted earlier in the same batch. The survivors are appended after
  the prior selection, and a notice is returned for each dropped file.
- **Removal of a selected file by index.**
- **The submit guard.** It asks for a name, a week, at least one file and a
  configured endpoint, and agrees with the submit button's enabled state.
- **The sequential transmit loop.** Files go out in selection order and the
  first failure stops the loop. On success the form shows the feedback
  message ("name" or "first 외 N건") and the fixed encouragement; a failure
  sets Error.
- **The two resets.**
- **The week catalog.** It has 25 entries (`week-0` … `week-24`) with labels,
  optional topic, section and start date. Its dates are `YYYY-MM-DD`
  strings, whose string order is proved to be calendar order.

Modules:

- `Types`: the record shapes.
- `Numerals`: decimal rendering and parsing, plus string order on digit strings.
- `Dates`: ISO calendar dates.
- `Constants`: the endpoint, the size ceiling and the catalog, with lemmas about the catalog.
- `Admission`: the admission loop and its reference filter.
- `Form`: removal, week lookup, feedback message, guard, transmission, and the `SubmissionForm` class.
- `Scenarios`: two end-to-end walks through the shipped form.

The endpoint URL and the week catalog are given to `SubmissionForm` when it
is constructed. The scenarios build it with the shipped `GoogleScriptUrl`
and `TrainingWeeks`.

## Model

| member | source | states |
|---|---|---|
| Constants.CatalogIds | constants.ts:10-39 | the catalog has 25 entries and the entry at position k has id "week-" followed by k in decimal |
| Constants.CatalogCaptions | constants.ts:12-38 | the entry at position k is labelled "OT" when k is 0 and k followed by "주차" otherwise |
| Constants.CatalogOptionalFields | constants.ts:12-38 | only week-0 lacks a topic, every entry has a section, and exactly week-14 and week-19 lack a start date |
| Constants.CatalogIdsDistinct | constants.ts:12-38 | entries at different positions have different ids, so lookup by id is unambiguous |
| Constants.StartDatesWellFormed | constants.ts:12-38 | every start date present has the YYYY-MM-DD digit-and-dash shape |
| Constants.StartDateAfterPrevious | constants.ts:12-38 | each dated entry falls on a later calendar day than the nearest dated entry before it |
| Constants.StartDatesIncrease | constants.ts:12-38 | for any two dated entries i < j, entry i's date is earlier than entry j's both as a calendar day and as a string |
| Constants.ShippedEndpointConfigured | constants.ts:6 | the shipped endpoint URL is not empty |
| Dates.IsoOrderIsCalendarOrder | types.ts:20 | for YYYY-MM-DD strings, string order coincides with calendar (year, month, day) order |
| Dates.FieldsAreNumerals | types.ts:20 | the year, month and day fields of a date are the numbers their digit groups spell |
| Numerals.LexLessIsNumeric | types.ts:20 | for equal-length digit strings, string order coincides with numeric order |
| Numerals.ParseDecimal | App.tsx:149 | reading back the decimal rendering of a count gives that count |
| Admission.Verdict | App.tsx:24-43 | a file is reported too large exactly when it exceeds the ceiling, and let through exactly when it is within the ceiling and its identity is not held |
| Admission.Accepted | App.tsx:20-47 | there are no more admitted files than batch files; each is a batch file within the ceiling whose identity was not already selected (batch order is shown by AcceptedIsFilter) |
| Admission.Rejected | App.tsx:22-44 | the admitted files and the notices together number the batch files, each notice names a batch file, and a notice says "too large" exactly when its file exceeds the ceiling |
| Admission.RejectedIsFilter | App.tsx:22-44 | the notices are, in batch order, one per file the filter leaves out, naming that file, with "too large" above the ceiling and "already selected" otherwise |
| Admission.EveryFileAccountedFor | App.tsx:22-47 | every batch file is either admitted or named in a notice with its reason |
| Admission.VerdictIsKeptAt | App.tsx:30-43 | testing a file against the prior selection plus the survivors so far lets it through exactly when the filter keeps it |
| Admission.Admit | App.tsx:20-47 | the loop's survivors and notices are those of the admission specification |
| Admission.OversizeNeverAdmitted | App.tsx:24-27 | the ceiling is 10485760 bytes and no file above it is admitted |
| Admission.AtLimitAccepted | App.tsx:24-27 | a file of exactly the ceiling size with an identity not seen before is admitted |
| Admission.WithinLimitIsCovered | App.tsx:30-46 | after admission, every batch file within the ceiling has its identity in the selection |
| Admission.AcceptedIsFilter | App.tsx:22-47 | admission keeps a batch file exactly when it is within the ceiling and neither the prior selection nor an earlier batch file has its identity, so a rejection never stops later files from being judged |
| Admission.AdmitKeepsKeysDistinct | App.tsx:30-49 | if no two selected files shared an identity before admission, none do after |
| Admission.AdmitInTwoSteps | App.tsx:20-49 | admitting two batches one after the other selects the same files as admitting them as one batch |
| Admission.HeldKeys | App.tsx:30-39 | an identity is held by the prior selection plus this batch's survivors exactly when one of the two holds it |
| Form.RemoveAt | App.tsx:94-99 | removing index i leaves the elements before i followed by those after i; an out-of-range index leaves the list unchanged |
| Form.RemoveAtShifts | App.tsx:94-99 | after removal, the list is one shorter and each survivor sits at its old position or one earlier |
| Form.RemoveKeepsKeysDistinct | App.tsx:94-99 | removal never makes two files share an identity |
| Form.FindWeek | App.tsx:126 | the lookup gives the first position whose id matches, or nothing exactly when no entry matches |
| Form.WeekLabel | App.tsx:126 | the sent label is that of the first matching entry, or "Unknown" when no entry matches or the label is empty |
| Form.CatalogWeekLabel | App.tsx:126 | every catalog week is sent under its own label, which is never "Unknown" |
| Form.JoinNames | App.tsx:146 | joining the names gives the name itself for one file, and always starts with the first file's name |
| Form.SuccessMessage | App.tsx:145-149 | the message starts with the first file's name and, for several files, ends in "건" |
| Form.SingleFileMessage | App.tsx:145-149 | a one-file submission is announced by that file's name |
| Form.SummaryRoundTrip | App.tsx:145-149 | a multi-file message gives back the first file's name and the number of other files, whatever the name contains |
| Form.TrailingDigitsOf | App.tsx:149 | digits written after a non-digit are exactly the trailing digit run |
| Form.IsFormValid | App.tsx:172 | the button's length test agrees with the submit handler's emptiness test on name, week and files |
| Form.SubmitGuard | App.tsx:116-121 | a submit goes ahead exactly when the button is enabled (valid form and configured endpoint); a missing endpoint is reported only for an otherwise valid form |
| Form.ShippedGuardOnlyChecksForm | App.tsx:118 | with the shipped endpoint the configuration check never blocks, and a submit goes ahead exactly when the form is valid |
| Form.Payloads | App.tsx:131-142 | one payload per file, in file order, carrying the trainee name, the week label, the file name and its MIME type |
| Form.FirstFailureFrom | App.tsx:128-143 | the loop stops at the first file that is not delivered, and every file before it was delivered |
| Form.FirstFailureAt | App.tsx:128-143 | a failing file with all earlier files delivered is the stopping point |
| Form.Sent | App.tsx:128-143 | no more payloads are sent than there are files, and the payload at each position belongs to the file there, which was delivered |
| Form.SentIsOrderedPrefix | App.tsx:128-143 | what reaches the endpoint is a prefix of all payloads in file order, and it is all of them exactly when every file is delivered |
| Form.Transmit | App.tsx:128-143 | the loop posts files in order and stops at the first failure, sending exactly the specified prefix |
| Form.SubmissionForm.constructor | App.tsx:9-15 | the form starts empty, idle and without feedback |
| Form.SubmissionForm.SetName | App.tsx:198 | editing the name changes only the name |
| Form.SubmissionForm.SelectWeek | App.tsx:216 | choosing a week changes only the week id |
| Form.SubmissionForm.AddFiles | App.tsx:17-54 | the selection becomes the prior selection followed by the admitted files, a notice is returned per rejected file, and identities stay distinct |
| Form.SubmissionForm.RemoveFile | App.tsx:94-99 | the selection loses exactly the file at the index, and nothing else changes |
| Form.SubmissionForm.Submit | App.tsx:114-158 | a blocked submit changes nothing. Otherwise the files are sent in order until the first failure. The form ends in Success with the computed message and the encouragement if all are sent, else in Error with the feedback untouched. The form never enters Analyzing, and, since every read and post is taken to settle, it never stays Uploading |
| Form.SubmissionForm.ResetFull | App.tsx:160-164 | name, week and files are cleared, the status is Idle and the feedback is cleared |
| Form.SubmissionForm.ResetFilesOnly | App.tsx:166-170 | files and feedback are cleared and the status is Idle, while name and week are kept |
| Scenarios.FirstWeekLabel | constants.ts:13 | week-1 is sent under the label "1주차" |
| Scenarios.BothDelivered | App.tsx:114-158 | two files for week-1 that both go through are sent in order and announced as "a.jpg 외 1건" |
| Scenarios.SecondRejected | App.tsx:125-164 | when the second post fails, only the first file was sent and the form is in Error without feedback; closing the error dialog (the full reset) leaves an empty idle form |

## Left out

- The network post itself (`fetch` with `no-cors` and a JSON body) is not modelled. Each file's fate is the parameter `attempt: nat -> Outcome`, and a delivery means only that the post did not reject.
- The base64 contents (`fileData`) are not modelled. Reading them through `FileReader` is a browser API, so a payload holds the other four fields and a failed read is the `ReadFailed` outcome.
- Form.SubmissionForm.Submit: assumes every file read and every post settles. Neither `FileReader` nor `fetch` has a timeout in the code, so a read or post that never settles leaves the page Uploading for good; the model has no such outcome.
- The alert pop-ups are not shown. Admission returns the rejections as `Rejection` values instead, and a blocked submit returns a `SubmitBlock`.
- React's asynchronous state updates are not modelled. Admission reads the selection at the time of the event and appends through the updater; the model treats the whole admission as one step on the current selection, and treats each submit as one uninterrupted step.
- The JSX rendering, the file size shown in MB with two decimals (floating point), the header and the status dialog are left out.
- The Gemini service is left out. It wraps an external SDK and the form never calls it.
- Image compression, progress percentages, parallel uploads after the first file, and randomly chosen encouragements are absent from the form's code, so they are absent from the model. The upload loop is strictly sequential.
- A failed submit started from the Success state leaves the earlier feedback in place, because the error path never clears it. The model keeps this behaviour. A design where feedback exists only in Success would differ.
- The catalog field `label` is called `caption`, since `label` is a reserved word in Dafny.
- The endpoint URL and the catalog are constructor arguments of `SubmissionForm` rather than module constants read by the form. The scenarios pass the shipped values.
