/**
 * Two walks through the shipped form: a trainee submits two files for the
 * first week and both arrive; then the same submission with the second post
 * rejected, followed by closing the error dialog.
 */
module Scenarios {
  import opened Types
  import opened Numerals
  import opened Constants
  import opened Admission
  import opened Form

  const Photo: FileMeta := FileMeta("a.jpg", "image/jpeg", 5 * 1024 * 1024, 1)
  const Report: FileMeta := FileMeta("b.pdf", "application/pdf", 2 * 1024 * 1024, 2)

  /** The label the first week is sent under. */
  lemma FirstWeekLabel()
    ensures WeekLabel(TrainingWeeks, "week-1") == "1주차"
  {
    CatalogIds(1);
    CatalogCaptions(1);
    CatalogWeekLabel(1);
    assert Decimal(1) == "1";
  }

  /** The message for the two files. */
  lemma TwoFileMessage()
    ensures SuccessMessage([Photo, Report]) == "a.jpg 외 1건"
  {
    assert Decimal(1) == "1";
  }

  /** With every post going through, both payloads are sent, the photo first. */
  lemma BothSent(attempt: nat -> Outcome)
    requires attempt(0) == Delivered && attempt(1) == Delivered
    ensures Sent("홍길동", "1주차", [Photo, Report], attempt)
         == [Payload("홍길동", "1주차", "a.jpg", "image/jpeg"),
             Payload("홍길동", "1주차", "b.pdf", "application/pdf")]
  {
    SentIsOrderedPrefix("홍길동", "1주차", [Photo, Report], attempt);
    assert [Photo, Report][..2] == [Photo, Report];
  }

  /** A filled-in shipped form holding both files. */
  method FilledForm() returns (form: SubmissionForm)
    ensures fresh(form) && form.Valid()
    ensures form.name == "홍길동" && form.weekId == "week-1" && form.files == [Photo, Report]
    ensures form.status == Idle && form.scriptUrl == GoogleScriptUrl && form.weeks == TrainingWeeks
  {
    form := new SubmissionForm(GoogleScriptUrl, TrainingWeeks);
    form.SetName("홍길동");
    form.SelectWeek("week-1");
    assert Accepted([], [Photo]) == [Photo];
    assert [Photo, Report][..1] == [Photo];
    assert Key(Photo) != Key(Report);
    var notices := form.AddFiles([Photo, Report]);
  }

  /** Both files go out in order under the week's label, and the form reports "a.jpg 외 1건". */
  method BothDelivered() returns (form: SubmissionForm, sent: seq<Payload>)
    ensures form.status == Success
    ensures form.feedback == Some(Feedback("a.jpg 외 1건", Encouragement))
    ensures sent == [Payload("홍길동", "1주차", "a.jpg", "image/jpeg"),
                     Payload("홍길동", "1주차", "b.pdf", "application/pdf")]
  {
    form := FilledForm();
    ShippedGuardOnlyChecksForm(form.Current());
    FirstWeekLabel();
    var blocked;
    var attempt: nat -> Outcome := _ => Delivered;
    blocked, sent := form.Submit(attempt);
    BothSent(attempt);
    TwoFileMessage();
  }

  /**
   * The second post is rejected: only the first file went out, the form ends
   * in Error with no feedback, and closing the error dialog (the full reset)
   * leaves an empty idle form.
   */
  method SecondRejected() returns (form: SubmissionForm, sent: seq<Payload>)
    ensures sent == [Payload("홍길동", "1주차", "a.jpg", "image/jpeg")]
    ensures form.status == Idle && form.feedback == None
    ensures form.name == [] && form.weekId == [] && form.files == []
  {
    form := FilledForm();
    ShippedGuardOnlyChecksForm(form.Current());
    FirstWeekLabel();
    var blocked;
    var attempt := (k: nat) => if k == 0 then Delivered else NetworkFailed;
    blocked, sent := form.Submit(attempt);
    FirstFailureAt(1, 2, attempt);
    assert [Photo, Report][..1] == [Photo];
    assert form.status == Error && form.feedback == None;
    form.ResetFull();
  }
}
