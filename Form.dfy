/**
 * The submission form of App.tsx: the record being filled in, removal of a
 * selected file, the guard in front of a submit, the sequential transmit loop
 * with its feedback message, and the two resets.
 */
module Form {
  import opened Types
  import opened Numerals
  import opened Constants
  import opened Admission

  // ---------------------------------------------------------------------------
  // Removal by index (App.tsx:94-99)
  // ---------------------------------------------------------------------------

  /**
   * The selection filtered by position: the element at `index` is dropped and
   * every other element is kept in its order. An index outside the list
   * matches no position, so nothing is dropped.
   */
  function RemoveAt<T>(files: seq<T>, index: int): (r: seq<T>)
    ensures 0 <= index < |files| ==> r == files[..index] + files[index + 1..]
    ensures !(0 <= index < |files|) ==> r == files
    decreases |files|
  {
    if files == [] then []
    else
      var last := |files| - 1;
      RemoveAt(files[..last], index) + (if last == index then [] else [files[last]])
  }

  /** Removing a file never introduces two files with the same identity. */
  lemma RemoveKeepsKeysDistinct(files: seq<FileMeta>, index: int)
    requires DistinctKeys(files)
    ensures DistinctKeys(RemoveAt(files, index))
  {
    if 0 <= index < |files| {
      var r := RemoveAt(files, index);
      forall i, j | 0 <= i < j < |r|
        ensures Key(r[i]) != Key(r[j])
      {
        var i' := if i < index then i else i + 1;
        var j' := if j < index then j else j + 1;
        assert r[i] == files[i'] && r[j] == files[j'];
      }
    }
  }

  /** Removal keeps every other file and their relative order: each survivor is the file at its shifted position. */
  lemma RemoveAtShifts<T>(files: seq<T>, index: int, p: nat)
    requires 0 <= index < |files| && p < |files| - 1
    ensures |RemoveAt(files, index)| == |files| - 1
    ensures RemoveAt(files, index)[p] == if p < index then files[p] else files[p + 1]
  {
  }

  // ---------------------------------------------------------------------------
  // Week label lookup (App.tsx:126)
  // ---------------------------------------------------------------------------

  /** Position of the first catalog entry with the given id (`Array.prototype.find`). */
  function FindWeek(catalog: seq<WeekOption>, id: string): (r: Option<nat>)
    ensures r.Some? ==> r.value < |catalog| && catalog[r.value].id == id
    ensures r.Some? ==> forall j :: 0 <= j < r.value ==> catalog[j].id != id
    ensures r.None? <==> forall j :: 0 <= j < |catalog| ==> catalog[j].id != id
    decreases |catalog|
  {
    if catalog == [] then None
    else if catalog[0].id == id then Some(0)
    else
      match FindWeek(catalog[1..], id)
      case None => None
      case Some(i) => Some(i + 1)
  }

  /** The fallback label sent when the chosen week has no usable label. */
  const UnknownWeek: string := "Unknown"

  /**
   * The label sent with each file: the label of the first entry whose id
   * matches, unless there is none or that label is empty, in which case the
   * fallback (`?.label || 'Unknown'`).
   */
  function WeekLabel(catalog: seq<WeekOption>, id: string): (shown: string)
    ensures forall i :: 0 <= i < |catalog| && catalog[i].id == id
                        && (forall j :: 0 <= j < i ==> catalog[j].id != id) ==>
              shown == (if catalog[i].caption == "" then UnknownWeek else catalog[i].caption)
    ensures (forall i :: 0 <= i < |catalog| ==> catalog[i].id != id) ==> shown == UnknownWeek
  {
    match FindWeek(catalog, id)
    case None => UnknownWeek
    case Some(i) => if catalog[i].caption == "" then UnknownWeek else catalog[i].caption
  }

  /**
   * Every week the form offers is sent under its own label, never under the
   * fallback: ids are distinct, so the lookup finds that very entry, and its
   * label is neither empty nor "Unknown".
   */
  lemma CatalogWeekLabel(k: nat)
    requires k < |TrainingWeeks|
    ensures WeekLabel(TrainingWeeks, TrainingWeeks[k].id) == TrainingWeeks[k].caption
    ensures TrainingWeeks[k].caption != UnknownWeek
  {
    forall j | 0 <= j < k
      ensures TrainingWeeks[j].id != TrainingWeeks[k].id
    {
      CatalogIdsDistinct(j, k);
    }
    CatalogCaptions(k);
    var c := TrainingWeeks[k].caption;
    assert c[|c| - 1] != UnknownWeek[|UnknownWeek| - 1];
  }

  // ---------------------------------------------------------------------------
  // Feedback message (App.tsx:145-152)
  // ---------------------------------------------------------------------------

  /** The names of the files joined with ", " (`files.map(f => f.name).join(', ')`). */
  function JoinNames(files: seq<FileMeta>): (joined: string)
    ensures |files| == 1 ==> joined == files[0].name
    ensures files != [] ==> files[0].name <= joined
    decreases |files|
  {
    if files == [] then ""
    else if |files| == 1 then files[0].name
    else JoinNames(files[..|files| - 1]) + ", " + files[|files| - 1].name
  }

  /** The fixed encouragement line of a successful submission. */
  const Encouragement: string := "수고하셨습니다! 훈련을 통해 더욱 성장하시길 축복합니다."

  /**
   * The success message: the joined names when one file was sent, otherwise
   * the first name followed by " 외 ", the count of the other files and "건".
   */
  function SuccessMessage(files: seq<FileMeta>): (message: string)
    requires |files| > 0
    ensures files[0].name <= message
    ensures |files| > 1 ==> |message| > 0 && message[|message| - 1] == '건'
  {
    if |files| == 1 then JoinNames(files)
    else files[0].name + " 외 " + Decimal(|files| - 1) + "건"
  }

  /** A one-file submission is announced by that file's name alone. */
  lemma SingleFileMessage(f: FileMeta)
    ensures SuccessMessage([f]) == f.name
  {
  }

  /** Length of the longest run of digits at the end of `s`. */
  function TrailingDigits(s: string): (n: nat)
    ensures n <= |s| && AllDigits(s[|s| - n..])
    ensures n < |s| ==> !IsDigit(s[|s| - n - 1])
    decreases |s|
  {
    if s == [] || !IsDigit(s[|s| - 1]) then 0
    else TrailingDigits(s[..|s| - 1]) + 1
  }

  /** Digits appended after a non-digit form exactly the trailing run. */
  lemma {:induction false} TrailingDigitsOf(p: string, d: string)
    requires |p| > 0 && !IsDigit(p[|p| - 1]) && AllDigits(d)
    ensures TrailingDigits(p + d) == |d|
    decreases |d|
  {
    if d == [] {
      assert p + d == p;
    } else {
      assert (p + d)[..|p + d| - 1] == p + d[..|d| - 1];
      TrailingDigitsOf(p, d[..|d| - 1]);
    }
  }

  /**
   * Reads a multi-file message back: the text before the last " 외 " that is
   * followed only by digits and "건", and the number those digits spell.
   */
  function ReadSummary(m: string): Option<(string, nat)>
  {
    if |m| == 0 || m[|m| - 1] != '건' then None
    else
      var body := m[..|m| - 1];
      var d := TrailingDigits(body);
      if d == 0 || |body| - d < 3 || body[|body| - d - 3..|body| - d] != " 외 " then None
      else Some((body[..|body| - d - 3], Parse(body[|body| - d..])))
  }

  /**
   * A multi-file message determines the first file's name and how many other
   * files were sent, whatever characters that name contains.
   */
  lemma SummaryRoundTrip(files: seq<FileMeta>)
    requires |files| > 1
    ensures ReadSummary(SuccessMessage(files)) == Some((files[0].name, |files| - 1))
  {
    var name := files[0].name;
    var digits := Decimal(|files| - 1);
    var p := name + " 외 ";
    var m := SuccessMessage(files);
    assert m == p + digits + "건";
    assert m[..|m| - 1] == p + digits;
    TrailingDigitsOf(p, digits);
    var body := p + digits;
    assert body[|body| - |digits| - 3..|body| - |digits|] == " 외 ";
    assert body[..|body| - |digits| - 3] == name;
    assert body[|body| - |digits|..] == digits;
    ParseDecimal(|files| - 1);
  }

  // ---------------------------------------------------------------------------
  // The submit guard (App.tsx:116-121, 172, 319)
  // ---------------------------------------------------------------------------

  /** `isFormValid`: a name, a chosen week and at least one file. */
  predicate IsFormValid(s: Submission): (valid: bool)
    ensures valid <==> s.name != [] && s.weekId != [] && s.files != []
  {
    |s.name| > 0 && |s.weekId| > 0 && |s.files| > 0
  }

  /** The submit button is enabled: the form is valid and an endpoint is configured. */
  predicate SubmitEnabled(s: Submission, url: string)
  {
    IsFormValid(s) && |url| > 0
  }

  /** Why a submit stops before anything happens. */
  datatype SubmitBlock = Incomplete | ConfigMissing

  /**
   * The early returns of the submit handler: first an unfilled field or an
   * empty selection, then a missing endpoint (the administrator alert).
   * It lets a submit through exactly when the button is enabled.
   */
  function SubmitGuard(s: Submission, url: string): (block: Option<SubmitBlock>)
    ensures block.None? <==> SubmitEnabled(s, url)
    ensures block == Some(ConfigMissing) <==> IsFormValid(s) && url == []
  {
    if s.name == [] || s.weekId == [] || s.files == [] then Some(Incomplete)
    else if url == [] then Some(ConfigMissing)
    else None
  }

  /** With the shipped endpoint, only an incomplete form can block a submit. */
  lemma ShippedGuardOnlyChecksForm(s: Submission)
    ensures SubmitGuard(s, GoogleScriptUrl) != Some(ConfigMissing)
    ensures SubmitGuard(s, GoogleScriptUrl).None? <==> IsFormValid(s)
  {
    ShippedEndpointConfigured();
  }

  // ---------------------------------------------------------------------------
  // Transmission (App.tsx:123-157)
  // ---------------------------------------------------------------------------

  /**
   * What happens to one file of a submit: it is read and posted, its reading
   * as base64 fails, or the post is rejected. Either failure ends the submit.
   */
  datatype Outcome = Delivered | ReadFailed | NetworkFailed

  /** The body posted for one file, without the base64 contents. */
  datatype Payload = Payload(name: string, week: string, fileName: string, mimeType: string)

  /** The payloads for `files`, in order, all under the same trainee name and week label. */
  function Payloads(name: string, week: string, files: seq<FileMeta>): (ps: seq<Payload>)
    ensures |ps| == |files|
    ensures forall i :: 0 <= i < |files| ==>
              ps[i] == Payload(name, week, files[i].name, files[i].mimeType)
    decreases |files|
  {
    if files == [] then []
    else Payloads(name, week, files[..|files| - 1])
         + [Payload(name, week, files[|files| - 1].name, files[|files| - 1].mimeType)]
  }

  /** Position of the first file, at or after `i` and before `n`, that is not delivered; `n` if there is none. */
  function FirstFailureFrom(i: nat, n: nat, attempt: nat -> Outcome): (k: nat)
    requires i <= n
    ensures i <= k <= n
    ensures forall j :: i <= j < k ==> attempt(j) == Delivered
    ensures k < n ==> attempt(k) != Delivered
    decreases n - i
  {
    if i == n || attempt(i) != Delivered then i else FirstFailureFrom(i + 1, n, attempt)
  }

  /** The first failure is the one position where all before it succeed and it does not. */
  lemma FirstFailureAt(k: nat, n: nat, attempt: nat -> Outcome)
    requires k < n && attempt(k) != Delivered
    requires forall j :: 0 <= j < k ==> attempt(j) == Delivered
    ensures FirstFailureFrom(0, n, attempt) == k
  {
  }

  /** The payloads that reach the endpoint: those of the files before the first failure. */
  function Sent(name: string, week: string, files: seq<FileMeta>, attempt: nat -> Outcome): (ps: seq<Payload>)
    ensures |ps| <= |files|
    ensures forall i :: 0 <= i < |ps| ==>
              attempt(i) == Delivered && ps[i] == Payload(name, week, files[i].name, files[i].mimeType)
  {
    Payloads(name, week, files[..FirstFailureFrom(0, |files|, attempt)])
  }

  /**
   * Files go out in selection order and a failure cuts the sequence short:
   * what is sent is a prefix of the payloads of all files, and it is all of
   * them exactly when every file is delivered.
   */
  lemma SentIsOrderedPrefix(name: string, week: string, files: seq<FileMeta>, attempt: nat -> Outcome)
    ensures Sent(name, week, files, attempt) <= Payloads(name, week, files)
    ensures |Sent(name, week, files, attempt)| == |files|
        <==> forall j :: 0 <= j < |files| ==> attempt(j) == Delivered
  {
    var k := FirstFailureFrom(0, |files|, attempt);
    var all := Payloads(name, week, files);
    var sent := Sent(name, week, files, attempt);
    assert sent == all[..k];
  }

  /**
   * The transmit loop: reads and posts the files one at a time in selection
   * order, each finished before the next starts, and stops at the first file
   * whose reading or posting fails.
   */
  method Transmit(name: string, week: string, files: seq<FileMeta>, attempt: nat -> Outcome)
    returns (sent: seq<Payload>)
    ensures sent == Sent(name, week, files, attempt)
  {
    sent := [];
    var i := 0;
    while i < |files| && attempt(i) == Delivered
      invariant 0 <= i <= |files|
      invariant forall j :: 0 <= j < i ==> attempt(j) == Delivered
      invariant sent == Payloads(name, week, files[..i])
    {
      var f := files[i];
      assert files[..i + 1] == files[..i] + [f];
      sent := sent + [Payload(name, week, f.name, f.mimeType)];
      i := i + 1;
    }
    if i < |files| {
      FirstFailureAt(i, |files|, attempt);
    } else {
      assert files[..i] == files;
    }
  }

  // ---------------------------------------------------------------------------
  // The form state (App.tsx:9-15, 94-99, 114-170)
  // ---------------------------------------------------------------------------

  /** The form: the submission being filled in, the upload status and the last feedback. */
  class SubmissionForm {
    var name: string
    var weekId: string
    var files: seq<FileMeta>
    var status: UploadStatus
    var feedback: Option<Feedback>
    /** The endpoint the files are posted to. */
    const scriptUrl: string
    /** The weeks offered for selection. */
    const weeks: seq<WeekOption>

    /**
     * Between user actions: no two selected files share an identity, the form
     * is never left uploading and never analysing, an idle form shows no
     * feedback, and a successful one always has some.
     */
    predicate Valid()
      reads this
    {
      DistinctKeys(files)
      && status != Uploading && status != Analyzing
      && (status == Idle ==> feedback.None?)
      && (status == Success ==> feedback.Some?)
    }

    /** The submission record as the form holds it. */
    function Current(): Submission
      reads this
    {
      Submission(name, weekId, files)
    }

    /** An empty form, idle and without feedback. */
    constructor(url: string, catalog: seq<WeekOption>)
      ensures Valid()
      ensures name == [] && weekId == [] && files == []
      ensures status == Idle && feedback == None
      ensures scriptUrl == url && weeks == catalog
    {
      name, weekId, files := [], [], [];
      status, feedback := Idle, None;
      scriptUrl, weeks := url, catalog;
    }

    /** Typing into the name field replaces the name and nothing else. */
    method SetName(value: string)
      requires Valid()
      modifies this
      ensures Valid()
      ensures name == value && weekId == old(weekId) && files == old(files)
      ensures status == old(status) && feedback == old(feedback)
    {
      name := value;
    }

    /** Choosing a week replaces the week id and nothing else. */
    method SelectWeek(id: string)
      requires Valid()
      modifies this
      ensures Valid()
      ensures weekId == id && name == old(name) && files == old(files)
      ensures status == old(status) && feedback == old(feedback)
    {
      weekId := id;
    }

    /**
     * Picking or dropping a batch of files: the admitted files are appended
     * after the prior selection, in batch order, and a notice is returned for
     * each file left out.
     */
    method AddFiles(batch: seq<FileMeta>) returns (notices: seq<Rejection>)
      requires Valid()
      modifies this
      ensures Valid()
      ensures files == old(files) + Accepted(old(files), batch)
      ensures notices == Rejected(old(files), batch)
      ensures name == old(name) && weekId == old(weekId)
      ensures status == old(status) && feedback == old(feedback)
    {
      var valid;
      valid, notices := Admit(files, batch);
      AdmitKeepsKeysDistinct(files, batch);
      if |valid| > 0 {
        files := files + valid;
      } else {
        assert files + valid == files;
      }
    }

    /** Removing the file at `index` from the selection. */
    method RemoveFile(index: int)
      requires Valid()
      modifies this
      ensures Valid()
      ensures files == RemoveAt(old(files), index)
      ensures name == old(name) && weekId == old(weekId)
      ensures status == old(status) && feedback == old(feedback)
    {
      RemoveKeepsKeysDistinct(files, index);
      files := RemoveAt(files, index);
    }

    /**
     * The submit handler. A blocked submit changes nothing. Otherwise the files
     * are posted one after another in selection order under the week's label;
     * the first failure ends the submit in Error with the feedback untouched,
     * and if every file goes through the form ends in Success with the
     * success message and the encouragement.
     */
    method Submit(attempt: nat -> Outcome) returns (blocked: Option<SubmitBlock>, sent: seq<Payload>)
      requires Valid()
      modifies this
      ensures Valid()
      ensures blocked == SubmitGuard(old(Current()), scriptUrl)
      ensures name == old(name) && weekId == old(weekId) && files == old(files)
      ensures blocked.Some? ==> status == old(status) && feedback == old(feedback) && sent == []
      ensures blocked.None? ==> sent == Sent(name, WeekLabel(weeks, weekId), files, attempt)
      ensures blocked.None? ==> status == (if |sent| == |files| then Success else Error)
      ensures blocked.None? && status == Success ==>
                feedback == Some(Feedback(SuccessMessage(files), Encouragement))
      ensures blocked.None? && status == Error ==> feedback == old(feedback)
    {
      sent := [];
      blocked := SubmitGuard(Current(), scriptUrl);
      if blocked.Some? {
        return;
      }
      status := Uploading;
      sent := Transmit(name, WeekLabel(weeks, weekId), files, attempt);
      if |sent| == |files| {
        feedback := Some(Feedback(SuccessMessage(files), Encouragement));
        status := Success;
      } else {
        status := Error;
      }
    }

    /** Starting over: every field cleared, idle, no feedback. */
    method ResetFull()
      modifies this
      ensures Valid()
      ensures name == [] && weekId == [] && files == []
      ensures status == Idle && feedback == None
    {
      name, weekId, files := [], [], [];
      status, feedback := Idle, None;
    }

    /** Submitting another assignment: the selection is cleared, the trainee and week are kept. */
    method ResetFilesOnly()
      modifies this
      ensures Valid()
      ensures name == old(name) && weekId == old(weekId) && files == []
      ensures status == Idle && feedback == None
    {
      files := [];
      status, feedback := Idle, None;
    }
  }
}
