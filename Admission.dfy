/**
 * File admission (App.tsx:17-92): a batch of newly chosen files is screened
 * one file at a time against the size ceiling and against the files already
 * held, and the survivors are appended in batch order. Manual selection and
 * drag-and-drop run the same loop.
 */
module Admission {
  import opened Types
  import Constants

  /** The size ceiling in bytes: `MAX_FILE_SIZE_MB * 1024 * 1024`. */
  const MaxFileBytes: nat := Constants.MaxFileSizeMb * 1024 * 1024

  datatype RejectReason = TooLarge | AlreadySelected

  /** A file left out of the selection, with the reason the user is told. */
  datatype Rejection = Rejection(file: FileMeta, reason: RejectReason)

  /** Some file of `files` has identity `k` (the `files.some(...)` test). */
  predicate HasKey(files: seq<FileMeta>, k: FileKey)
  {
    exists i :: 0 <= i < |files| && Key(files[i]) == k
  }

  /** No two files of `files` share an identity. */
  predicate DistinctKeys(files: seq<FileMeta>)
  {
    forall i, j :: 0 <= i < j < |files| ==> Key(files[i]) != Key(files[j])
  }

  /**
   * The check applied to one incoming file, given the files already held
   * (the prior selection followed by the files accepted so far from this batch):
   * the size test first, then the duplicate test.
   */
  function Verdict(held: seq<FileMeta>, f: FileMeta): (r: Option<RejectReason>)
    ensures r == Some(TooLarge) <==> f.size > MaxFileBytes
    ensures r.None? <==> f.size <= MaxFileBytes && !HasKey(held, Key(f))
  {
    if f.size > MaxFileBytes then Some(TooLarge)
    else if HasKey(held, Key(f)) then Some(AlreadySelected)
    else None
  }

  /** The files of `batch` that the admission loop accepts, in batch order. */
  function Accepted(current: seq<FileMeta>, batch: seq<FileMeta>): (valid: seq<FileMeta>)
    ensures |valid| <= |batch|
    ensures forall i :: 0 <= i < |valid| ==> valid[i] in batch
    ensures forall i :: 0 <= i < |valid| ==> valid[i].size <= MaxFileBytes
    ensures forall i :: 0 <= i < |valid| ==> !HasKey(current, Key(valid[i]))
    decreases |batch|
  {
    if batch == [] then []
    else
      var prior := Accepted(current, batch[..|batch| - 1]);
      var f := batch[|batch| - 1];
      HeldKeys(current, prior, Key(f));
      if Verdict(current + prior, f).None? then prior + [f] else prior
  }

  /** The notices the admission loop raises for the files it leaves out, in batch order. */
  function Rejected(current: seq<FileMeta>, batch: seq<FileMeta>): (notices: seq<Rejection>)
    ensures |Accepted(current, batch)| + |notices| == |batch|
    ensures forall i :: 0 <= i < |notices| ==> notices[i].file in batch
    ensures forall i :: 0 <= i < |notices| ==>
      (notices[i].reason == TooLarge <==> notices[i].file.size > MaxFileBytes)
    decreases |batch|
  {
    if batch == [] then []
    else
      var prior := Accepted(current, batch[..|batch| - 1]);
      var f := batch[|batch| - 1];
      match Verdict(current + prior, f)
      case None => Rejected(current, batch[..|batch| - 1])
      case Some(reason) => Rejected(current, batch[..|batch| - 1]) + [Rejection(f, reason)]
  }

  /**
   * The admission loop: walks the batch in order, sends each file through the
   * size test and then the duplicate test against the prior selection and the
   * files it has accepted so far, and collects the survivors.
   */
  method Admit(current: seq<FileMeta>, batch: seq<FileMeta>) returns (valid: seq<FileMeta>, notices: seq<Rejection>)
    ensures valid == Accepted(current, batch)
    ensures notices == Rejected(current, batch)
  {
    valid, notices := [], [];
    var i := 0;
    while i < |batch|
      invariant 0 <= i <= |batch|
      invariant valid == Accepted(current, batch[..i])
      invariant notices == Rejected(current, batch[..i])
    {
      var f := batch[i];
      assert batch[..i + 1][..i] == batch[..i];
      if f.size > MaxFileBytes {
        notices := notices + [Rejection(f, TooLarge)];
      } else {
        var isDuplicate := HasKey(current, Key(f)) || HasKey(valid, Key(f));
        HeldKeys(current, valid, Key(f));
        if isDuplicate {
          notices := notices + [Rejection(f, AlreadySelected)];
        } else {
          valid := valid + [f];
        }
      }
      i := i + 1;
    }
    assert batch[..i] == batch;
  }

  /** A key is held by a concatenation exactly when one of the parts holds it. */
  lemma HeldKeys(a: seq<FileMeta>, b: seq<FileMeta>, k: FileKey)
    ensures HasKey(a + b, k) <==> HasKey(a, k) || HasKey(b, k)
  {
    if HasKey(a + b, k) {
      var i :| 0 <= i < |a + b| && Key((a + b)[i]) == k;
      if i >= |a| {
        assert Key(b[i - |a|]) == k;
      }
    }
    if HasKey(a, k) {
      var i :| 0 <= i < |a| && Key(a[i]) == k;
      assert Key((a + b)[i]) == k;
    }
    if HasKey(b, k) {
      var i :| 0 <= i < |b| && Key(b[i]) == k;
      assert Key((a + b)[|a| + i]) == k;
    }
  }

  /**
   * Every file of the batch within the size ceiling ends up represented: either
   * it was accepted, or a file with its identity was already held.
   */
  lemma {:induction false} WithinLimitIsCovered(current: seq<FileMeta>, batch: seq<FileMeta>, j: nat)
    requires j < |batch| && batch[j].size <= MaxFileBytes
    ensures HasKey(current + Accepted(current, batch), Key(batch[j]))
    decreases |batch|
  {
    var n := |batch|;
    var prefix := batch[..n - 1];
    var prior := Accepted(current, prefix);
    var k := Key(batch[j]);
    HeldKeys(current, prior, k);
    HeldKeys(current, Accepted(current, batch), k);
    if j < n - 1 {
      WithinLimitIsCovered(current, prefix, j);
      assert prefix[j] == batch[j];
      if HasKey(prior, k) {
        var i :| 0 <= i < |prior| && Key(prior[i]) == k;
        assert Accepted(current, batch)[i] == prior[i];
      }
    } else if Verdict(current + prior, batch[j]).None? {
      assert Accepted(current, batch)[|prior|] == batch[j];
    } else if HasKey(prior, k) {
      var i :| 0 <= i < |prior| && Key(prior[i]) == k;
      assert Accepted(current, batch)[i] == prior[i];
    }
  }

  /**
   * Independent description of the survivors: the file at position i of the batch
   * is kept exactly when it is within the size ceiling, its identity is not in
   * the prior selection and no earlier file of the batch has its identity.
   */
  predicate KeptAt(current: seq<FileMeta>, batch: seq<FileMeta>, i: nat)
    requires i < |batch|
  {
    batch[i].size <= MaxFileBytes && !HasKey(current, Key(batch[i])) && !HasKey(batch[..i], Key(batch[i]))
  }

  /** The files at positions below n that KeptAt selects, in batch order. */
  function KeptUpTo(current: seq<FileMeta>, batch: seq<FileMeta>, n: nat): seq<FileMeta>
    requires n <= |batch|
  {
    if n == 0 then []
    else KeptUpTo(current, batch, n - 1) + (if KeptAt(current, batch, n - 1) then [batch[n - 1]] else [])
  }

  /**
   * The loop's result is that filter: rejecting one file never stops a later one
   * from being judged on its own, and only the first file with a given identity
   * survives, whether its duplicate comes earlier in the batch or was selected before.
   */
  lemma {:induction false} AcceptedIsFilter(current: seq<FileMeta>, batch: seq<FileMeta>, n: nat)
    requires n <= |batch|
    ensures Accepted(current, batch[..n]) == KeptUpTo(current, batch, n)
    decreases n
  {
    if n > 0 {
      assert batch[..n][..n - 1] == batch[..n - 1];
      AcceptedIsFilter(current, batch, n - 1);
      VerdictIsKeptAt(current, batch, n);
    }
  }

  /**
   * The loop's verdict on the file at position n - 1, taken against the prior
   * selection and the survivors before it, lets the file through exactly when
   * KeptAt does.
   */
  lemma VerdictIsKeptAt(current: seq<FileMeta>, batch: seq<FileMeta>, n: nat)
    requires 0 < n <= |batch|
    ensures Verdict(current + Accepted(current, batch[..n - 1]), batch[n - 1]).None?
        <==> KeptAt(current, batch, n - 1)
  {
    var prefix := batch[..n - 1];
    var prior := Accepted(current, prefix);
    var f := batch[n - 1];
    var k := Key(f);
    HeldKeys(current, prior, k);
    if f.size <= MaxFileBytes {
      if HasKey(prior, k) {
        var i :| 0 <= i < |prior| && Key(prior[i]) == k;
        var j :| 0 <= j < |prefix| && prefix[j] == prior[i];
        assert Key(prefix[j]) == k;
      }
      if HasKey(prefix, k) && !HasKey(current, k) {
        var j :| 0 <= j < |prefix| && Key(prefix[j]) == k;
        WithinLimitIsCovered(current, prefix, j);
      }
    }
  }

  /** The notice for the file at position i: too large above the ceiling, otherwise already selected. */
  function NoticeAt(batch: seq<FileMeta>, i: nat): Rejection
    requires i < |batch|
  {
    Rejection(batch[i], if batch[i].size > MaxFileBytes then TooLarge else AlreadySelected)
  }

  /** The notices for the files at positions below n that KeptAt leaves out, in batch order. */
  function NoticedUpTo(current: seq<FileMeta>, batch: seq<FileMeta>, n: nat): seq<Rejection>
    requires n <= |batch|
  {
    if n == 0 then []
    else NoticedUpTo(current, batch, n - 1) + (if KeptAt(current, batch, n - 1) then [] else [NoticeAt(batch, n - 1)])
  }

  /**
   * The loop raises exactly one notice for each file the filter leaves out, in
   * batch order, naming that file; the reason is "already selected" exactly
   * for a file within the ceiling whose identity the prior selection or an
   * earlier batch file has.
   */
  lemma {:induction false} RejectedIsFilter(current: seq<FileMeta>, batch: seq<FileMeta>, n: nat)
    requires n <= |batch|
    ensures Rejected(current, batch[..n]) == NoticedUpTo(current, batch, n)
    decreases n
  {
    if n > 0 {
      assert batch[..n][..n - 1] == batch[..n - 1];
      RejectedIsFilter(current, batch, n - 1);
      VerdictIsKeptAt(current, batch, n);
    }
  }

  lemma {:induction false} NoticedUpToContains(current: seq<FileMeta>, batch: seq<FileMeta>, i: nat, n: nat)
    requires i < n <= |batch| && !KeptAt(current, batch, i)
    ensures NoticeAt(batch, i) in NoticedUpTo(current, batch, n)
    decreases n
  {
    if i < n - 1 {
      NoticedUpToContains(current, batch, i, n - 1);
    }
  }

  /** Every file of the batch is either admitted or named in a notice with its reason. */
  lemma EveryFileAccountedFor(current: seq<FileMeta>, batch: seq<FileMeta>, i: nat)
    requires i < |batch|
    ensures KeptAt(current, batch, i) ==> batch[i] in Accepted(current, batch)
    ensures !KeptAt(current, batch, i) ==> NoticeAt(batch, i) in Rejected(current, batch)
  {
    assert batch[..|batch|] == batch;
    if KeptAt(current, batch, i) {
      AcceptedIsFilter(current, batch, |batch|);
      KeptUpToContains(current, batch, i, |batch|);
    } else {
      RejectedIsFilter(current, batch, |batch|);
      NoticedUpToContains(current, batch, i, |batch|);
    }
  }

  /** The ceiling is 10 MiB, and no file above it is ever admitted. */
  lemma OversizeNeverAdmitted(current: seq<FileMeta>, batch: seq<FileMeta>, f: FileMeta)
    requires f.size > MaxFileBytes
    ensures MaxFileBytes == 10485760
    ensures f !in Accepted(current, batch)
  {
  }

  /** A file at the ceiling exactly, with an identity not yet seen, is accepted. */
  lemma AtLimitAccepted(current: seq<FileMeta>, batch: seq<FileMeta>, i: nat)
    requires i < |batch| && batch[i].size == MaxFileBytes
    requires !HasKey(current, Key(batch[i])) && !HasKey(batch[..i], Key(batch[i]))
    ensures batch[i] in Accepted(current, batch)
  {
    AcceptedIsFilter(current, batch, |batch|);
    assert batch[..|batch|] == batch;
    KeptUpToContains(current, batch, i, |batch|);
  }

  lemma {:induction false} KeptUpToContains(current: seq<FileMeta>, batch: seq<FileMeta>, i: nat, n: nat)
    requires i < n <= |batch| && KeptAt(current, batch, i)
    ensures batch[i] in KeptUpTo(current, batch, n)
    decreases n
  {
    if i < n - 1 {
      KeptUpToContains(current, batch, i, n - 1);
    }
  }

  /** Admission keeps identities distinct: if the selection had no duplicates, it still has none. */
  lemma {:induction false} AdmitKeepsKeysDistinct(current: seq<FileMeta>, batch: seq<FileMeta>)
    requires DistinctKeys(current)
    ensures DistinctKeys(current + Accepted(current, batch))
    decreases |batch|
  {
    if batch != [] {
      var prefix := batch[..|batch| - 1];
      var prior := Accepted(current, prefix);
      var f := batch[|batch| - 1];
      AdmitKeepsKeysDistinct(current, prefix);
      if Verdict(current + prior, f).None? {
        var s := current + prior;
        assert current + Accepted(current, batch) == s + [f];
        forall i, j | 0 <= i < j < |s + [f]|
          ensures Key((s + [f])[i]) != Key((s + [f])[j])
        {
          if j == |s| {
            assert (s + [f])[i] == s[i];
          } else {
            assert (s + [f])[i] == s[i] && (s + [f])[j] == s[j];
          }
        }
      }
    }
  }

  /**
   * Two batches admitted one after the other give the same selection as the
   * two admitted as one batch.
   */
  lemma {:induction false} AdmitInTwoSteps(current: seq<FileMeta>, first: seq<FileMeta>, second: seq<FileMeta>)
    ensures Accepted(current, first + second)
         == Accepted(current, first) + Accepted(current + Accepted(current, first), second)
    decreases |second|
  {
    var once := Accepted(current, first);
    if second == [] {
      assert first + second == first;
    } else {
      var n := |second|;
      assert (first + second)[..|first + second| - 1] == first + second[..n - 1];
      AdmitInTwoSteps(current, first, second[..n - 1]);
      var rest := Accepted(current + once, second[..n - 1]);
      var f := second[n - 1];
      assert (first + second)[|first + second| - 1] == f;
      assert (current + once) + rest == current + (once + rest);
      assert Verdict(current + (once + rest), f) == Verdict((current + once) + rest, f);
    }
  }
}
