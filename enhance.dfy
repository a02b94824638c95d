/**
  The enhancement workspace (components/Enhance.tsx): a list of jobs, one per
  uploaded photo, each moved through idle -> processing -> completed | error
  by id-keyed patches, a sequential "enhance all" run over a snapshot of the
  pending jobs, and the plan of the archive that "download all" builds.
 */
module Enhance {
  import opened Types
  import Text

  const GenerationFailed: string := "Generation failed"
  const ArchiveFolder: string := "kana-enhanced"
  const ArchiveName: string := "kana_enhanced_images.zip"

  /** The settings the workspace starts with. */
  const DefaultSettings: EnhanceSettings := EnhanceSettings("1:1", "White", "#ffffff", "", None)

  /** createJob: a fresh job is idle with neither a result nor an error. */
  function CreateJob(id: string, file: File, previewUrl: string): (j: EnhanceJob) {
    EnhanceJob(id, file, previewUrl, Idle, None, None)
  }

  /** The jobs created for the chosen files, in file order; ids and preview URLs are inputs. */
  function NewJobs(files: seq<File>, ids: seq<string>, previews: seq<string>): (r: seq<EnhanceJob>)
    requires |ids| == |files| && |previews| == |files|
    ensures |r| == |files|
    ensures forall k :: 0 <= k < |r| ==>
      r[k].id == ids[k] && r[k].originalFile == files[k] && r[k].previewUrl == previews[k]
      && r[k].status == Idle && r[k].resultUrl.None? && r[k].error.None?
  {
    seq(|files|, k requires 0 <= k < |files| => CreateJob(ids[k], files[k], previews[k]))
  }

  function Ids(jobs: seq<EnhanceJob>): (r: seq<string>)
    ensures |r| == |jobs| && forall k :: 0 <= k < |jobs| ==> r[k] == jobs[k].id
  {
    seq(|jobs|, k requires 0 <= k < |jobs| => jobs[k].id)
  }

  // ---------------------------------------------------------------------
  // Removal: prev.filter(j => j.id !== id)

  function WithoutJob(jobs: seq<EnhanceJob>, id: string): (r: seq<EnhanceJob>)
    ensures |r| <= |jobs|
    ensures forall j :: j in r <==> j in jobs && j.id != id
  {
    if jobs == [] then []
    else if jobs[0].id == id then WithoutJob(jobs[1..], id)
    else [jobs[0]] + WithoutJob(jobs[1..], id)
  }

  /** Removal works piecewise, so the kept jobs stay in their order. */
  lemma {:induction false} WithoutJobAppend(a: seq<EnhanceJob>, b: seq<EnhanceJob>, id: string)
    ensures WithoutJob(a + b, id) == WithoutJob(a, id) + WithoutJob(b, id)
  {
    if a != [] {
      assert (a + b)[0] == a[0];
      assert (a + b)[1..] == a[1..] + b;
      WithoutJobAppend(a[1..], b, id);
    } else {
      assert a + b == b;
    }
  }

  /** Removing an id that is not in the list changes nothing. */
  lemma {:induction false} WithoutAbsentJob(jobs: seq<EnhanceJob>, id: string)
    requires id !in Ids(jobs)
    ensures WithoutJob(jobs, id) == jobs
  {
    if jobs != [] {
      assert Ids(jobs[1..]) == Ids(jobs)[1..];
      WithoutAbsentJob(jobs[1..], id);
    }
  }

  // ---------------------------------------------------------------------
  // Status patches: prev.map(j => j.id === id ? { ...j, ... } : j)

  /** The record fragments that processJob spreads over a job. */
  datatype Patch = ToProcessing | ToCompleted(url: string) | ToFailed

  /** The outcome of one call of the remote enhancer: the image URL, or a rejection. */
  datatype Outcome = Enhanced(url: string) | Rejected

  function OutcomePatch(o: Outcome): Patch {
    match o
    case Enhanced(url) => ToCompleted(url)
    case Rejected => ToFailed
  }

  /** The job with a patch spread over it: the fields the patch does not name keep their old values. */
  function ApplyPatch(j: EnhanceJob, p: Patch): (r: EnhanceJob)
    ensures r.id == j.id && r.originalFile == j.originalFile && r.previewUrl == j.previewUrl
  {
    match p
    case ToProcessing => j.(status := Processing)
    case ToCompleted(url) => j.(status := Completed, resultUrl := Some(url))
    case ToFailed => j.(status := Error, error := Some(GenerationFailed))
  }

  /** The effect of one processJob on a job: set to processing, then settled by the outcome. */
  function Settle(j: EnhanceJob, o: Outcome): EnhanceJob {
    ApplyPatch(ApplyPatch(j, ToProcessing), OutcomePatch(o))
  }

  function Patched(jobs: seq<EnhanceJob>, id: string, p: Patch): (r: seq<EnhanceJob>)
    ensures |r| == |jobs|
  {
    if jobs == [] then []
    else [if jobs[0].id == id then ApplyPatch(jobs[0], p) else jobs[0]] + Patched(jobs[1..], id, p)
  }

  /** A patch touches exactly the jobs carrying its id and leaves every other job as it was. */
  lemma {:induction false} PatchedAt(jobs: seq<EnhanceJob>, id: string, p: Patch, k: nat)
    requires k < |jobs|
    ensures Patched(jobs, id, p)[k] == if jobs[k].id == id then ApplyPatch(jobs[k], p) else jobs[k]
  {
    if k > 0 {
      PatchedAt(jobs[1..], id, p, k - 1);
    }
  }

  /** A patch keeps the list's ids, so it can neither add nor resurrect a job. */
  lemma PatchedKeepsIds(jobs: seq<EnhanceJob>, id: string, p: Patch)
    ensures Ids(Patched(jobs, id, p)) == Ids(jobs)
  {
    forall k | 0 <= k < |jobs|
      ensures Ids(Patched(jobs, id, p))[k] == Ids(jobs)[k]
    {
      PatchedAt(jobs, id, p, k);
    }
  }

  /** A patch for an id that is not in the list leaves the list unchanged. */
  lemma PatchedAbsent(jobs: seq<EnhanceJob>, id: string, p: Patch)
    requires id !in Ids(jobs)
    ensures Patched(jobs, id, p) == jobs
  {
    forall k | 0 <= k < |jobs|
      ensures Patched(jobs, id, p)[k] == jobs[k]
    {
      PatchedAt(jobs, id, p, k);
    }
  }

  /** A job removed while its enhancement was in flight stays removed when the result arrives. */
  lemma NoResurrection(jobs: seq<EnhanceJob>, id: string, o: Outcome)
    ensures id !in Ids(Patched(WithoutJob(jobs, id), id, OutcomePatch(o)))
    ensures Patched(WithoutJob(jobs, id), id, OutcomePatch(o)) == WithoutJob(jobs, id)
  {
    var kept := WithoutJob(jobs, id);
    assert id !in Ids(kept);
    PatchedAbsent(kept, id, OutcomePatch(o));
  }

  /**
    The patches spread the old record: a failure keeps a result URL from an
    earlier run and a success keeps an earlier error, so the status does not
    determine which of the two optional fields are present.
   */
  lemma StaleFieldsSurvive(j: EnhanceJob, url: string)
    ensures Settle(j, Rejected).status == Error && Settle(j, Rejected).resultUrl == j.resultUrl
    ensures Settle(j, Enhanced(url)).status == Completed && Settle(j, Enhanced(url)).error == j.error
    ensures var regenerated := Settle(Settle(j, Enhanced(url)), Rejected);
      regenerated.status == Error && regenerated.resultUrl == Some(url)
  {
  }

  // ---------------------------------------------------------------------
  // "Enhance all"

  predicate IsPending(j: EnhanceJob) {
    j.status == Idle || j.status == Error
  }

  /** jobs.filter(j => j.status === 'idle' || j.status === 'error') */
  function Pending(jobs: seq<EnhanceJob>): (r: seq<EnhanceJob>)
    ensures |r| <= |jobs|
  {
    if jobs == [] then []
    else if IsPending(jobs[|jobs| - 1]) then Pending(jobs[..|jobs| - 1]) + [jobs[|jobs| - 1]]
    else Pending(jobs[..|jobs| - 1])
  }

  /** The list after processJob is run, one job after the other, on each id of ids. */
  function RunBatch(jobs: seq<EnhanceJob>, ids: seq<string>, outcomes: seq<Outcome>): (r: seq<EnhanceJob>)
    requires |outcomes| == |ids|
    ensures |r| == |jobs|
  {
    if ids == [] then jobs
    else
      var last := |ids| - 1;
      var before := RunBatch(jobs, ids[..last], outcomes[..last]);
      Patched(Patched(before, ids[last], ToProcessing), ids[last], OutcomePatch(outcomes[last]))
  }

  lemma RunBatchStep(jobs: seq<EnhanceJob>, ids: seq<string>, outcomes: seq<Outcome>, id: string, o: Outcome)
    requires |outcomes| == |ids|
    ensures RunBatch(jobs, ids + [id], outcomes + [o])
         == Patched(Patched(RunBatch(jobs, ids, outcomes), id, ToProcessing), id, OutcomePatch(o))
  {
    assert (ids + [id])[..|ids|] == ids;
    assert (outcomes + [o])[..|ids|] == outcomes;
  }

  /** The same run as seen by a single job: it is settled once per occurrence of its id. */
  function RunOne(j: EnhanceJob, ids: seq<string>, outcomes: seq<Outcome>): EnhanceJob
    requires |outcomes| == |ids|
  {
    if ids == [] then j
    else
      var last := |ids| - 1;
      var before := RunOne(j, ids[..last], outcomes[..last]);
      if ids[last] == j.id then Settle(before, outcomes[last]) else before
  }

  lemma {:induction false} RunBatchAt(jobs: seq<EnhanceJob>, ids: seq<string>, outcomes: seq<Outcome>, p: nat)
    requires |outcomes| == |ids| && p < |jobs|
    ensures RunBatch(jobs, ids, outcomes)[p] == RunOne(jobs[p], ids, outcomes)
    ensures RunOne(jobs[p], ids, outcomes).id == jobs[p].id
  {
    if ids != [] {
      var last := |ids| - 1;
      var before := RunBatch(jobs, ids[..last], outcomes[..last]);
      RunBatchAt(jobs, ids[..last], outcomes[..last], p);
      PatchedAt(before, ids[last], ToProcessing, p);
      PatchedAt(Patched(before, ids[last], ToProcessing), ids[last], OutcomePatch(outcomes[last]), p);
    }
  }

  /** A job whose id is absent from the run is untouched; one whose id occurs once, at k, is settled by the k-th outcome. */
  lemma {:induction false} RunOneOnce(j: EnhanceJob, ids: seq<string>, outcomes: seq<Outcome>, k: nat)
    requires |outcomes| == |ids| && k <= |ids|
    requires forall m :: 0 <= m < |ids| && m != k ==> ids[m] != j.id
    ensures k == |ids| ==> RunOne(j, ids, outcomes) == j
    ensures k < |ids| && ids[k] == j.id ==> RunOne(j, ids, outcomes) == Settle(j, outcomes[k])
    ensures k < |ids| && ids[k] != j.id ==> RunOne(j, ids, outcomes) == j
  {
    if ids != [] {
      var last := |ids| - 1;
      if k == |ids| || k == last {
        RunOneOnce(j, ids[..last], outcomes[..last], last);
      } else {
        RunOneOnce(j, ids[..last], outcomes[..last], k);
      }
      RunOneIdentity(j, ids[..last], outcomes[..last]);
    }
  }

  lemma {:induction false} RunOneIdentity(j: EnhanceJob, ids: seq<string>, outcomes: seq<Outcome>)
    requires |outcomes| == |ids|
    ensures RunOne(j, ids, outcomes).id == j.id
  {
    if ids != [] {
      var last := |ids| - 1;
      RunOneIdentity(j, ids[..last], outcomes[..last]);
    }
  }

  predicate DistinctIds(jobs: seq<EnhanceJob>) {
    forall a, b :: 0 <= a < b < |jobs| ==> jobs[a].id != jobs[b].id
  }

  /** The snapshot holds exactly the idle and failed jobs. */
  lemma {:induction false} PendingMembers(jobs: seq<EnhanceJob>)
    ensures forall j :: j in Pending(jobs) <==> j in jobs && IsPending(j)
  {
    if jobs != [] {
      var n := |jobs|;
      PendingMembers(jobs[..n - 1]);
      assert jobs == jobs[..n - 1] + [jobs[n - 1]];
    }
  }

  /** The pending jobs of a concatenation are those of each part, in order. */
  lemma {:induction false} PendingAppend(a: seq<EnhanceJob>, b: seq<EnhanceJob>)
    ensures Pending(a + b) == Pending(a) + Pending(b)
    decreases |b|
  {
    if b == [] {
      assert a + b == a;
    } else {
      var ab := a + b;
      var last := |b| - 1;
      assert ab[..|ab| - 1] == a + b[..last];
      assert ab[|ab| - 1] == b[last];
      PendingAppend(a, b[..last]);
    }
  }

  /** Pending jobs taken from a slice that does not contain position p have other ids than job p. */
  lemma PendingIdsOutside(jobs: seq<EnhanceJob>, lo: nat, hi: nat, p: nat)
    requires DistinctIds(jobs) && lo <= hi <= |jobs| && p < |jobs| && !(lo <= p < hi)
    ensures forall m :: 0 <= m < |Pending(jobs[lo..hi])| ==> Pending(jobs[lo..hi])[m].id != jobs[p].id
  {
    forall m | 0 <= m < |Pending(jobs[lo..hi])|
      ensures Pending(jobs[lo..hi])[m].id != jobs[p].id
    {
      var q := Pending(jobs[lo..hi])[m];
      PendingMembers(jobs[lo..hi]);
      assert q in jobs[lo..hi];
      var i :| 0 <= i < hi - lo && jobs[lo..hi][i] == q;
      assert jobs[lo + i] == q;
    }
  }

  /** The snapshot around position p: the pending jobs before it, job p if pending, then the pending jobs after it. */
  lemma PendingSplit(jobs: seq<EnhanceJob>, p: nat)
    requires p < |jobs|
    ensures Pending(jobs) == Pending(jobs[..p]) + ((if IsPending(jobs[p]) then [jobs[p]] else []) + Pending(jobs[p + 1..]))
  {
    var pre, post := jobs[..p], jobs[p + 1..];
    calc {
      Pending(jobs);
    == { SplitAt(jobs, p); }
      Pending(pre + ([jobs[p]] + post));
    == { PendingAppend(pre, [jobs[p]] + post); }
      Pending(pre) + Pending([jobs[p]] + post);
    == { PendingAppend([jobs[p]], post); PendingSingle(jobs[p]); }
      Pending(pre) + ((if IsPending(jobs[p]) then [jobs[p]] else []) + Pending(post));
    }
  }

  lemma PendingSingle(j: EnhanceJob)
    ensures Pending([j]) == if IsPending(j) then [j] else []
  {
    assert [j][..0] == [];
  }

  /** Where a pending job sits in the snapshot: after the pending jobs before it. */
  lemma PendingIndex(jobs: seq<EnhanceJob>, p: nat)
    requires p < |jobs| && DistinctIds(jobs)
    ensures IsPending(jobs[p]) ==>
      var k := |Pending(jobs[..p])|;
      k < |Pending(jobs)| && Pending(jobs)[k] == jobs[p]
      && forall m :: 0 <= m < |Pending(jobs)| && m != k ==> Pending(jobs)[m].id != jobs[p].id
    ensures !IsPending(jobs[p]) ==>
      forall m :: 0 <= m < |Pending(jobs)| ==> Pending(jobs)[m].id != jobs[p].id
  {
    PendingSplit(jobs, p);
    assert jobs[0..p] == jobs[..p] && jobs[p + 1..|jobs|] == jobs[p + 1..];
    PendingIdsOutside(jobs, 0, p, p);
    PendingIdsOutside(jobs, p + 1, |jobs|, p);
  }

  /**
    With distinct ids, "enhance all" settles every job that was pending when
    it started with its own outcome (the k-th pending job takes the k-th
    outcome) and leaves every other job exactly as it was.
   */
  lemma BatchEffect(jobs: seq<EnhanceJob>, outcomes: seq<Outcome>, p: nat)
    requires DistinctIds(jobs) && p < |jobs|
    requires |outcomes| == |Pending(jobs)|
    ensures var r := RunBatch(jobs, Ids(Pending(jobs)), outcomes);
      if IsPending(jobs[p])
      then |Pending(jobs[..p])| < |outcomes| && r[p] == Settle(jobs[p], outcomes[|Pending(jobs[..p])|])
      else r[p] == jobs[p]
  {
    var ids := Ids(Pending(jobs));
    RunBatchAt(jobs, ids, outcomes, p);
    PendingIndex(jobs, p);
    if IsPending(jobs[p]) {
      RunOneOnce(jobs[p], ids, outcomes, |Pending(jobs[..p])|);
    } else {
      RunOneOnce(jobs[p], ids, outcomes, |ids|);
    }
  }

  // ---------------------------------------------------------------------
  // Downloads

  /** One file of the archive: its name inside the folder and the job it comes from. */
  datatype Entry = Entry(name: string, jobId: string)

  datatype Archive = Archive(fileName: string, folder: string, entries: seq<Entry>)

  predicate IsDownloadable(j: EnhanceJob) {
    j.status == Completed && Truthy(j.resultUrl)
  }

  /** jobs.filter(j => j.status === 'completed' && j.resultUrl) */
  function Downloadable(jobs: seq<EnhanceJob>): (r: seq<EnhanceJob>)
    ensures |r| <= |jobs|
    ensures forall j :: j in r <==> j in jobs && IsDownloadable(j)
  {
    if jobs == [] then []
    else if IsDownloadable(jobs[0]) then [jobs[0]] + Downloadable(jobs[1..])
    else Downloadable(jobs[1..])
  }

  function EntryName(k: nat): string {
    "enhanced_" + Text.NatToString(k) + ".png"
  }

  /** The name the single download from the comparison view gets. */
  function SingleDownloadName(id: string): string {
    "enhanced-" + id + ".png"
  }

  lemma EntryNamesDistinct(a: nat, b: nat)
    ensures EntryName(a) == EntryName(b) ==> a == b
  {
    if EntryName(a) == EntryName(b) {
      var sa, sb := Text.NatToString(a), Text.NatToString(b);
      assert |sa| == |sb|;
      assert sa == EntryName(a)[9..9 + |sa|];
      assert sb == EntryName(b)[9..9 + |sb|];
      Text.NatToStringInjective(a, b);
    }
  }

  /**
    The entries the archive receives from the downloadable jobs from position
    `from` on: the (k+1)-th downloadable job becomes `enhanced_<k+1>.png`,
    unless compositing its result yields no blob, in which case it is skipped
    and its number is not reused.
   */
  function EntriesFrom(done: seq<EnhanceJob>, from: nat, noBlob: set<string>): (r: seq<Entry>)
    requires from <= |done|
    ensures |r| <= |done| - from
    ensures forall e :: e in r ==>
      exists k :: from <= k < |done| && HasBlob(done[k], noBlob) && e == Entry(EntryName(k + 1), done[k].id)
    decreases |done| - from
  {
    if from == |done| then []
    else
      var rest := EntriesFrom(done, from + 1, noBlob);
      if !HasBlob(done[from], noBlob) then rest
      else [Entry(EntryName(from + 1), done[from].id)] + rest
  }

  /** A downloadable job yields an archive entry when its result composites to a blob. */
  predicate HasBlob(j: EnhanceJob, noBlob: set<string>) {
    Truthy(j.resultUrl) && j.resultUrl.value !in noBlob
  }

  /** The positions, from `from` on and in increasing order, of the jobs that yield a blob. */
  function BlobPositions(done: seq<EnhanceJob>, from: nat, noBlob: set<string>): (ks: seq<nat>)
    requires from <= |done|
    ensures forall i :: 0 <= i < |ks| ==> from <= ks[i] < |done| && HasBlob(done[ks[i]], noBlob)
    ensures forall i, j :: 0 <= i < j < |ks| ==> ks[i] < ks[j]
    decreases |done| - from
  {
    if from == |done| then []
    else if HasBlob(done[from], noBlob) then [from] + BlobPositions(done, from + 1, noBlob)
    else BlobPositions(done, from + 1, noBlob)
  }

  /** No job with a blob is missing from the positions. */
  lemma {:induction false} BlobPositionsComplete(done: seq<EnhanceJob>, from: nat, noBlob: set<string>, k: nat)
    requires from <= k < |done| && HasBlob(done[k], noBlob)
    ensures k in BlobPositions(done, from, noBlob)
    decreases k - from
  {
    if from < k {
      BlobPositionsComplete(done, from + 1, noBlob, k);
    }
  }

  /** The archive's entries follow the job list: the i-th entry is the i-th job with a blob, under its own number. */
  predicate InJobOrder(done: seq<EnhanceJob>, from: nat, noBlob: set<string>)
    requires from <= |done|
  {
    var r, ks := EntriesFrom(done, from, noBlob), BlobPositions(done, from, noBlob);
    && |r| == |ks|
    && forall i :: 0 <= i < |r| ==> r[i] == Entry(EntryName(ks[i] + 1), done[ks[i]].id)
  }

  lemma {:induction false} EntriesInJobOrder(done: seq<EnhanceJob>, from: nat, noBlob: set<string>)
    requires from <= |done|
    ensures InJobOrder(done, from, noBlob)
    decreases |done| - from
  {
    if from < |done| {
      EntriesInJobOrder(done, from + 1, noBlob);
      if HasBlob(done[from], noBlob) {
        InJobOrderCons(done, from, noBlob);
      }
    }
  }

  /** A job with a blob, put in front of entries in job order, keeps them in job order. */
  lemma InJobOrderCons(done: seq<EnhanceJob>, from: nat, noBlob: set<string>)
    requires from < |done| && HasBlob(done[from], noBlob) && InJobOrder(done, from + 1, noBlob)
    ensures InJobOrder(done, from, noBlob)
  {
    var rest, ks' := EntriesFrom(done, from + 1, noBlob), BlobPositions(done, from + 1, noBlob);
    var r, ks := EntriesFrom(done, from, noBlob), BlobPositions(done, from, noBlob);
    assert r == [Entry(EntryName(from + 1), done[from].id)] + rest;
    assert ks == [from] + ks';
    forall i | 1 <= i < |r|
      ensures r[i] == Entry(EntryName(ks[i] + 1), done[ks[i]].id)
    {
      assert r[i] == rest[i - 1] && ks[i] == ks'[i - 1];
    }
  }

  /** Every downloadable job whose result composites to a blob gets its numbered entry. */
  lemma EntriesComplete(done: seq<EnhanceJob>, from: nat, noBlob: set<string>)
    requires from <= |done|
    ensures forall k :: from <= k < |done| && HasBlob(done[k], noBlob) ==>
      Entry(EntryName(k + 1), done[k].id) in EntriesFrom(done, from, noBlob)
  {
    forall k | from <= k < |done| && HasBlob(done[k], noBlob)
      ensures Entry(EntryName(k + 1), done[k].id) in EntriesFrom(done, from, noBlob)
    {
      EntryOfBlobJob(done, from, noBlob, k);
    }
  }

  lemma EntryOfBlobJob(done: seq<EnhanceJob>, from: nat, noBlob: set<string>, k: nat)
    requires from <= k < |done| && HasBlob(done[k], noBlob)
    ensures Entry(EntryName(k + 1), done[k].id) in EntriesFrom(done, from, noBlob)
  {
    var r, ks := EntriesFrom(done, from, noBlob), BlobPositions(done, from, noBlob);
    EntriesInJobOrder(done, from, noBlob);
    BlobPositionsComplete(done, from, noBlob, k);
    var i :| 0 <= i < |ks| && ks[i] == k;
    assert r[i] == Entry(EntryName(k + 1), done[k].id);
  }

  /** Entry names in the archive never collide. */
  lemma {:induction false} EntriesDistinct(done: seq<EnhanceJob>, from: nat, noBlob: set<string>)
    requires from <= |done|
    ensures forall a, b :: 0 <= a < b < |EntriesFrom(done, from, noBlob)| ==>
      EntriesFrom(done, from, noBlob)[a].name != EntriesFrom(done, from, noBlob)[b].name
    decreases |done| - from
  {
    if from < |done| {
      EntriesDistinct(done, from + 1, noBlob);
      var rest := EntriesFrom(done, from + 1, noBlob);
      forall e | e in rest ensures e.name != EntryName(from + 1) {
        var k :| from + 1 <= k < |done| && e == Entry(EntryName(k + 1), done[k].id);
        EntryNamesDistinct(k + 1, from + 1);
      }
    }
  }

  class EnhanceWorkspace {
    var jobs: seq<EnhanceJob>
    var settings: EnhanceSettings
    var framePreview: Option<string>
    var isProcessing: bool
    var comparisonJob: Option<EnhanceJob>

    constructor ()
      ensures jobs == [] && settings == DefaultSettings && framePreview.None?
      ensures !isProcessing && comparisonJob.None?
    {
      jobs := [];
      settings := DefaultSettings;
      framePreview := None;
      isProcessing := false;
      comparisonJob := None;
    }

    /** handleFileUpload: one idle job per chosen file, appended after the existing ones. */
    method UploadFiles(files: seq<File>, ids: seq<string>, previews: seq<string>)
      requires |ids| == |files| && |previews| == |files|
      modifies this`jobs
      ensures jobs == old(jobs) + NewJobs(files, ids, previews)
      ensures jobs[..|old(jobs)|] == old(jobs)
    {
      jobs := jobs + NewJobs(files, ids, previews);
    }

    /** handleFrameUpload: the first chosen file becomes the frame overlay. */
    method UploadFrame(files: seq<File>, preview: string)
      modifies this`settings, this`framePreview
      ensures files != [] ==> settings == old(settings).(frameFile := Some(files[0])) && framePreview == Some(preview)
      ensures files == [] ==> settings == old(settings) && framePreview == old(framePreview)
    {
      if files != [] {
        settings := settings.(frameFile := Some(files[0]));
        framePreview := Some(preview);
      }
    }

    /** The frame's remove button. */
    method ClearFrame()
      modifies this`settings, this`framePreview
      ensures settings == old(settings).(frameFile := None) && framePreview.None?
    {
      settings := settings.(frameFile := None);
      framePreview := None;
    }

    method SetAspectRatio(ratio: string)
      modifies this`settings
      ensures settings == old(settings).(aspectRatio := ratio)
    {
      settings := settings.(aspectRatio := ratio);
    }

    method SetBackground(option: string)
      modifies this`settings
      ensures settings == old(settings).(backgroundColor := option)
    {
      settings := settings.(backgroundColor := option);
    }

    method SetCustomBackground(color: string)
      modifies this`settings
      ensures settings == old(settings).(customBackgroundColor := color)
    {
      settings := settings.(customBackgroundColor := color);
    }

    method SetObjectColor(color: string)
      modifies this`settings
      ensures settings == old(settings).(objectColor := color)
    {
      settings := settings.(objectColor := color);
    }

    /** removeJob: every job with that id goes; the rest keep their order. */
    method RemoveJob(id: string)
      modifies this`jobs
      ensures jobs == WithoutJob(old(jobs), id)
      ensures id !in Ids(jobs)
    {
      jobs := WithoutJob(jobs, id);
      assert id !in Ids(jobs);
    }

    /**
      First step of processJob(job): the job with that id, if still present,
      becomes processing; the remote enhancer is asked with the job's file and
      the settings the caller holds.
     */
    method StartProcessing(job: EnhanceJob, current: EnhanceSettings) returns (file: File, used: EnhanceSettings)
      modifies this`jobs
      ensures jobs == Patched(old(jobs), job.id, ToProcessing)
      ensures file == job.originalFile && used == current
    {
      jobs := Patched(jobs, job.id, ToProcessing);
      file, used := job.originalFile, current;
    }

    /** Last step of processJob: the outcome is spread over the job with that id, if it is still there. */
    method FinishProcessing(id: string, outcome: Outcome)
      modifies this`jobs
      ensures jobs == Patched(old(jobs), id, OutcomePatch(outcome))
      ensures id !in Ids(old(jobs)) ==> jobs == old(jobs)
    {
      PatchedAbsentIf(jobs, id, OutcomePatch(outcome));
      jobs := Patched(jobs, id, OutcomePatch(outcome));
    }

    /**
      handleEnhanceAll: the jobs pending at the call are processed one after
      the other, in list order, each awaited before the next; the batch uses
      the settings of the render that started it. Returns the ids sent to the
      enhancer, in order.
     */
    method EnhanceAll(outcomes: seq<Outcome>) returns (sent: seq<string>)
      requires |outcomes| == |Pending(jobs)|
      modifies this`jobs, this`isProcessing
      ensures sent == Ids(Pending(old(jobs)))
      ensures jobs == RunBatch(old(jobs), sent, outcomes)
      ensures !isProcessing
    {
      isProcessing := true;
      ghost var start := jobs;
      var snapshot := Pending(jobs);
      var batchSettings := settings;
      sent := [];
      var k := 0;
      while k < |snapshot|
        invariant 0 <= k <= |snapshot| == |outcomes|
        invariant sent == Ids(snapshot)[..k]
        invariant jobs == RunBatch(start, sent, outcomes[..k])
      {
        var job := snapshot[k];
        var file, used := StartProcessing(job, batchSettings);
        FinishProcessing(job.id, outcomes[k]);
        RunBatchStep(start, sent, outcomes[..k], job.id, outcomes[k]);
        PrefixStep(outcomes, k);
        PrefixStep(Ids(snapshot), k);
        sent := sent + [job.id];
        k := k + 1;
      }
      assert outcomes[..k] == outcomes;
      assert sent == Ids(snapshot);
      isProcessing := false;
    }

    /** The "enhance all" button is enabled when no batch runs and there is at least one job. */
    function CanEnhanceAll(): (r: bool)
      reads this
      ensures r <==> !isProcessing && jobs != []
    {
      !isProcessing && |jobs| > 0
    }

    /** The "download all" button is enabled when some job is completed (whatever its resultUrl). */
    function CanDownloadAll(): (r: bool)
      reads this
      ensures r <==> exists k :: 0 <= k < |jobs| && jobs[k].status == Completed
    {
      exists j :: j in jobs && j.status == Completed
    }

    /**
      handleDownloadAll: no archive when no job is completed with a result;
      otherwise the downloadable jobs, numbered from 1 in list order, become
      the entries of folder kana-enhanced in kana_enhanced_images.zip.
      `noBlob` holds the result URLs whose compositing yields no blob.
     */
    method DownloadAll(noBlob: set<string>) returns (archive: Option<Archive>)
      ensures archive.None? <==> Downloadable(jobs) == []
      ensures archive.Some? ==>
        && archive.value.fileName == ArchiveName
        && archive.value.folder == ArchiveFolder
        && archive.value.entries == EntriesFrom(Downloadable(jobs), 0, noBlob)
    {
      var done := Downloadable(jobs);
      if |done| == 0 {
        return None;
      }
      var entries: seq<Entry> := [];
      var i := 0;
      while i < |done|
        invariant 0 <= i <= |done|
        invariant entries + EntriesFrom(done, i, noBlob) == EntriesFrom(done, 0, noBlob)
      {
        var job := done[i];
        if Truthy(job.resultUrl) && job.resultUrl.value !in noBlob {
          entries := entries + [Entry(EntryName(i + 1), job.id)];
        }
        i := i + 1;
      }
      return Some(Archive(ArchiveName, ArchiveFolder, entries));
    }

    /** A click on a job's picture opens the comparison view only when the job has a result. */
    method OpenComparison(job: EnhanceJob)
      modifies this`comparisonJob
      ensures comparisonJob == if Truthy(job.resultUrl) then Some(job) else old(comparisonJob)
    {
      if Truthy(job.resultUrl) {
        comparisonJob := Some(job);
      }
    }

    method CloseComparison()
      modifies this`comparisonJob
      ensures comparisonJob.None?
    {
      comparisonJob := None;
    }
  }

  /**
    The comparison view's download: the file name saved, when the shown job
    has a result whose compositing yields a blob (`noBlob` holds the result
    URLs for which it does not); otherwise nothing is saved.
   */
  function ComparisonDownload(job: EnhanceJob, noBlob: set<string>): (r: Option<string>)
    ensures r.Some? <==> Truthy(job.resultUrl) && job.resultUrl.value !in noBlob
    ensures r.Some? ==> r.value == SingleDownloadName(job.id)
  {
    if HasBlob(job, noBlob) then Some(SingleDownloadName(job.id)) else None
  }

  lemma SplitAt<T>(s: seq<T>, p: nat)
    requires p < |s|
    ensures s == s[..p] + ([s[p]] + s[p + 1..])
  {
  }

  lemma PrefixStep<T>(s: seq<T>, k: nat)
    requires k < |s|
    ensures s[..k] + [s[k]] == s[..k + 1]
  {
  }

  lemma PatchedAbsentIf(jobs: seq<EnhanceJob>, id: string, p: Patch)
    ensures id !in Ids(jobs) ==> Patched(jobs, id, p) == jobs
  {
    if id !in Ids(jobs) {
      PatchedAbsent(jobs, id, p);
    }
  }
}
