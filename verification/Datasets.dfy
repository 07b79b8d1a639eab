/**
 Training-set requests and the manifest builder (platform/app/api/routes/datasets.py,
 platform/app/services/dataset_builder.py, platform/app/repositories/dataset.py).
 */
module Datasets {
  import opened Basics
  import opened StateMachine
  import opened Segments
  import opened Lifecycle
  import opened Agreement
  import opened Approval
  import opened LifecycleTheorems
  import opened Answers

  datatype JobStatus = PENDING | RUNNING | SUCCEEDED | JOB_FAILED

  datatype Dataset = Dataset(
    status: JobStatus, episodeIds: seq<string>, outputFormat: string, requestedBy: string,
    manifestKey: Option<string>, failed: bool)

  datatype FrameRef = FrameRef(timestampMs: nat, objectKey: string)

  datatype Entry = Entry(
    episodeId: string, taskId: string, status: EpisodeStatus, objectKey: Option<string>, checksum: Option<string>,
    sizeBytes: Option<nat>, durationMs: Option<nat>, segments: seq<Segment>, keyFrames: seq<FrameRef>,
    artefacts: seq<string>)

  datatype Manifest = Manifest(
    datasetId: string, outputFormat: string, requestedBy: string, episodeCount: nat, segmentCount: nat,
    episodes: seq<Entry>)

  datatype BuildRequested = BuildRequested(
    datasetId: string, episodeIds: seq<string>, outputFormat: string, requestedBy: string)

  const SUPPORTED_FORMATS: set<string> := {"lerobot", "rlds"}

  datatype Problem =
    | NoEpisodes
    | UnsupportedFormat
    | NotIncludable(notFound: seq<string>, notPublished: seq<string>)

  datatype BuildError = DatasetNotFound | EpisodeMissing(id: string) | EpisodeNotPublished(id: string) | WriteFailed

  predicate Includable(w: World, id: string) {
    id in w.episodes && w.episodes[id].status == PUBLISHED
  }

  function Select(ids: seq<string>, p: string -> bool): (r: seq<string>)
    ensures r == [] <==> forall id :: id in ids ==> !p(id)
  {
    if ids == [] then [] else Select(ids[..|ids| - 1], p) + (if p(ids[|ids| - 1]) then [ids[|ids| - 1]] else [])
  }

  const OPERATORS := ["preannotate", "quality", "keyframe", "anomaly", "annotation_processing"]

  function ArtefactKey(id: string, operator: string): string {
    "episodes/" + id + "/algo/" + operator + "/result.json"
  }

  /** The result files of an episode that are really there, by operator. */
  function ArtefactsOf(id: string, operators: seq<string>, stored: set<string>): (r: seq<string>)
    ensures forall key :: key in r <==> key in stored && exists o :: o in operators && key == ArtefactKey(id, o)
  {
    if operators == [] then []
    else
      var key := ArtefactKey(id, operators[0]);
      (if key in stored then [key] else []) + ArtefactsOf(id, operators[1..], stored)
  }

  function FrameRefs(frames: seq<KeyFrame>): (r: seq<FrameRef>)
    ensures |r| == |frames| && forall i :: 0 <= i < |r| ==> r[i] == FrameRef(frames[i].timestampMs, frames[i].objectKey)
  {
    seq(|frames|, i requires 0 <= i < |frames| => FrameRef(frames[i].timestampMs, frames[i].objectKey))
  }

  /** `stored` are the keys in the object store. */
  function EntryOf(w: World, stored: set<string>, id: string): Entry
    requires id in w.episodes
  {
    var e := w.episodes[id];
    Entry(id, e.taskId, e.status, e.objectKey, e.checksum, e.sizeBytes, e.durationMs, e.segments,
        FrameRefs(e.keyFrames),
          ArtefactsOf(id, OPERATORS, stored))
  }

  function SegmentTotal(entries: seq<Entry>): nat {
    if entries == [] then 0 else SegmentTotal(entries[..|entries| - 1]) + |entries[|entries| - 1].segments|
  }

  function SegmentsOfAll(entries: seq<Entry>): seq<Segment> {
    if entries == [] then [] else SegmentsOfAll(entries[..|entries| - 1]) + entries[|entries| - 1].segments
  }

  /** The segment count of a manifest is the number of segments in it. */
  lemma {:induction false} TotalCountsTheSegments(entries: seq<Entry>)
    ensures SegmentTotal(entries) == |SegmentsOfAll(entries)|
  {
    if entries != [] {
      TotalCountsTheSegments(entries[..|entries| - 1]);
    }
  }

  /** A manifest lists the requested episodes in order, each as it is in the database now. */
  ghost predicate Lists(m: Manifest, w: World, stored: set<string>, ids: seq<string>) {
    && m.episodeCount == |ids| == |m.episodes|
    && m.segmentCount == SegmentTotal(m.episodes)
    && forall i :: 0 <= i < |ids| ==> Includable(w, ids[i]) && m.episodes[i] == EntryOf(w, stored, ids[i])
  }

  /** Where a manifest is written. */
  function ManifestKey(datasetId: string): string {
    "datasets/" + datasetId + "/manifest.json"
  }

  lemma ManifestKeyInjective(a: string, b: string)
    requires ManifestKey(a) == ManifestKey(b)
    ensures a == b
  {
    var prefix, suffix := "datasets/", "/manifest.json";
    assert |a| == |ManifestKey(a)| - |prefix| - |suffix| == |b|;
    assert a == ManifestKey(a)[|prefix|..|prefix| + |a|] == b;
  }

  /** A dataset that succeeded has a manifest, and a manifest key leads to this dataset's own
      manifest, which lists its episodes in order. A later failure keeps the key. */
  ghost predicate KeyLeadsHome(datasets: map<string, Dataset>, manifests: map<string, Manifest>, id: string)
    requires id in datasets
  {
    var dataset := datasets[id];
    && (dataset.status == SUCCEEDED ==> dataset.manifestKey.Some?)
    && (dataset.manifestKey.Some? ==>
          && dataset.manifestKey.value == ManifestKey(id) && ManifestKey(id) in manifests
          && manifests[ManifestKey(id)].datasetId == id
          && |manifests[ManifestKey(id)].episodes| == |dataset.episodeIds|
          && forall i :: 0 <= i < |dataset.episodeIds| ==>
               manifests[ManifestKey(id)].episodes[i].episodeId == dataset.episodeIds[i])
  }

  lemma OtherKeysStay(datasets: map<string, Dataset>, manifests: map<string, Manifest>, id: string,
                      manifest: Manifest, other: string)
    requires other in datasets && other != id && KeyLeadsHome(datasets, manifests, other)
    ensures KeyLeadsHome(datasets, manifests[ManifestKey(id) := manifest], other)
  {
    if ManifestKey(other) == ManifestKey(id) {
      ManifestKeyInjective(other, id);
    }
  }

  class DatasetService {
    var datasets: map<string, Dataset>
    var manifests: map<string, Manifest>
    var requests: seq<BuildRequested>

    ghost predicate Valid()
      reads this
    {
      forall id :: id in datasets ==> KeyLeadsHome(datasets, manifests, id)
    }

    constructor ()
      ensures Valid() && datasets == map[] && manifests == map[] && requests == []
    {
      datasets, manifests, requests := map[], map[], [];
    }

    /** `build_dataset`: accepted exactly when the format is supported and every listed episode
        is published; otherwise the answer names the missing and the unpublished ones. */
    method Accept(w: World, datasetId: string, episodeIds: seq<string>, outputFormat: string, user: string)
      returns (problem: Option<Problem>)
      requires Valid()
      modifies `datasets, `requests
      ensures Valid()
      ensures problem == None <==>
                && episodeIds != [] && outputFormat in SUPPORTED_FORMATS
                && forall id :: id in episodeIds ==> Includable(w, id)
      ensures problem == None ==>
                && datasets == old(datasets)[datasetId := Dataset(PENDING, episodeIds, outputFormat, user, None, false)]
                && requests == old(requests) + [BuildRequested(datasetId, episodeIds, outputFormat, user)]
      ensures problem.Some? ==> datasets == old(datasets) && requests == old(requests)
      ensures problem.Some? && problem.value.NotIncludable? ==>
                problem.value == NotIncludable(Select(episodeIds, id => id !in w.episodes),
                                               Select(episodeIds, id => id in w.episodes && !Includable(w, id)))
    {
      if episodeIds == [] {
        return Some(NoEpisodes);
      }
      if outputFormat !in SUPPORTED_FORMATS {
        return Some(UnsupportedFormat);
      }
      var notFound, notPublished := [], [];
      for i := 0 to |episodeIds|
        invariant notFound == Select(episodeIds[..i], id => id !in w.episodes)
        invariant notPublished == Select(episodeIds[..i], id => id in w.episodes && !Includable(w, id))
      {
        assert episodeIds[..i + 1][..i] == episodeIds[..i];
        var id := episodeIds[i];
        if id !in w.episodes {
          notFound := notFound + [id];
        } else if w.episodes[id].status != PUBLISHED {
          notPublished := notPublished + [id];
        }
      }
      assert episodeIds[..|episodeIds|] == episodeIds;
      if notFound != [] || notPublished != [] {
        return Some(NotIncludable(notFound, notPublished));
      }
      datasets := datasets[datasetId := Dataset(PENDING, episodeIds, outputFormat, user, None, false)];
      requests := requests + [BuildRequested(datasetId, episodeIds, outputFormat, user)];
      problem := None;
    }

    /** `_write_manifest`: `canWrite` is whether the object store takes the file. */
    method WriteManifest(w: World, stored: set<string>, datasetId: string, dataset: Dataset, canWrite: bool)
      returns (result: Result<string, BuildError>)
      modifies `manifests
      ensures result.Ok? <==> canWrite && forall id :: id in dataset.episodeIds ==> Includable(w, id)
      ensures result.Ok? ==>
                && result.value == ManifestKey(datasetId) && result.value in manifests
                && manifests == old(manifests)[result.value := manifests[result.value]]
                && Lists(manifests[result.value], w, stored, dataset.episodeIds)
                && manifests[result.value].datasetId == datasetId
                && manifests[result.value].outputFormat == dataset.outputFormat
                && manifests[result.value].requestedBy == dataset.requestedBy
      ensures result.Err? ==> manifests == old(manifests)
    {
      var ids, entries, total := dataset.episodeIds, [], 0;
      for i := 0 to |ids|
        invariant |entries| == i && total == SegmentTotal(entries)
        invariant forall j :: 0 <= j < i ==> Includable(w, ids[j]) && entries[j] == EntryOf(w, stored, ids[j])
      {
        assert !Includable(w, ids[i]) ==> !forall id :: id in ids ==> Includable(w, id);
        if ids[i] !in w.episodes {
          return Err(EpisodeMissing(ids[i]));
        }
        if w.episodes[ids[i]].status != PUBLISHED {
          return Err(EpisodeNotPublished(ids[i]));
        }
        var entry := EntryOf(w, stored, ids[i]);
        assert (entries + [entry])[..i] == entries;
        entries, total := entries + [entry], total + |entry.segments|;
      }
      if !canWrite {
        return Err(WriteFailed);
      }
      var manifest := Manifest(datasetId, dataset.outputFormat, dataset.requestedBy, |entries|, total, entries);
      manifests := manifests[ManifestKey(datasetId) := manifest];
      result := Result.Ok(ManifestKey(datasetId));
    }

    /** `build`: the row ends as succeeded with its manifest, or as failed, never as running. A
        failure changes no manifest and no key: after a first build there is none, after a failed
        rebuild the old ones are still there. */
    method Build(w: World, stored: set<string>, datasetId: string, canWrite: bool) returns (error: Option<BuildError>)
      requires Valid()
      modifies `datasets, `manifests
      ensures Valid()
      ensures datasetId !in old(datasets) ==>
                error == Some(DatasetNotFound) && datasets == old(datasets) && manifests == old(manifests)
      ensures datasetId in old(datasets) ==>
                var dataset := old(datasets)[datasetId];
                var key := ManifestKey(datasetId);
                && (error == None <==> canWrite && forall id :: id in dataset.episodeIds ==> Includable(w, id))
                && (error == None ==>
                      && datasets
                         == old(datasets)[datasetId :=
                              dataset.(status := SUCCEEDED, manifestKey := Some(key), failed := false)]
                      && key in manifests && manifests == old(manifests)[key := manifests[key]]
                      && Lists(manifests[key], w, stored, dataset.episodeIds)
                      && manifests[key].datasetId == datasetId
                      && manifests[key].outputFormat == dataset.outputFormat
                      && manifests[key].requestedBy == dataset.requestedBy)
                && (error != None ==>
                      && datasets == old(datasets)[datasetId := dataset.(status := JOB_FAILED, failed := true)]
                      && manifests == old(manifests))
    {
      if datasetId !in datasets {
        return Some(DatasetNotFound);
      }
      ghost var before := manifests;
      var dataset := datasets[datasetId];
      datasets := datasets[datasetId := dataset.(status := RUNNING)];
      var written := WriteManifest(w, stored, datasetId, dataset, canWrite);
      if written.Err? {
        datasets := datasets[datasetId := dataset.(status := JOB_FAILED, failed := true)];
        return Some(written.error);
      }
      dataset := dataset.(status := SUCCEEDED, manifestKey := Some(written.value), failed := false);
      datasets := datasets[datasetId := dataset];
      forall other | other in datasets && other != datasetId
        ensures KeyLeadsHome(datasets, manifests, other)
      {
        assert KeyLeadsHome(old(datasets), before, other);
        OtherKeysStay(old(datasets), before, datasetId, manifests[ManifestKey(datasetId)], other);
      }
      error := None;
    }

    /** From request to manifest: once accepted, whatever happens on the platform before the worker
        comes to it, the build finds every episode and fails only if the object store does. */
    method AcceptAndBuildLater(w: World, later: seq<Command>, stored: set<string>, datasetId: string,
                               episodeIds: seq<string>,
                               outputFormat: string, user: string, canWrite: bool)
      returns (problem: Option<Problem>, error: Option<BuildError>)
      requires Valid()
      modifies this
      ensures Valid()
      ensures problem == None ==> (error == None <==> canWrite)
      ensures problem == None && canWrite ==>
                && datasetId in datasets && datasets[datasetId].status == SUCCEEDED
                && datasets[datasetId].manifestKey == Some(ManifestKey(datasetId))
                && ManifestKey(datasetId) in manifests
                && manifests[ManifestKey(datasetId)].outputFormat == outputFormat
                && manifests[ManifestKey(datasetId)].requestedBy == user
                && Lists(manifests[ManifestKey(datasetId)], Run(w, later), stored, episodeIds)
    {
      hide Run, KeyLeadsHome, Lists;
      error := None;
      problem := Accept(w, datasetId, episodeIds, outputFormat, user);
      if problem == None {
        AcceptedStaysBuildable(w, later, episodeIds);
        error := Build(Run(w, later), stored, datasetId, canWrite);
      }
    }
  }

  /** What was published when a request was accepted is published whenever it is built, so an
      accepted request fails only for want of the object store. */
  lemma AcceptedStaysBuildable(w: World, commands: seq<Command>, ids: seq<string>)
    requires forall id :: id in ids ==> Includable(w, id)
    ensures forall id :: id in ids ==> Includable(Run(w, commands), id)
  {
    forall id | id in ids
      ensures Includable(Run(w, commands), id)
    {
      RunForward(w, commands, id);
    }
  }

  /** The entry of an episode whose upload was accepted says of the recording what the accepted report said, however
      much happened in between. */
  lemma ManifestNamesTheUpload(w: World, c: Command, later: seq<Command>, stored: set<string>, ids: seq<string>,
                               m: Manifest, i: nat)
    requires c.UploadComplete? && Handle(w, c).Ok? && Handle(w, c).value.changed
    requires Lists(m, Run(Apply(w, c), later), stored, ids) && i < |ids| && ids[i] == c.id
    ensures var entry := m.episodes[i];
            && entry.episodeId == c.id && entry.status == PUBLISHED
            && c.id in w.episodes && entry.taskId == w.episodes[c.id].taskId
            && entry.objectKey == Some(c.meta.objectKey) && entry.checksum == Some(c.meta.checksum)
            && entry.sizeBytes == Some(c.meta.sizeBytes) && entry.durationMs == Some(c.meta.durationMs)
  {
    UploadIsStoredForGood(w, c, later);
    StepForward(w, c, c.id);
    RunForward(Apply(w, c), later, c.id);
    hide Run, Apply, Handle, FrameRefs, ArtefactsOf, Rank, IsTerminal;
  }

  /** After a run of safe and gated requests every manifest holds, for each episode, the segments its
      annotator submitted and its reviewer approved. */
  lemma ManifestHasReviewedSegments(commands: seq<Command>, stored: set<string>, ids: seq<string>, m: Manifest)
    requires AllSafe(commands) && AllGated(commands) && Lists(m, Run(EMPTY, commands), stored, ids)
    ensures var w := Run(EMPTY, commands);
            forall i :: 0 <= i < |ids| ==>
              && ids[i] in w.annotations && w.annotations[ids[i]].reviewed == Some(APPROVE)
              && m.episodes[i].segments == w.annotations[ids[i]].segments
              && PairwiseDisjoint(m.episodes[i].segments)
  {
    EmptyAgrees();
    RunAgrees(EMPTY, commands);
    EmptyApproved();
    RunApproved(EMPTY, commands);
    hide Run, AllSafe, AllGated, PairwiseDisjoint, WellFormed, ArtefactsOf, FrameRefs;
    var w := Run(EMPTY, commands);
    forall i | 0 <= i < |ids|
      ensures ids[i] in w.annotations && w.annotations[ids[i]].reviewed == Some(APPROVE)
      ensures m.episodes[i].segments == w.annotations[ids[i]].segments
      ensures PairwiseDisjoint(m.episodes[i].segments)
    {
      assert Includable(w, ids[i]) && Agrees(w, ids[i]) && ApprovedIfPublished(w, ids[i]);
    }
  }
}
