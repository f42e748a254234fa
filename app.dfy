/** The application component's state and the pure list updates it applies
    (src/App.tsx): the prediction merge, the retag of the selected record,
    the lookup of the selected record and the download projection. */
module App {
  import opened Wrappers
  import opened Seqs
  import opened Annotations
  import opened AnnotationUtils

  /** One entry of the prediction service's answer, already decoded. */
  datatype PredictedBox = PredictedBox(x: real, y: real, width: real, height: real, tag: Tag)

  /** How the predict request ended. `Ok` carries the decoded `annotations`
      field of the body, `None` when it is missing or null. `HttpError` is
      an answer with an error status. `NetworkError` stands for any
      exception the request block raises: a failed request, a body that is
      not JSON, a null body, or an `annotations` field that is truthy but
      not a list. */
  datatype PredictResponse =
    | Ok(annotations: Option<seq<PredictedBox>>)
    | HttpError(text: string)
    | NetworkError

  /** The answer's batch, or no entries at all when the field is missing. */
  function BatchOf(data: Option<seq<PredictedBox>>): seq<PredictedBox> {
    if data.Some? then data.value else []
  }

  /** An image file the user picked, with its contents already read as a
      data URL. */
  datatype ImageFile = ImageFile(name: string, dataUrl: string)

  predicate IsLlm(a: Annotation) { a.source == Llm }
  predicate NotLlm(a: Annotation) { a.source != Llm }

  /** Ids for a batch: pairwise distinct, and not used by any record the
      merge keeps. Ids of the service records it replaces may come back. */
  predicate FreshIds(ids: seq<Id>, s: seq<Annotation>) {
    && (forall i, j :: 0 <= i < j < |ids| ==> ids[i] != ids[j])
    && (forall i :: 0 <= i < |ids| ==> ids[i] !in IdSet(Filter(s, NotLlm)))
  }

  /** The batch as stored records: the box and tag of each entry, the id
      supplied for its position and source Llm. */
  function Tagged(batch: seq<PredictedBox>, ids: seq<Id>): (r: seq<Annotation>)
    requires |ids| == |batch|
    ensures |r| == |batch|
  {
    seq(|batch|, i requires 0 <= i < |batch| =>
      Annotation(batch[i].x, batch[i].y, batch[i].width, batch[i].height, batch[i].tag, ids[i], Llm))
  }

  /** The records not produced by the service, in order, followed by the
      tagged batch. */
  function MergePrediction(prev: seq<Annotation>, batch: seq<PredictedBox>, ids: seq<Id>): seq<Annotation>
    requires |ids| == |batch|
  {
    Filter(prev, NotLlm) + Tagged(batch, ids)
  }

  lemma TaggedAllLlm(batch: seq<PredictedBox>, ids: seq<Id>)
    requires |ids| == |batch|
    ensures Filter(Tagged(batch, ids), NotLlm) == []
    ensures Filter(Tagged(batch, ids), IsLlm) == Tagged(batch, ids)
  {
    FilterDropsAll(Tagged(batch, ids), NotLlm);
    FilterKeepsAll(Tagged(batch, ids), IsLlm);
  }

  /** After a merge the records not produced by the service are exactly
      those before it, unchanged and in the same order. */
  lemma MergeKeepsManual(prev: seq<Annotation>, batch: seq<PredictedBox>, ids: seq<Id>)
    requires |ids| == |batch|
    ensures Filter(MergePrediction(prev, batch, ids), NotLlm) == Filter(prev, NotLlm)
  {
    var kept := Filter(prev, NotLlm);
    FilterConcat(kept, Tagged(batch, ids), NotLlm);
    forall i | 0 <= i < |kept| ensures NotLlm(kept[i]) {
      assert kept[i] in kept;
    }
    FilterKeepsAll(kept, NotLlm);
    TaggedAllLlm(batch, ids);
  }

  /** After a merge the service's records are exactly the batch, in batch
      order, each with its supplied id and source Llm; the previous
      service records are gone. */
  lemma MergeReplacesLlm(prev: seq<Annotation>, batch: seq<PredictedBox>, ids: seq<Id>)
    requires |ids| == |batch|
    ensures var llm := Filter(MergePrediction(prev, batch, ids), IsLlm);
            && |llm| == |batch|
            && forall i :: 0 <= i < |batch| ==>
                 && llm[i].source == Llm && llm[i].id == ids[i]
                 && Project(llm[i]) == ExportRecord(batch[i].x, batch[i].y, batch[i].width, batch[i].height, batch[i].tag)
  {
    var kept := Filter(prev, NotLlm);
    FilterConcat(kept, Tagged(batch, ids), IsLlm);
    forall i | 0 <= i < |kept| ensures !IsLlm(kept[i]) {
      assert kept[i] in kept;
    }
    FilterDropsAll(kept, IsLlm);
    TaggedAllLlm(batch, ids);
  }

  /** An empty answer removes every service record and keeps the rest. */
  lemma MergeEmptyBatch(prev: seq<Annotation>)
    ensures MergePrediction(prev, [], []) == Filter(prev, NotLlm)
    ensures forall a :: a in MergePrediction(prev, [], []) ==> a.source == Manual
  {
    assert Tagged([], []) == [];
    assert Filter(prev, NotLlm) + [] == Filter(prev, NotLlm);
  }

  /** A later batch supersedes an earlier one completely. */
  lemma MergeSupersedes(prev: seq<Annotation>, b1: seq<PredictedBox>, ids1: seq<Id>,
                        b2: seq<PredictedBox>, ids2: seq<Id>)
    requires |ids1| == |b1| && |ids2| == |b2|
    ensures MergePrediction(MergePrediction(prev, b1, ids1), b2, ids2) == MergePrediction(prev, b2, ids2)
  {
    MergeKeepsManual(prev, b1, ids1);
  }

  /** Fresh ids keep the store's ids unique through a merge. */
  lemma MergeUnique(prev: seq<Annotation>, batch: seq<PredictedBox>, ids: seq<Id>)
    requires |ids| == |batch|
    requires UniqueIds(prev) && FreshIds(ids, prev)
    ensures UniqueIds(MergePrediction(prev, batch, ids))
  {
    var kept, added := Filter(prev, NotLlm), Tagged(batch, ids);
    FilterKeepsUnique(prev, NotLlm);
    forall x | x in IdSet(added) ensures x !in IdSet(kept) {
      var a :| a in added && a.id == x;
      var i :| 0 <= i < |added| && added[i] == a;
      assert ids[i] == x;
    }
    UniqueAppend(kept, added);
  }

  /** The exported document of a merge does not depend on the ids chosen. */
  lemma MergeExportIgnoresIds(filename: string, prev: seq<Annotation>, batch: seq<PredictedBox>,
                              ids: seq<Id>, ids': seq<Id>)
    requires |ids| == |batch| && |ids'| == |batch|
    ensures ExportAnnotations(filename, MergePrediction(prev, batch, ids)) ==
            ExportAnnotations(filename, MergePrediction(prev, batch, ids'))
  {
    var s, t := MergePrediction(prev, batch, ids), MergePrediction(prev, batch, ids');
    var k := |Filter(prev, NotLlm)|;
    forall i | 0 <= i < |s| ensures s[i].(id := t[i].id, source := t[i].source) == t[i] {
      if i >= k {
        assert s[i] == Tagged(batch, ids)[i - k];
        assert t[i] == Tagged(batch, ids')[i - k];
      }
    }
    ExportForgetsIdentity(filename, s, t);
  }

  /** The record shown in the tag selector: the first one whose id is the
      selected id, none when nothing is selected or no record has it. */
  function SelectedAnnotation(s: seq<Annotation>, selectedId: Option<Id>): (r: Option<Annotation>)
    ensures r.Some? <==> selectedId.Some? && selectedId.value in IdSet(s)
    ensures r.Some? ==> exists i :: 0 <= i < |s| && s[i] == r.value && r.value.id == selectedId.value &&
                                     forall j :: 0 <= j < i ==> s[j].id != selectedId.value
  {
    if selectedId.None? then None else FindById(s, selectedId.value)
  }

  function SetTag(tag: Tag): Annotation -> Annotation {
    (a: Annotation) => a.(tag := tag)
  }

  /** The records whose id is the selected one get the new tag; with nothing
      selected no record matches. */
  function Retag(s: seq<Annotation>, selectedId: Option<Id>, tag: Tag): seq<Annotation> {
    if selectedId.None? then s else UpdateById(s, selectedId.value, SetTag(tag))
  }

  /** Retagging changes the tag of the selected records and nothing else;
      the tag selector then shows the new tag. */
  lemma RetagSpec(s: seq<Annotation>, selectedId: Option<Id>, tag: Tag)
    ensures |Retag(s, selectedId, tag)| == |s|
    ensures forall i :: 0 <= i < |s| ==> Retag(s, selectedId, tag)[i].(tag := s[i].tag) == s[i]
    ensures forall i :: 0 <= i < |s| ==>
              Retag(s, selectedId, tag)[i].tag == if selectedId == Some(s[i].id) then tag else s[i].tag
    ensures SelectedAnnotation(s, selectedId).None? ==> Retag(s, selectedId, tag) == s
    ensures UniqueIds(s) ==> UniqueIds(Retag(s, selectedId, tag))
    ensures SelectedAnnotation(Retag(s, selectedId, tag), selectedId) ==
            if SelectedAnnotation(s, selectedId).Some?
            then Some(SelectedAnnotation(s, selectedId).value.(tag := tag)) else None
  {
    if selectedId.Some? {
      UpdateKeepsIds(s, selectedId.value, SetTag(tag));
      UpdateThenFind(s, selectedId.value, SetTag(tag));
    }
  }

  /** The React state of the application component. */
  class App {
    var image: Option<string>
    var imageFilename: string
    var annotations: seq<Annotation>
    var selectedId: Option<Id>

    /** No two records share an id. */
    ghost predicate Valid()
      reads this
    {
      UniqueIds(annotations)
    }

    constructor ()
      ensures Valid()
      ensures image == None && imageFilename == "" && annotations == [] && selectedId == None
    {
      image := None;
      imageFilename := "";
      annotations := [];
      selectedId := None;
    }

    /** Picking a file records its name and its contents; the records and
        the selection are kept. */
    method HandleImageUpload(file: Option<ImageFile>)
      modifies this`image, this`imageFilename
      ensures file.Some? ==> imageFilename == file.value.name && image == Some(file.value.dataUrl)
      ensures file.None? ==> imageFilename == old(imageFilename) && image == old(image)
    {
      if file.Some? {
        imageFilename := file.value.name;
        image := Some(file.value.dataUrl);
      }
    }

    /** Applies a finished prediction request: with an image loaded and a
        successful answer the service's records are replaced by the batch;
        in every other case the records are unchanged. */
    method HandlePredict(response: PredictResponse, ids: seq<Id>)
      requires Valid()
      requires response.Ok? ==> |ids| == |BatchOf(response.annotations)| && FreshIds(ids, annotations)
      modifies this`annotations
      ensures Valid()
      ensures annotations ==
                if Truthy(image) && response.Ok?
                then MergePrediction(old(annotations), BatchOf(response.annotations), ids)
                else old(annotations)
    {
      if !Truthy(image) {
        return;
      }
      match response {
        case Ok(data) =>
          var batch := BatchOf(data);
          MergeUnique(annotations, batch, ids);
          annotations := Filter(annotations, NotLlm) + Tagged(batch, ids);
        case HttpError(_) =>
        case NetworkError =>
      }
    }

    /** The tag selector's change handler. */
    method OnTagChange(tag: Tag)
      requires Valid()
      modifies this`annotations
      ensures Valid()
      ensures annotations == Retag(old(annotations), selectedId, tag)
    {
      RetagSpec(annotations, selectedId, tag);
      annotations := Retag(annotations, selectedId, tag);
    }

    /** The document the download button writes, before serialisation:
        the file name and, record by record in store order, the geometry
        and tag without id or source. */
    method HandleDownload() returns (data: ExportData)
      ensures data.imageFilename == imageFilename
      ensures |data.annotations| == |annotations|
      ensures forall i :: 0 <= i < |annotations| ==>
                (data.annotations[i] == ExportRecord(annotations[i].x, annotations[i].y, annotations[i].width,
                                                      annotations[i].height, annotations[i].tag))
    {
      data := ExportAnnotations(imageFilename, annotations);
    }
  }
}
