/** The daemon's annotation store (`kdl` package): a file of annotations
    per shown document, loaded whole, upserted by annotation ID and written
    back whole.

    The file system is an object mapping paths to what they hold, together
    with the paths that cannot be created or truncated for writing (a
    read-only file or directory). The KDL codec is opaque: a file holds a
    document (a list of annotations), text that does not decode, or cannot
    be opened for reading at all (a permission problem, say). Whether a path
    can be read and whether it can be written are independent. Encoding
    never fails. */
module Kdl {
  import opened Wrappers

  datatype Annotation = Annotation(
    id: string, user: string, timestamp: int,
    contextHash: string, targetText: string, body: string)

  /** What a path holds. */
  datatype FileState = Document(annotations: seq<Annotation>) | Undecodable | Inaccessible

  datatype StoreError = OpenFailed | DecodeFailed | CreateFailed

  /** `Load`: a missing file is an empty list; an inaccessible or
      undecodable one is an error. */
  function LoadSpec(files: map<string, FileState>, path: string): (r: Result<seq<Annotation>, StoreError>)
    ensures path !in files ==> r == Ok([])
    ensures r.Ok? && path in files ==> files[path] == Document(r.value)
    ensures r.Err? <==> path in files && !files[path].Document?
  {
    if path !in files then Ok([])
    else match files[path]
      case Inaccessible => Err(OpenFailed)
      case Undecodable => Err(DecodeFailed)
      case Document(anns) => Ok(anns)
  }

  /** The position of the first annotation with this ID. */
  function IndexOfId(anns: seq<Annotation>, id: string): (r: Option<nat>)
    ensures r.Some? ==> r.value < |anns| && anns[r.value].id == id
    ensures r.Some? ==> forall j :: 0 <= j < r.value ==> anns[j].id != id
    ensures r.None? ==> forall j :: 0 <= j < |anns| ==> anns[j].id != id
  {
    if anns == [] then None
    else if anns[0].id == id then Some(0)
    else match IndexOfId(anns[1..], id)
      case None => None
      case Some(i) => Some(i + 1)
  }

  /** The annotation stored under an ID (the first one, if several). */
  function Lookup(anns: seq<Annotation>, id: string): Option<Annotation> {
    match IndexOfId(anns, id)
    case None => None
    case Some(i) => Some(anns[i])
  }

  /** The upsert `Append` performs on the loaded list: the first annotation
      with the same ID is replaced whole, in place; a new ID goes last. */
  function Upsert(anns: seq<Annotation>, a: Annotation): (r: seq<Annotation>)
    ensures IndexOfId(anns, a.id).Some? ==> |r| == |anns|
    ensures IndexOfId(anns, a.id).None? ==> |r| == |anns| + 1 && r[..|anns|] == anns
    ensures forall j :: 0 <= j < |anns| && Some(j) != IndexOfId(anns, a.id) ==> r[j] == anns[j]
  {
    match IndexOfId(anns, a.id)
    case Some(i) => anns[i := a]
    case None => anns + [a]
  }

  /** After an upsert the ID finds exactly the new annotation, and
      upserting it again changes nothing. */
  lemma UpsertThenLookup(anns: seq<Annotation>, a: Annotation)
    ensures Lookup(Upsert(anns, a), a.id) == Some(a)
    ensures Upsert(Upsert(anns, a), a) == Upsert(anns, a)
  {
    var r := Upsert(anns, a);
    match IndexOfId(anns, a.id) {
      case Some(i) =>
        FirstIndexIs(r, a.id, i);
      case None =>
        FirstIndexIs(r, a.id, |anns|);
    }
  }

  /** Every other ID finds what it found before the upsert. */
  lemma UpsertKeepsOtherIds(anns: seq<Annotation>, a: Annotation, other: string)
    requires other != a.id
    ensures Lookup(Upsert(anns, a), other) == Lookup(anns, other)
  {
    match IndexOfId(anns, a.id) {
      case Some(i) => IndexOfIdUnchanged(anns, i, a, other);
      case None => IndexOfIdAppend(anns, a, other);
    }
  }

  /** Rewriting position `i` does not move another ID's first position. */
  lemma IndexOfIdUnchanged(anns: seq<Annotation>, i: nat, a: Annotation, other: string)
    requires i < |anns| && anns[i].id == a.id && other != a.id
    ensures IndexOfId(anns[i := a], other) == IndexOfId(anns, other)
  {
    var r := anns[i := a];
    assert forall j :: 0 <= j < |anns| ==> (r[j].id == other <==> anns[j].id == other);
    FirstIndexAgrees(anns, r, other);
  }

  /** Appending an annotation with another ID does not move an ID's first
      position. */
  lemma IndexOfIdAppend(anns: seq<Annotation>, a: Annotation, other: string)
    requires other != a.id
    ensures IndexOfId(anns + [a], other) == IndexOfId(anns, other)
  {
    var r := anns + [a];
    match IndexOfId(anns, other) {
      case Some(i) =>
        assert r[i].id == other;
        assert forall j :: 0 <= j < i ==> r[j].id != other;
        FirstIndexIs(r, other, i);
      case None =>
        assert forall j :: 0 <= j < |r| ==> r[j].id != other;
    }
  }

  /** Two lists of the same length whose IDs agree on `id` everywhere put it
      at the same first position. */
  lemma FirstIndexAgrees(x: seq<Annotation>, y: seq<Annotation>, id: string)
    requires |x| == |y|
    requires forall j :: 0 <= j < |x| ==> (x[j].id == id <==> y[j].id == id)
    ensures IndexOfId(x, id) == IndexOfId(y, id)
  {
    match IndexOfId(x, id) {
      case Some(i) => FirstIndexIs(y, id, i);
      case None =>
    }
  }

  /** The first position is determined by the ID at it and before it. */
  lemma {:induction false} FirstIndexIs(x: seq<Annotation>, id: string, i: nat)
    requires i < |x| && x[i].id == id
    requires forall j :: 0 <= j < i ==> x[j].id != id
    ensures IndexOfId(x, id) == Some(i)
    decreases i
  {
    if i > 0 {
      FirstIndexIs(x[1..], id, i - 1);
    }
  }

  /** Upserting into a list whose IDs are distinct keeps them distinct. */
  predicate DistinctIds(anns: seq<Annotation>) {
    forall j, k :: 0 <= j < k < |anns| ==> anns[j].id != anns[k].id
  }

  lemma UpsertKeepsIdsDistinct(anns: seq<Annotation>, a: Annotation)
    requires DistinctIds(anns)
    ensures DistinctIds(Upsert(anns, a))
  {
  }

  /** The files after `Append`: unchanged when the file cannot be loaded or
      cannot be written, otherwise holding the upserted list. */
  function AppendSpec(files: map<string, FileState>, readOnly: set<string>, path: string, a: Annotation): map<string, FileState> {
    match LoadSpec(files, path)
    case Err(_) => files
    case Ok(anns) => if path in readOnly then files else files[path := Document(Upsert(anns, a))]
  }

  /** The error `Append` returns: the load error, else the create error of
      the save. */
  function AppendError(files: map<string, FileState>, readOnly: set<string>, path: string): (r: Option<StoreError>)
    ensures r.None? <==> LoadSpec(files, path).Ok? && path !in readOnly
    ensures r == Some(CreateFailed) ==> path in readOnly
  {
    match LoadSpec(files, path)
    case Err(e) => Some(e)
    case Ok(_) => if path in readOnly then Some(CreateFailed) else None
  }

  /** After an append that reports no error the file loads with the
      annotation in it; after one that reports an error the files are
      untouched; no other file changes either way. */
  lemma AppendThenLoad(files: map<string, FileState>, readOnly: set<string>, path: string, a: Annotation, other: string)
    requires other != path
    ensures AppendError(files, readOnly, path).None? ==>
      LoadSpec(AppendSpec(files, readOnly, path, a), path) == Ok(Upsert(LoadSpec(files, path).value, a))
    ensures AppendError(files, readOnly, path).None? ==>
      Lookup(LoadSpec(AppendSpec(files, readOnly, path, a), path).value, a.id) == Some(a)
    ensures AppendError(files, readOnly, path).Some? ==> AppendSpec(files, readOnly, path, a) == files
    ensures other in files <==> other in AppendSpec(files, readOnly, path, a)
    ensures other in files ==> AppendSpec(files, readOnly, path, a)[other] == files[other]
  {
    if AppendError(files, readOnly, path).None? {
      UpsertThenLookup(LoadSpec(files, path).value, a);
    }
  }

  class FileSystem {
    var files: map<string, FileState>
    /** The paths `os.Create` fails on. */
    const readOnly: set<string>

    constructor (files: map<string, FileState>, readOnly: set<string>)
      ensures this.files == files && this.readOnly == readOnly
    {
      this.files := files;
      this.readOnly := readOnly;
    }

    method Load(path: string) returns (r: Result<seq<Annotation>, StoreError>)
      ensures r == LoadSpec(files, path)
    {
      if path !in files {
        return Ok([]);
      }
      match files[path] {
        case Inaccessible => r := Err(OpenFailed);
        case Undecodable => r := Err(DecodeFailed);
        case Document(anns) => r := Ok(anns);
      }
    }

    /** `Save`: creates or truncates the file and writes the whole list;
        a path that cannot be created is left as it was. */
    method Save(path: string, annotations: seq<Annotation>) returns (err: Option<StoreError>)
      modifies this
      ensures path in readOnly ==> err == Some(CreateFailed) && files == old(files)
      ensures path !in readOnly ==> err.None? && files == old(files)[path := Document(annotations)]
    {
      if path in readOnly {
        return Some(CreateFailed);
      }
      files := files[path := Document(annotations)];
      err := None;
    }

    /** `Append`: loads the file (a load error is returned before anything
        is written), upserts the annotation and saves the whole list. */
    method Append(path: string, newAnn: Annotation) returns (err: Option<StoreError>)
      modifies this
      ensures files == AppendSpec(old(files), readOnly, path, newAnn)
      ensures err == AppendError(old(files), readOnly, path)
    {
      var loaded := Load(path);
      if loaded.Err? {
        return Some(loaded.error);
      }
      var anns := loaded.value;
      var found := false;
      var i := 0;
      while i < |anns|
        invariant 0 <= i <= |anns|
        invariant anns == loaded.value
        invariant forall j :: 0 <= j < i ==> anns[j].id != newAnn.id
      {
        if anns[i].id == newAnn.id {
          anns := anns[i := newAnn];
          found := true;
          break;
        }
        i := i + 1;
      }
      if !found {
        anns := anns + [newAnn];
      }
      assert anns == Upsert(loaded.value, newAnn);
      err := Save(path, anns);
    }
  }

  /** Saving then loading gives back the same annotations, in order. */
  lemma SaveThenLoad(files: map<string, FileState>, path: string, anns: seq<Annotation>)
    ensures LoadSpec(files[path := Document(anns)], path) == Ok(anns)
  {
  }

  /** The store test: two annotations saved; an update of the first keeps
      two and replaces its body (and drops the fields it lacks); a new ID
      makes three. */
  lemma StoreTestScenario(first: Annotation, second: Annotation, update: Annotation, added: Annotation)
    requires first.id == update.id && first.id != second.id
    requires added.id != first.id && added.id != second.id
    ensures |Upsert([first, second], update)| == 2
    ensures Upsert([first, second], update)[0] == update
    ensures |Upsert(Upsert([first, second], update), added)| == 3
  {
    assert IndexOfId([first, second], update.id) == Some(0);
    var updated := [update, second];
    assert Upsert([first, second], update) == updated;
    assert IndexOfId(updated, added.id).None? by {
      assert forall j :: 0 <= j < |updated| ==> updated[j].id != added.id;
    }
  }
}
