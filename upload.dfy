/** The Upload page: a list of picked SVG files, a duplicate-free tag
    list, a description and a target project, reset after an upload. */
module Upload {
  import opened Common
  import opened Strings

  /** The two properties of a browser `File` the page looks at. */
  datatype FileInfo = FileInfo(name: string, mimeType: string)

  /** A picked file with the random id the page gives it. */
  datatype UploadedFile = UploadedFile(id: string, file: FileInfo)

  datatype MockProject = MockProject(id: string, name: string)

  /** The fixed project choices of the page. */
  const MockProjects: seq<MockProject> := [
    MockProject("1", "UI Icons"),
    MockProject("2", "Illustrations"),
    MockProject("3", "Logos"),
    MockProject("4", "Social Media"),
    MockProject("random", "Random")]

  /** The result of pressing the upload button. */
  datatype UploadToast = NoFilesSelected | UploadSuccessful(description: string)

  /** The file filter of both the drop zone and the file input. */
  predicate IsSvgFile(f: FileInfo) {
    f.mimeType == "image/svg+xml" || EndsWith(f.name, ".svg")
  }

  /** The accepted files, in input order: each file of `files` that passes
      the filter, as often as it occurs there, and no other. */
  function SvgFiles(files: seq<FileInfo>): (r: seq<FileInfo>)
    ensures forall f :: multiset(r)[f] == if IsSvgFile(f) then multiset(files)[f] else 0
    ensures forall f :: f in r ==> IsSvgFile(f)
    ensures |r| <= |files|
  {
    Filter(files, IsSvgFile)
  }

  /** Filtering an already filtered list changes nothing more. */
  lemma SvgFilesIdempotent(files: seq<FileInfo>)
    ensures SvgFiles(SvgFiles(files)) == SvgFiles(files)
  {
    FilterAll(SvgFiles(files), IsSvgFile);
  }

  /** The new list entries: the accepted files paired with fresh ids. */
  function Entries(ids: seq<string>, files: seq<FileInfo>): (r: seq<UploadedFile>)
    requires |ids| == |files|
    ensures |r| == |files|
    ensures forall i :: 0 <= i < |r| ==> r[i].file == files[i] && r[i].id == ids[i]
  {
    seq(|files|, i requires 0 <= i < |files| => UploadedFile(ids[i], files[i]))
  }

  function EntryId(e: UploadedFile): string { e.id }

  /** `mockProjects.find(p => p.id === id)?.name`. */
  function FindProjectName(projects: seq<MockProject>, id: string): (r: Option<string>)
    ensures r.Some? ==> exists p :: p in projects && p.id == id && p.name == r.value
    ensures r.None? ==> forall p :: p in projects ==> p.id != id
  {
    if projects == [] then None
    else if projects[0].id == id then Some(projects[0].name)
    else FindProjectName(projects[1..], id)
  }

  /** The project named in the success message, `'Random'` when the id is
      unknown or its name is empty. */
  function ProjectLabel(selected: string): (r: string)
    ensures r != ""
    ensures forall p :: p in MockProjects && p.id == selected ==> r == p.name
    ensures (forall p :: p in MockProjects ==> p.id != selected) ==> r == "Random"
  {
    match FindProjectName(MockProjects, selected)
    case Some(n) => if n == "" then "Random" else n
    case None => "Random"
  }

  /** An id that is not one of the choices is labelled `Random`. */
  lemma UnknownProjectLabel(id: string)
    requires forall p :: p in MockProjects ==> p.id != id
    ensures ProjectLabel(id) == "Random"
  {
  }

  function PluralSuffix(n: nat): string {
    if n > 1 then "s" else ""
  }

  /** The description of the success toast. */
  function UploadMessage(n: nat, selected: string): string {
    NatToDecimal(n) + " SVG" + PluralSuffix(n) + " uploaded to " + ProjectLabel(selected) + "."
  }

  /** The message starts with the count, and the letter after `SVG` is an
      `s` exactly when more than one file was uploaded. */
  lemma UploadMessagePlural(n: nat, selected: string)
    ensures var m := UploadMessage(n, selected);
      var k := |NatToDecimal(n)|;
      && |m| > k + 4
      && m[..k] == NatToDecimal(n)
      && (m[k + 4] == 's' <==> n > 1)
  {
    var m := UploadMessage(n, selected);
    var k := |NatToDecimal(n)|;
    assert m[..k] == NatToDecimal(n);
    assert m[k + 4] == (NatToDecimal(n) + " SVG" + PluralSuffix(n) + " uploaded to ")[k + 4];
  }

  /** The tag list holds no duplicates and no empty or untrimmed entries. */
  ghost predicate CleanTags(tags: seq<string>) {
    NoDuplicates(tags) && forall t :: t in tags ==> t != "" && Trim(t) == t
  }

  class UploadForm {
    var uploadedFiles: seq<UploadedFile>
    var selectedProject: string
    var tags: seq<string>
    var newTag: string
    var description: string
    var isDragging: bool

    ghost predicate Valid()
      reads this
    {
      CleanTags(tags)
    }

    constructor ()
      ensures uploadedFiles == [] && selectedProject == "random" && tags == []
      ensures newTag == "" && description == "" && !isDragging
      ensures Valid()
    {
      uploadedFiles := [];
      selectedProject := "random";
      tags := [];
      newTag := "";
      description := "";
      isDragging := false;
    }

    method DragEnter()
      modifies this
      ensures isDragging
      ensures uploadedFiles == old(uploadedFiles) && tags == old(tags) && newTag == old(newTag)
      ensures description == old(description) && selectedProject == old(selectedProject)
    {
      isDragging := true;
    }

    method DragLeave()
      modifies this
      ensures !isDragging
      ensures uploadedFiles == old(uploadedFiles) && tags == old(tags) && newTag == old(newTag)
      ensures description == old(description) && selectedProject == old(selectedProject)
    {
      isDragging := false;
    }

    /** `handleDrop`: `ids` are the random ids of the accepted files. When no
        file is accepted the list is kept and the invalid-files toast is
        raised; otherwise the accepted files follow the existing entries. */
    method HandleDrop(dropped: seq<FileInfo>, ids: seq<string>) returns (invalidFiles: bool)
      requires |ids| == |SvgFiles(dropped)|
      modifies this
      ensures !isDragging
      ensures invalidFiles <==> SvgFiles(dropped) == []
      ensures uploadedFiles == old(uploadedFiles) + Entries(ids, SvgFiles(dropped))
      ensures tags == old(tags) && newTag == old(newTag)
      ensures description == old(description) && selectedProject == old(selectedProject)
    {
      isDragging := false;
      var files := SvgFiles(dropped);
      if |files| == 0 {
        return true;
      }
      uploadedFiles := uploadedFiles + Entries(ids, files);
      invalidFiles := false;
    }

    /** `handleFileInput`: a missing file list changes nothing; otherwise the
        accepted files are appended, with no toast when there are none. */
    method HandleFileInput(chosen: Option<seq<FileInfo>>, ids: seq<string>)
      requires chosen.Some? ==> |ids| == |SvgFiles(chosen.value)|
      modifies this
      ensures chosen.None? ==> uploadedFiles == old(uploadedFiles)
      ensures chosen.Some? ==> uploadedFiles == old(uploadedFiles) + Entries(ids, SvgFiles(chosen.value))
      ensures tags == old(tags) && newTag == old(newTag) && isDragging == old(isDragging)
      ensures description == old(description) && selectedProject == old(selectedProject)
    {
      if chosen.None? {
        return;
      }
      uploadedFiles := uploadedFiles + Entries(ids, SvgFiles(chosen.value));
    }

    /** `removeFile`: exactly the entries with that id go. */
    method RemoveFile(id: string)
      modifies this
      ensures uploadedFiles == WhereNot(old(uploadedFiles), EntryId, id)
      ensures forall e :: e in uploadedFiles <==> e in old(uploadedFiles) && e.id != id
      ensures tags == old(tags) && newTag == old(newTag) && isDragging == old(isDragging)
      ensures description == old(description) && selectedProject == old(selectedProject)
    {
      uploadedFiles := WhereNot(uploadedFiles, EntryId, id);
      forall e ensures e in uploadedFiles <==> e in old(uploadedFiles) && e.id != id {
        assert e in uploadedFiles <==> multiset(uploadedFiles)[e] > 0;
        assert e in old(uploadedFiles) <==> multiset(old(uploadedFiles))[e] > 0;
      }
    }

    /** The tag input's `onChange`. */
    method TypeTag(text: string)
      modifies this
      ensures newTag == text
      ensures uploadedFiles == old(uploadedFiles) && tags == old(tags) && isDragging == old(isDragging)
      ensures description == old(description) && selectedProject == old(selectedProject)
    {
      newTag := text;
    }

    /** `addTag`: the trimmed input is appended and the input cleared when
        it is non-empty and not yet a tag; otherwise nothing changes. */
    method AddTag()
      requires Valid()
      modifies this
      ensures Valid()
      ensures var t := Trim(old(newTag));
        if t != "" && t !in old(tags)
        then tags == old(tags) + [t] && newTag == ""
        else tags == old(tags) && newTag == old(newTag)
      ensures uploadedFiles == old(uploadedFiles) && isDragging == old(isDragging)
      ensures description == old(description) && selectedProject == old(selectedProject)
    {
      var t := Trim(newTag);
      if t != "" && t !in tags {
        TrimIdempotent(newTag);
        tags := tags + [t];
        newTag := "";
        assert forall x :: multiset(tags)[x] == multiset(old(tags))[x] + (if x == t then 1 else 0);
      }
    }

    /** `removeTag`: every occurrence of the tag goes, the rest keep order. */
    method RemoveTag(tag: string)
      requires Valid()
      modifies this
      ensures Valid()
      ensures tags == RemoveAll(old(tags), tag)
      ensures tag !in tags
      ensures uploadedFiles == old(uploadedFiles) && newTag == old(newTag) && isDragging == old(isDragging)
      ensures description == old(description) && selectedProject == old(selectedProject)
    {
      tags := RemoveAll(tags, tag);
      forall x | x in tags ensures x in old(tags) {
        assert multiset(tags)[x] > 0;
      }
    }

    method SelectProject(id: string)
      modifies this
      ensures selectedProject == id
      ensures uploadedFiles == old(uploadedFiles) && tags == old(tags) && newTag == old(newTag)
      ensures description == old(description) && isDragging == old(isDragging)
    {
      selectedProject := id;
    }

    method EditDescription(text: string)
      modifies this
      ensures description == text
      ensures uploadedFiles == old(uploadedFiles) && tags == old(tags) && newTag == old(newTag)
      ensures selectedProject == old(selectedProject) && isDragging == old(isDragging)
    {
      description := text;
    }

    /** `handleUpload`: with no files only the no-files toast; otherwise the
        success toast, then files, tags and description are emptied and the
        project goes back to `"random"` (the tag input is kept). */
    method HandleUpload() returns (toast: UploadToast)
      requires Valid()
      modifies this
      ensures Valid()
      ensures old(uploadedFiles) == [] ==>
        toast == NoFilesSelected
        && uploadedFiles == old(uploadedFiles) && tags == old(tags)
        && description == old(description) && selectedProject == old(selectedProject)
      ensures old(uploadedFiles) != [] ==>
        toast == UploadSuccessful(UploadMessage(|old(uploadedFiles)|, old(selectedProject)))
        && uploadedFiles == [] && tags == [] && description == "" && selectedProject == "random"
      ensures newTag == old(newTag) && isDragging == old(isDragging)
    {
      if |uploadedFiles| == 0 {
        return NoFilesSelected;
      }
      toast := UploadSuccessful(UploadMessage(|uploadedFiles|, selectedProject));
      Reset();
    }

    /** The form as it is after a successful upload. */
    method Reset()
      modifies this
      ensures Valid()
      ensures uploadedFiles == [] && tags == [] && description == "" && selectedProject == "random"
      ensures newTag == old(newTag) && isDragging == old(isDragging)
    {
      uploadedFiles := [];
      tags := [];
      description := "";
      selectedProject := "random";
    }
  }
}
