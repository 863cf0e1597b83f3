/** The lessons library: subjects with their objectives, and resources with
    tags and an optional file in the `resources` storage bucket. The search
    over the resources, the blank entries dropped from the lists of the
    forms, the additions, and the deletes, which remove files before rows and
    resources before their subject. */
module Lessons {
  import opened Common
  import opened Folds
  import opened Text
  import opened Records
  import opened Store

  function SubjectKey(s: Subject): Id
  {
    s.id
  }

  function ResourceKey(r: Resource): Id
  {
    r.id
  }

  // ---------------------------------------------------------------------
  // The search

  /** Some tag contains the query, ignoring case (`tags?.some(...)`). */
  predicate SomeTagMatches(tags: seq<string>, query: string)
  {
    exists i :: 0 <= i < |tags| && MatchesQuery(tags[i], query)
  }

  /** The title, the description (when there is one) or a tag contains the query. */
  predicate ResourceMatches(r: Resource, query: string)
  {
    MatchesQuery(r.title, query) || (r.description.Some? && MatchesQuery(r.description.value, query))
    || SomeTagMatches(r.tags, query)
  }

  /** No subject chosen (`None`), or the resource's own. */
  predicate InSubject(r: Resource, selected: Option<Id>)
  {
    selected.None? || r.subject == selected.value
  }

  function Listed(query: string, selected: Option<Id>): Resource -> bool
  {
    (r: Resource) => ResourceMatches(r, query) && InSubject(r, selected)
  }

  /** `filteredResources`, in the order of the list. */
  function FilteredResources(resources: seq<Resource>, query: string, selected: Option<Id>): (r: seq<Resource>)
    ensures forall i :: 0 <= i < |r| ==> ResourceMatches(r[i], query) && InSubject(r[i], selected)
    ensures forall i :: 0 <= i < |resources| && ResourceMatches(resources[i], query) && InSubject(resources[i], selected)
                        ==> resources[i] in r
    ensures multiset(r) <= multiset(resources)
  {
    Filter(resources, Listed(query, selected))
  }

  /** With an empty search the list shows every resource of the chosen
      subject, or every resource when none is chosen. */
  lemma EmptySearchListsSubject(resources: seq<Resource>, selected: Option<Id>)
    ensures FilteredResources(resources, "", selected) == Filter(resources, (r: Resource) => InSubject(r, selected))
    ensures selected.None? ==> FilteredResources(resources, "", selected) == resources
  {
    forall i | 0 <= i < |resources|
      ensures Listed("", selected)(resources[i]) == InSubject(resources[i], selected)
    {
      EmptyQueryMatches(resources[i].title);
    }
    FilterSame(resources, Listed("", selected), (r: Resource) => InSubject(r, selected));
    if selected.None? {
      FilterAll(resources, (r: Resource) => InSubject(r, selected));
    }
  }

  /** Searching for one of a resource's tags finds it, in any case. */
  lemma TagFindsResource(r: Resource, i: nat)
    requires i < |r.tags|
    ensures ResourceMatches(r, r.tags[i])
  {
    var t := Lower(r.tags[i]);
    assert OccursAt(t, t, 0);
  }

  // ---------------------------------------------------------------------
  // Blank entries

  /** `list.filter(x => x.trim() !== '')`: the objectives or tags saved. */
  function Cleaned(entries: seq<string>): (r: seq<string>)
    ensures forall i :: 0 <= i < |r| ==> NotBlank(r[i])
    ensures forall i :: 0 <= i < |entries| && NotBlank(entries[i]) ==> entries[i] in r
    ensures multiset(r) <= multiset(entries)
  {
    Filter(entries, NotBlank)
  }

  /** Cleaning keeps the order: the entries of two halves come out one half
      after the other; a cleaned list is left as it is; the blank form's
      single empty entry is dropped. */
  lemma CleanedKeepsOrder(a: seq<string>, b: seq<string>)
    ensures Cleaned(a + b) == Cleaned(a) + Cleaned(b)
    ensures Cleaned(Cleaned(a)) == Cleaned(a)
    ensures Cleaned([""]) == []
  {
    FilterAppend(a, b, NotBlank);
    FilterAll(Cleaned(a), NotBlank);
    assert !NotBlank("");
    assert [""][..0] == [];
  }

  // ---------------------------------------------------------------------
  // Additions

  /** `newSubject`. */
  datatype SubjectForm = SubjectForm(name: string, description: string, objectives: seq<string>)

  const BlankSubjectForm: SubjectForm := SubjectForm("", "", [""])

  /** The row `handleAddSubject` inserts, with the id the database gives. */
  function SubjectRow(id: Id, f: SubjectForm): (s: Subject)
    ensures s.id == id && s.name == f.name && s.objectives == Cleaned(f.objectives)
  {
    Subject(id, f.name, f.description, Cleaned(f.objectives))
  }

  /** `newResource`, with the file chosen, if any, as its name. */
  datatype ResourceForm = ResourceForm(title: string, description: string, subject: Id, fileName: Option<string>, tags: seq<string>)

  /** `${Math.random()}.${name.split('.').pop()}`: `random` is the text of the
      random number. */
  function UploadPath(random: string, fileName: string): (r: string)
    ensures |r| > |random| && r[..|random|] == random && r[|random|] == '.'
    ensures '.' !in r[|random| + 1..]
    ensures |r| - |random| - 1 <= |fileName| && r[|random| + 1..] == fileName[|fileName| - (|r| - |random| - 1)..]
  {
    var ext := AfterLast(fileName, '.');
    JoinedAt(random, ext);
    random + "." + ext
  }

  /** Where the two parts of `a.b` sit. */
  lemma JoinedAt(a: string, b: string)
    ensures var r := a + "." + b;
            |r| == |a| + 1 + |b| && r[..|a|] == a && r[|a|] == '.' && r[|a| + 1..] == b
  {
  }

  /** The path keeps the text after the last dot of the name, and the whole
      name when it has no dot. */
  lemma UploadPathExtension(random: string, fileName: string)
    ensures '.' !in fileName ==> UploadPath(random, fileName) == random + "." + fileName
    ensures forall i :: 0 <= i < |fileName| - 1 && fileName[i] == '.' && '.' !in fileName[i + 1..] ==>
              UploadPath(random, fileName) == random + "." + fileName[i + 1..]
  {
    var ext := AfterLast(fileName, '.');
    forall i | 0 <= i < |fileName| - 1 && fileName[i] == '.' && '.' !in fileName[i + 1..]
      ensures ext == fileName[i + 1..]
    {
      var start := |fileName| - |ext|;
      if start != i + 1 {
        assert false;
      }
    }
  }

  /** The row `handleAddResource` inserts: `file_url` is the uploaded path,
      or `null` without a file. */
  function ResourceRow(id: Id, f: ResourceForm, path: Option<string>): (r: Resource)
    ensures r.id == id && r.subject == f.subject && r.fileUrl == path && r.tags == Cleaned(f.tags)
  {
    Resource(id, f.title, Some(f.description), f.subject, path, Cleaned(f.tags))
  }

  // ---------------------------------------------------------------------
  // Deleting a subject

  function OfSubject(id: Id): Resource -> bool
  {
    (r: Resource) => r.subject == id
  }

  function NotOfSubject(id: Id): Resource -> bool
  {
    (r: Resource) => r.subject != id
  }

  /** The storage paths of the resources of `rs` that have a file. */
  function FilesOf(rs: seq<Resource>): set<string>
  {
    if rs == [] then {}
    else FilesOf(rs[..|rs| - 1]) + (if HasFile(rs[|rs| - 1]) then {rs[|rs| - 1].fileUrl.value} else {})
  }

  lemma FilesOfPrefix(rs: seq<Resource>, i: nat)
    requires i < |rs|
    ensures FilesOf(rs[..i + 1]) == FilesOf(rs[..i]) + (if HasFile(rs[i]) then {rs[i].fileUrl.value} else {})
  {
    assert rs[..i + 1][..i] == rs[..i];
  }

  /** The file paths of `rs` are exactly the paths of its resources with a file. */
  lemma {:induction false} FilesOfExact(rs: seq<Resource>, p: string)
    ensures p in FilesOf(rs) <==> exists i :: 0 <= i < |rs| && HasFile(rs[i]) && rs[i].fileUrl.value == p
  {
    if rs != [] {
      var init := rs[..|rs| - 1];
      FilesOfExact(init, p);
      assert forall i :: 0 <= i < |init| ==> init[i] == rs[i];
    }
  }

  /** The index of the first resource whose file cannot be removed
      (its path is in `broken`), or `|rs|` when every removal succeeds. */
  function FirstBroken(rs: seq<Resource>, broken: set<string>): (k: nat)
    ensures k <= |rs|
    ensures forall i :: 0 <= i < k ==> !(HasFile(rs[i]) && rs[i].fileUrl.value in broken)
    ensures k < |rs| ==> HasFile(rs[k]) && rs[k].fileUrl.value in broken
  {
    if rs == [] then 0
    else if HasFile(rs[0]) && rs[0].fileUrl.value in broken then 0
    else
      var k := FirstBroken(rs[1..], broken);
      assert forall i :: 0 <= i < |rs| - 1 ==> rs[1..][i] == rs[i + 1];
      k + 1
  }

  /** Every resource belongs to a subject of the table. */
  predicate NoOrphans(subjects: seq<Subject>, resources: seq<Resource>)
  {
    forall i :: 0 <= i < |resources| ==> exists j :: 0 <= j < |subjects| && subjects[j].id == resources[i].subject
  }

  /** Deleting the subject's resources first and the subject second leaves no
      resource without its subject after either step. */
  lemma CascadeKeepsResourcesOwned(subjects: seq<Subject>, resources: seq<Resource>, id: Id)
    requires NoOrphans(subjects, resources)
    ensures NoOrphans(subjects, Filter(resources, NotOfSubject(id)))
    ensures NoOrphans(Without(subjects, SubjectKey, id), Filter(resources, NotOfSubject(id)))
  {
    var kept := Filter(resources, NotOfSubject(id));
    forall i | 0 <= i < |kept|
      ensures exists j :: 0 <= j < |subjects| && subjects[j].id == kept[i].subject
    {
      assert multiset(kept)[kept[i]] > 0;
      assert kept[i] in resources;
      var k :| 0 <= k < |resources| && resources[k] == kept[i];
    }
    OwnedAfterSubjectDeleted(subjects, kept, id);
  }

  lemma OwnedAfterSubjectDeleted(subjects: seq<Subject>, resources: seq<Resource>, id: Id)
    requires NoOrphans(subjects, resources)
    requires forall i :: 0 <= i < |resources| ==> resources[i].subject != id
    ensures NoOrphans(Without(subjects, SubjectKey, id), resources)
  {
    var rest := Without(subjects, SubjectKey, id);
    forall i | 0 <= i < |resources|
      ensures exists m :: 0 <= m < |rest| && rest[m].id == resources[i].subject
    {
      var j :| 0 <= j < |subjects| && subjects[j].id == resources[i].subject;
      assert subjects[j] in rest;
      var m :| 0 <= m < |rest| && rest[m] == subjects[j];
    }
  }

  datatype SubjectDeleteOutcome =
    | SubjectCancelled
    | FetchFailed
    | FileNotRemoved(path: string)
    | ResourcesNotDeleted
    | SubjectNotDeleted
    | SubjectDeleted

  datatype ResourceDeleteOutcome = ResourceCancelled | StoredFileNotRemoved | RowNotDeleted | ResourceDeleted

  class LessonsPage {
    var subjects: seq<Subject>
    var resources: seq<Resource>
    var query: string
    var selected: Option<Id>

    constructor()
      ensures subjects == [] && resources == [] && query == "" && selected == None
    {
      subjects := [];
      resources := [];
      query := "";
      selected := None;
    }

    /** `handleAddSubject`: the new row goes at the end of the list. */
    method AddSubject(db: Database, f: SubjectForm, newId: Id, fails: bool) returns (ok: bool)
      modifies db`subjects, this`subjects
      ensures ok <==> !fails
      ensures db.subjects == if ok then old(db.subjects) + [SubjectRow(newId, f)] else old(db.subjects)
      ensures subjects == if ok then old(subjects) + [SubjectRow(newId, f)] else old(subjects)
    {
      if fails {
        return false;
      }
      var row := SubjectRow(newId, f);
      db.subjects := db.subjects + [row];
      subjects := subjects + [row];
      ok := true;
    }

    /** `handleAddResource`: the chosen file is uploaded first under
        `UploadPath(random, name)`, then the row is inserted and goes at the
        front of the list. A failed upload writes nothing; a failed insert
        leaves the uploaded file in storage. */
    method AddResource(db: Database, f: ResourceForm, random: string, newId: Id, uploadFails: bool, insertFails: bool)
      returns (ok: bool)
      modifies db`files, db`resources, this`resources
      ensures var path := if f.fileName.Some? then Some(UploadPath(random, f.fileName.value)) else None;
              && (ok <==> !(f.fileName.Some? && uploadFails) && !insertFails)
              && db.files == (if path.Some? && !uploadFails then old(db.files) + {path.value} else old(db.files))
              && db.resources == (if ok then old(db.resources) + [ResourceRow(newId, f, path)] else old(db.resources))
              && resources == (if ok then [ResourceRow(newId, f, path)] + old(resources) else old(resources))
    {
      var path := if f.fileName.Some? then Some(UploadPath(random, f.fileName.value)) else None;
      ok := StoreResource(db, f, path, newId, uploadFails, insertFails);
    }

    /** The upload and the insert of `handleAddResource`, for the storage path
        of the chosen file, if any. */
    method StoreResource(db: Database, f: ResourceForm, path: Option<string>, newId: Id, uploadFails: bool, insertFails: bool)
      returns (ok: bool)
      modifies db`files, db`resources, this`resources
      ensures ok <==> !(path.Some? && uploadFails) && !insertFails
      ensures db.files == (if path.Some? && !uploadFails then old(db.files) + {path.value} else old(db.files))
      ensures db.resources == (if ok then old(db.resources) + [ResourceRow(newId, f, path)] else old(db.resources))
      ensures resources == (if ok then [ResourceRow(newId, f, path)] + old(resources) else old(resources))
    {
      if path.Some? {
        if uploadFails {
          return false;
        }
        db.files := db.files + {path.value};
      }
      if insertFails {
        return false;
      }
      var row := ResourceRow(newId, f, path);
      db.resources := db.resources + [row];
      resources := [row] + resources;
      ok := true;
    }

    /** `handleDeleteResource`: asks first; removes the file when the card
        passes a path, then the row, then drops the resource from the list. */
    method DeleteResource(db: Database, id: Id, fileUrl: Option<string>, confirmed: bool,
                          storageFails: bool, rowFails: bool) returns (r: ResourceDeleteOutcome)
      modifies db`files, db`resources, this`resources
      ensures var hasFile := fileUrl.Some? && fileUrl.value != "";
              && r == (if !confirmed then ResourceCancelled
                       else if hasFile && storageFails then StoredFileNotRemoved
                       else if rowFails then RowNotDeleted
                       else ResourceDeleted)
              && db.files == (if confirmed && hasFile && !storageFails then old(db.files) - {fileUrl.value} else old(db.files))
              && db.resources == (if r == ResourceDeleted then Without(old(db.resources), ResourceKey, id) else old(db.resources))
              && resources == (if r == ResourceDeleted then Without(old(resources), ResourceKey, id) else old(resources))
    {
      if !confirmed {
        return ResourceCancelled;
      }
      if fileUrl.Some? && fileUrl.value != "" {
        if storageFails {
          return StoredFileNotRemoved;
        }
        db.files := db.files - {fileUrl.value};
      }
      if rowFails {
        return RowNotDeleted;
      }
      db.resources := Without(db.resources, ResourceKey, id);
      resources := Without(resources, ResourceKey, id);
      r := ResourceDeleted;
    }

    /** `handleDeleteSubject`: asks first; fetches the subject's resources,
        removes their files one by one (a path in `broken` cannot be removed
        and stops the delete), deletes their rows when there were any, then
        the subject, and only then drops the subject from the list. The list
        of resources on the page is left as it was. */
    method DeleteSubject(db: Database, id: Id, confirmed: bool, fetchFails: bool, broken: set<string>,
                         rowsFail: bool, subjectFails: bool) returns (r: SubjectDeleteOutcome)
      modifies db`files, db`resources, db`subjects, this`subjects
      ensures var related := Filter(old(db.resources), OfSubject(id));
              var stop := FirstBroken(related, broken);
              && r == (if !confirmed then SubjectCancelled
                       else if fetchFails then FetchFailed
                       else if stop < |related| then FileNotRemoved(related[stop].fileUrl.value)
                       else if |related| > 0 && rowsFail then ResourcesNotDeleted
                       else if subjectFails then SubjectNotDeleted
                       else SubjectDeleted)
              && db.files == (if !confirmed || fetchFails then old(db.files) else old(db.files) - FilesOf(related[..stop]))
              && db.resources == (if r == SubjectNotDeleted || r == SubjectDeleted then Filter(old(db.resources), NotOfSubject(id))
                                  else old(db.resources))
              && db.subjects == (if r == SubjectDeleted then Without(old(db.subjects), SubjectKey, id) else old(db.subjects))
              && subjects == (if r == SubjectDeleted then Without(old(subjects), SubjectKey, id) else old(subjects))
              && resources == old(resources)
    {
      if !confirmed {
        return SubjectCancelled;
      }
      if fetchFails {
        return FetchFailed;
      }
      var related := Filter(db.resources, OfSubject(id));
      ghost var stop := FirstBroken(related, broken);
      var failed := RemoveFiles(db, related, broken);
      if failed.Some? {
        assert db.resources == old(db.resources) && stop < |related|;
        return FileNotRemoved(failed.value);
      }
      assert stop == |related|;
      r := DeleteRows(db, id, related, rowsFail, subjectFails);
    }

    /** The steps of `handleDeleteSubject` after the files are gone: the rows
        of the subject's resources when there were any, then the subject. */
    method DeleteRows(db: Database, id: Id, related: seq<Resource>, rowsFail: bool, subjectFails: bool)
      returns (r: SubjectDeleteOutcome)
      requires related == Filter(db.resources, OfSubject(id))
      modifies db`resources, db`subjects, this`subjects
      ensures r == (if |related| > 0 && rowsFail then ResourcesNotDeleted
                    else if subjectFails then SubjectNotDeleted
                    else SubjectDeleted)
      ensures db.resources == (if r == ResourcesNotDeleted then old(db.resources)
                               else Filter(old(db.resources), NotOfSubject(id)))
      ensures db.subjects == (if r == SubjectDeleted then Without(old(db.subjects), SubjectKey, id) else old(db.subjects))
      ensures subjects == (if r == SubjectDeleted then Without(old(subjects), SubjectKey, id) else old(subjects))
    {
      if |related| > 0 {
        if rowsFail {
          return ResourcesNotDeleted;
        }
        db.resources := Filter(db.resources, NotOfSubject(id));
      } else {
        FilterAll(db.resources, NotOfSubject(id));
      }
      if subjectFails {
        return SubjectNotDeleted;
      }
      db.subjects := Without(db.subjects, SubjectKey, id);
      subjects := Without(subjects, SubjectKey, id);
      r := SubjectDeleted;
    }
  }

  /** The loop of `handleDeleteSubject` over the fetched resources: the file
      of each resource that has one is removed in turn, until a removal fails. */
  method RemoveFiles(db: Database, related: seq<Resource>, broken: set<string>) returns (failed: Option<string>)
    modifies db`files
    ensures var stop := FirstBroken(related, broken);
            && (failed.None? <==> stop == |related|)
            && (failed.Some? ==> failed.value == related[stop].fileUrl.value)
            && db.files == old(db.files) - FilesOf(related[..stop])
  {
    var stop := FirstBroken(related, broken);
    var i := 0;
    while i < |related|
      invariant 0 <= i <= stop
      invariant db.files == old(db.files) - FilesOf(related[..i])
    {
      var res := related[i];
      if HasFile(res) {
        if res.fileUrl.value in broken {
          return Some(res.fileUrl.value);
        }
        db.files := db.files - {res.fileUrl.value};
      }
      FilesOfPrefix(related, i);
      i := i + 1;
    }
    return None;
  }

  /** The loop runs to the end exactly when no file of the subject's
      resources fails to be removed; then every such file is gone. */
  lemma AllFilesRemoved(rs: seq<Resource>, broken: set<string>, files: set<string>)
    ensures FirstBroken(rs, broken) == |rs| <==> forall i :: 0 <= i < |rs| && HasFile(rs[i]) ==> rs[i].fileUrl.value !in broken
    ensures FirstBroken(rs, broken) == |rs| ==>
              forall i :: 0 <= i < |rs| && HasFile(rs[i]) ==> rs[i].fileUrl.value !in files - FilesOf(rs[..FirstBroken(rs, broken)])
  {
    if FirstBroken(rs, broken) == |rs| {
      assert rs[..|rs|] == rs;
      forall i | 0 <= i < |rs| && HasFile(rs[i])
        ensures rs[i].fileUrl.value in FilesOf(rs)
      {
        FilesOfExact(rs, rs[i].fileUrl.value);
      }
    }
  }

  /** The page keeps listing the resources of a deleted subject: their rows
      are gone from the table but not from the page's list. */
  lemma DeletedSubjectResourcesStillListed(r: Resource)
    ensures var rows := Filter([r], NotOfSubject(r.subject));
            && rows == []
            && FilteredResources([r], "", None) == [r]
  {
    assert [r][..0] == [];
    EmptySearchListsSubject([r], None);
  }
}
