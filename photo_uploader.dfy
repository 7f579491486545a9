/**
 * The PhotoUploader component's state and its handlers. Each handler replaces
 * component state the way the component's setters do; the upload loop runs
 * the batch sequentially, with the network replaced by one outcome per file.
 */
module PhotoUploader {
  import opened Wrappers
  import opened Staging
  import opened Batch
  import opened Progress

  /** The folder the component starts with, and its only folder at first. */
  const DefaultFolder: string := "folder_1"

  class Uploader {
    var files: seq<Entry>
    var folders: seq<string>
    var currentFolder: string
    var newFolderName: string
    var isUploading: bool
    var uploadProgress: nat

    /** Folder names are unique, the active folder is one of them, every
        staged entry is tagged with a known folder, and progress is a percentage. */
    ghost predicate Valid()
      reads this
    {
      NoDuplicates(folders) &&
      currentFolder in folders &&
      (forall i :: 0 <= i < |files| ==> files[i].folder in folders) &&
      uploadProgress <= 100
    }

    constructor ()
      ensures Valid()
      ensures files == [] && folders == [DefaultFolder] && currentFolder == DefaultFolder
      ensures newFolderName == "" && !isUploading && uploadProgress == 0
    {
      files := [];
      folders := [DefaultFolder];
      currentFolder := DefaultFolder;
      newFolderName := "";
      isUploading := false;
      uploadProgress := 0;
    }

    /** A file selection: one pending entry per pick, tagged with the active folder. */
    method HandleFileChange(picks: seq<Pick>)
      requires Valid()
      modifies this
      ensures Valid()
      ensures files == Staged(old(files), picks, old(currentFolder))
      ensures folders == old(folders) && currentFolder == old(currentFolder)
      ensures newFolderName == old(newFolderName)
      ensures isUploading == old(isUploading) && uploadProgress == old(uploadProgress)
    {
      files := Staged(files, picks, currentFolder);
    }

    /** Drops every entry whose id is `id`; the rest keep their order. */
    method RemoveFile(id: string)
      requires Valid()
      modifies this
      ensures Valid()
      ensures files == Without(old(files), id)
      ensures folders == old(folders) && currentFolder == old(currentFolder)
      ensures newFolderName == old(newFolderName)
      ensures isUploading == old(isUploading) && uploadProgress == old(uploadProgress)
    {
      files := Without(files, id);
    }

    /** The folder-name input changing. */
    method SetNewFolderName(name: string)
      requires Valid()
      modifies this
      ensures Valid()
      ensures newFolderName == name
      ensures files == old(files) && folders == old(folders) && currentFolder == old(currentFolder)
      ensures isUploading == old(isUploading) && uploadProgress == old(uploadProgress)
    {
      newFolderName := name;
    }

    /** Choosing one of the listed folders as the active one. */
    method SelectFolder(name: string)
      requires Valid()
      requires name in folders
      modifies this
      ensures Valid()
      ensures currentFolder == name
      ensures files == old(files) && folders == old(folders) && newFolderName == old(newFolderName)
      ensures isUploading == old(isUploading) && uploadProgress == old(uploadProgress)
    {
      currentFolder := name;
    }

    /**
     * Adds the typed folder name when it is non-empty and new, makes it the
     * active folder and clears the input; otherwise nothing changes.
     */
    method AddFolder()
      requires Valid()
      modifies this
      ensures Valid()
      ensures folders == WithFolder(old(folders), old(newFolderName))
      ensures old(newFolderName) != "" && old(newFolderName) !in old(folders) ==>
                currentFolder == old(newFolderName) && newFolderName == ""
      ensures old(newFolderName) == "" || old(newFolderName) in old(folders) ==>
                folders == old(folders) && currentFolder == old(currentFolder) &&
                newFolderName == old(newFolderName)
      ensures files == old(files)
      ensures isUploading == old(isUploading) && uploadProgress == old(uploadProgress)
    {
      if newFolderName != "" && newFolderName !in folders {
        folders := WithFolder(folders, newFolderName);
        currentFolder := newFolderName;
        newFolderName := "";
      }
    }

    /**
     * Uploads every staged entry in order; `outcomes[i]` is what the server
     * answered for the i-th entry (the stored path, or None on failure).
     * Ignored when nothing is staged or a batch is running. Otherwise
     * `completed` is what the completion callback receives and `trace` the
     * aggregate progress set after each file.
     */
    method UploadFiles(outcomes: seq<Option<string>>) returns (completed: Option<seq<string>>, ghost trace: seq<nat>)
      requires Valid()
      requires |outcomes| == |files|
      modifies this
      ensures Valid()
      ensures folders == old(folders) && currentFolder == old(currentFolder)
      ensures newFolderName == old(newFolderName)
      ensures completed.None? <==> old(files) == [] || old(isUploading)
      ensures completed.None? ==>
                files == old(files) && isUploading == old(isUploading) &&
                uploadProgress == old(uploadProgress) && trace == []
      ensures completed.Some? ==>
                files == RunBatch(old(files), outcomes) &&
                (forall i :: 0 <= i < |files| ==> Terminal(files[i].status)) &&
                !isUploading && uploadProgress == 100 &&
                completed.value == SuccessPaths(outcomes) &&
                trace == Trace(|outcomes|, |outcomes|)
    {
      if |files| == 0 || isUploading {
        return None, [];
      }
      isUploading := true;
      uploadProgress := 0;
      var batch := files;
      var totalFiles := |batch|;
      var completedFiles := 0;
      var uploadedPaths: seq<string> := [];
      trace := [];
      files := AllUploading(files);

      for i := 0 to totalFiles
        invariant isUploading
        invariant folders == old(folders) && currentFolder == old(currentFolder)
        invariant newFolderName == old(newFolderName)
        invariant completedFiles == i
        invariant files == Settled(AllUploading(batch), batch, outcomes, i)
        invariant uploadedPaths == SuccessPaths(outcomes[..i])
        invariant uploadProgress == if i == 0 then 0 else Percent(i, totalFiles)
        invariant trace == Trace(i, totalFiles)
      {
        var file := batch[i];
        SuccessPathsStep(outcomes, i);
        match outcomes[i] {
          case Some(path) =>
            uploadedPaths := uploadedPaths + [path];
            files := MarkSuccess(files, file.id);
          case None =>
            files := MarkError(files, file.id);
        }
        completedFiles := completedFiles + 1;
        uploadProgress := Percent(completedFiles, totalFiles);
        trace := trace + [uploadProgress];
        assert files == Settled(AllUploading(batch), batch, outcomes, i + 1);
        assert uploadedPaths == SuccessPaths(outcomes[..i + 1]);
      }

      isUploading := false;
      assert outcomes[..totalFiles] == outcomes;
      PercentDone(totalFiles);
      BatchTerminal(batch, outcomes);
      completed := Some(uploadedPaths);
    }
  }

  /**
   * Two distinct files where the first upload stores "/a.jpg" and the second
   * fails: they end `Success` then `Error`, the callback gets ["/a.jpg"], and
   * the aggregate progress reads 50 then 100.
   */
  lemma {:induction false} TwoFileOutcome(files: seq<Entry>)
    requires |files| == 2 && files[0].id != files[1].id
    ensures var r := RunBatch(files, [Some("/a.jpg"), None]);
              |r| == 2 && r[0].status == Success && r[1].status == Error
    ensures SuccessPaths([Some("/a.jpg"), None]) == ["/a.jpg"]
    ensures Trace(2, 2) == [50, 100]
  {
    var outcomes := [Some("/a.jpg"), None];
    BatchOwnOutcome(files, outcomes);
    assert outcomes[..1] == [Some("/a.jpg")];
    assert outcomes[..1][..0] == [];
    assert Percent(1, 2) == 50;
    assert Percent(2, 2) == 100;
  }

  /** Two picks into the default folder; the first upload stores "/a.jpg", the second fails. */
  method TwoFileBatch() {
    var u := new Uploader();
    u.HandleFileChange([Pick("a.jpg-1", "a.jpg"), Pick("b.jpg-1", "b.jpg")]);
    var before := u.files;
    assert |before| == 2 && before[0].id == "a.jpg-1" && before[1].id == "b.jpg-1";
    var outcomes := [Some("/a.jpg"), None];
    TwoFileOutcome(before);
    var completed, trace := u.UploadFiles(outcomes);
    assert u.files[0].status == Success && u.files[1].status == Error;
    assert completed == Some(["/a.jpg"]);
    assert trace == [50, 100];
  }

  /** An empty name and a name already listed both leave the folders alone. */
  method RejectedFolderNames() {
    var u := new Uploader();
    u.SetNewFolderName("");
    u.AddFolder();
    u.SetNewFolderName(DefaultFolder);
    u.AddFolder();
    assert u.folders == [DefaultFolder] && u.currentFolder == DefaultFolder;
  }
}
