/**
 * The uploader's list of staged files and its folder labels, as values:
 * staging new picks, removing an entry by id, and adding a folder name.
 */
module Staging {

  /** Where one staged entry is in its upload. */
  datatype Status = Pending | Uploading | Success | Error

  /** One file the user picked. `id` is the key the component derives from the
      file name and the clock; `name` stands for the browser's File handle. */
  datatype Pick = Pick(id: string, name: string)

  /** One entry of the staged list. */
  datatype Entry = Entry(id: string, name: string, status: Status, progress: nat, folder: string)

  /** A status no upload step moves an entry out of. */
  predicate Terminal(s: Status) {
    s == Success || s == Error
  }

  /** The entry created for a fresh pick: pending, no progress, tagged with `folder`. */
  function Fresh(p: Pick, folder: string): (e: Entry)
    ensures e.id == p.id && e.name == p.name && e.folder == folder
    ensures e.status == Pending && e.progress == 0
  {
    Entry(p.id, p.name, Pending, 0, folder)
  }

  /** One fresh entry per pick, in the order of the picks. */
  function NewEntries(picks: seq<Pick>, folder: string): (r: seq<Entry>)
    ensures |r| == |picks|
    ensures forall i {:trigger r[i]} :: 0 <= i < |picks| ==> r[i] == Fresh(picks[i], folder)
  {
    if picks == [] then [] else [Fresh(picks[0], folder)] + NewEntries(picks[1..], folder)
  }

  /** The list after a file selection: the new entries go after the existing ones. */
  function Staged(files: seq<Entry>, picks: seq<Pick>, folder: string): (r: seq<Entry>)
    ensures |r| == |files| + |picks|
    ensures r[..|files|] == files
    ensures forall i {:trigger r[i]} :: |files| <= i < |r| ==> r[i] == Fresh(picks[i - |files|], folder)
    ensures picks == [] ==> r == files
  {
    files + NewEntries(picks, folder)
  }

  lemma {:induction false} NewEntriesConcat(p: seq<Pick>, q: seq<Pick>, folder: string)
    ensures NewEntries(p + q, folder) == NewEntries(p, folder) + NewEntries(q, folder)
  {
    if p != [] {
      assert (p + q)[1..] == p[1..] + q;
      NewEntriesConcat(p[1..], q, folder);
    }
  }

  /** Two selections in a row stage the same list as one selection of all the picks. */
  lemma {:induction false} StagedTwice(files: seq<Entry>, p: seq<Pick>, q: seq<Pick>, folder: string)
    ensures Staged(Staged(files, p, folder), q, folder) == Staged(files, p + q, folder)
  {
    var a, b := NewEntries(p, folder), NewEntries(q, folder);
    calc {
      Staged(Staged(files, p, folder), q, folder);
      (files + a) + b;
      files + (a + b);
      { NewEntriesConcat(p, q, folder); }
      Staged(files, p + q, folder);
    }
  }

  /** The list without the entries whose id is `id`. */
  function Without(files: seq<Entry>, id: string): (r: seq<Entry>)
    ensures |r| <= |files|
    ensures forall e :: e in r <==> e in files && e.id != id
  {
    if files == [] then []
    else (if files[0].id == id then [] else [files[0]]) + Without(files[1..], id)
  }

  /** Removal keeps the relative order: it works piece by piece on a concatenation. */
  lemma {:induction false} WithoutConcat(a: seq<Entry>, b: seq<Entry>, id: string)
    ensures Without(a + b, id) == Without(a, id) + Without(b, id)
  {
    if a == [] {
      assert a + b == b;
    } else {
      assert (a + b)[1..] == a[1..] + b;
      WithoutConcat(a[1..], b, id);
    }
  }

  /** Removing an id no entry carries changes nothing. */
  lemma {:induction false} WithoutAbsent(files: seq<Entry>, id: string)
    requires forall i :: 0 <= i < |files| ==> files[i].id != id
    ensures Without(files, id) == files
  {
    if files != [] {
      WithoutAbsent(files[1..], id);
    }
  }

  /** Removing the same id twice is the same as removing it once. */
  lemma WithoutIdempotent(files: seq<Entry>, id: string)
    ensures Without(Without(files, id), id) == Without(files, id)
  {
    var r := Without(files, id);
    forall i | 0 <= i < |r| ensures r[i].id != id {
      assert r[i] in r;
    }
    WithoutAbsent(r, id);
  }

  /** No name occurs twice. */
  predicate NoDuplicates(s: seq<string>) {
    forall i, j :: 0 <= i < j < |s| ==> s[i] != s[j]
  }

  /** The folder list after asking to add `name`: empty and known names are ignored. */
  function WithFolder(folders: seq<string>, name: string): (r: seq<string>)
    ensures (r == folders) <==> (name == "" || name in folders)
    ensures forall f :: f in r <==> f in folders || (f == name && name != "")
    ensures r != folders ==> r == folders + [name]
    ensures |folders| <= |r| && r[..|folders|] == folders
    ensures NoDuplicates(folders) ==> NoDuplicates(r)
  {
    if name != "" && name !in folders then folders + [name] else folders
  }
}
