/** Collision-free renaming of failed sql files (FileIO.cpp, `moveFilesLocal`). */
module FreshName {

  /** The last four characters make way for "_1.sql". */
  function NextName(name: string): (next: string)
    requires |name| >= 4
    ensures |next| == |name| + 2
  {
    name[..|name| - 4] + "_1.sql"
  }

  /** The name tried after `k` collisions. */
  function Attempt(name: string, k: nat): (r: string)
    requires |name| >= 4
    ensures |r| == |name| + 2 * k
  {
    if k == 0 then name else NextName(Attempt(name, k - 1))
  }

  function Repeat(part: string, k: nat): string {
    if k == 0 then [] else Repeat(part, k - 1) + part
  }

  /** On a name ending in ".sql" the attempts append one "_1" each to the stem. */
  lemma {:induction false} AttemptForm(stem: string, k: nat)
    ensures Attempt(stem + ".sql", k) == stem + Repeat("_1", k) + ".sql"
  {
    if k > 0 {
      AttemptForm(stem, k - 1);
      var before := stem + Repeat("_1", k - 1);
      assert (before + ".sql")[..|before|] == before;
      assert before + "_1.sql" == stem + (Repeat("_1", k - 1) + "_1") + ".sql";
    } else {
      assert stem + [] == stem;
    }
  }

  /** `k` is the least number of collisions that leads to a free name. */
  ghost predicate FirstFree(taken: set<string>, name: string, k: nat)
    requires |name| >= 4
  {
    Attempt(name, k) !in taken && forall j: nat :: j < k ==> Attempt(name, j) in taken
  }

  /** There is only one such number, so the chosen name is determined by the directory. */
  lemma FirstFreeUnique(taken: set<string>, name: string, j: nat, k: nat)
    requires |name| >= 4 && FirstFree(taken, name, j) && FirstFree(taken, name, k)
    ensures j == k
  {
  }

  /** A file tree, as far as renaming needs it: path to content. */
  class FileTree<Content> {
    var files: map<string, Content>

    /**
     * Moves `path` to the first free name derived from `dest`. Every other file keeps
     * its name and content, so nothing is overwritten.
     */
    method MoveFilesLocal(path: string, dest: string) returns (res: string, ghost tries: nat)
      requires |dest| >= 4 && path in files
      modifies this
      ensures FirstFree(old(files).Keys, dest, tries) && res == Attempt(dest, tries)
      ensures res !in old(files)
      ensures files == (old(files) - {path})[res := old(files)[path]]
    {
      res := dest;
      tries := 0;
      ghost var longer := files.Keys;
      while res in files
        invariant res == Attempt(dest, tries)
        invariant forall j: nat :: j < tries ==> Attempt(dest, j) in files
        invariant forall name :: name in files && |name| >= |res| ==> name in longer
        decreases longer
      {
        longer := longer - {res};
        res := res[..|res| - 4] + "_1.sql";
        tries := tries + 1;
      }
      files := (files - {path})[res := files[path]];
    }
  }
}
