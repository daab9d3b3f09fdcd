/** The local filesystem the backup writes to: the documents in each file and
    the directories that exist. Serialisation is not modelled; a file holds
    the value that was dumped into it. */
module Storage {
  import opened Api
  import opened Paths

  class FileSystem {
    var files: map<string, Value>
    var dirs: set<string>

    /** The parents of every directory exist, as on a real filesystem. */
    ghost predicate Valid()
      reads this
    {
      forall d | d in dirs :: Ancestors(d) <= dirs
    }

    constructor (files: map<string, Value>, dirs: set<string>)
      requires forall d | d in dirs :: Ancestors(d) <= dirs
      ensures this.files == files && this.dirs == dirs
      ensures Valid()
    {
      this.files := files;
      this.dirs := dirs;
    }

    /** `os.path.isdir(d)`. */
    method IsDir(d: string) returns (b: bool)
      ensures b <==> d in dirs
    {
      b := d in dirs;
    }

    /** `os.makedirs(d)`: afterwards `d` and every parent of it exist; no
        file changes. */
    method MakeDirs(d: string)
      requires Valid()
      modifies this
      ensures Valid()
      ensures dirs == old(dirs) + Ancestors(d)
      ensures files == old(files)
    {
      forall a | a in Ancestors(d)
        ensures Ancestors(a) <= Ancestors(d)
      {
        AncestorsClosed(d, a);
      }
      dirs := dirs + Ancestors(d);
    }

    /** `open(f, 'w')` and dump `v`: the whole previous content is replaced. */
    method WriteFile(f: string, v: Value)
      modifies this
      ensures files == old(files)[f := v]
      ensures dirs == old(dirs)
    {
      files := files[f := v];
    }
  }
}
