/**
 * The local scratch area of client.py: one directory `data/<file id>` per
 * Drive file, created by `download_csv_file` (client.py:35-37) and removed
 * by `cleanup` (client.py:79-87). Only which directories exist is modelled,
 * not the files inside them.
 */
module LocalWorkspace {

  type FileId = string

  /** Which branch of `cleanup` ran; none of them lets an exception escape. */
  datatype CleanupReport = Removed | NotFound | OsError

  /**
   * The directories left after `cleanup(id)`. `fault` stands for an OS error
   * that `shutil.rmtree` runs into on an existing directory (a permission
   * problem, say); the model then keeps the directory.
   */
  function CleanedDirs(dirs: set<FileId>, id: FileId, fault: bool): (r: set<FileId>)
    ensures r <= dirs
    ensures forall x :: x != id ==> (x in r <==> x in dirs)
    ensures id in r <==> id in dirs && fault
  {
    if id in dirs && fault then dirs else dirs - {id}
  }

  /** Cleaning the same id twice leaves what cleaning it once left. */
  lemma CleanupIdempotent(dirs: set<FileId>, id: FileId, fault: bool)
    ensures CleanedDirs(CleanedDirs(dirs, id, fault), id, fault) == CleanedDirs(dirs, id, fault)
  {
  }

  class Workspace {
    /** The ids `x` for which the directory `data/x` exists. */
    var dirs: set<FileId>

    constructor (existing: set<FileId>)
      ensures dirs == existing
    {
      dirs := existing;
    }

    /** `if not os.path.exists(path): os.mkdir(path)`: creating an existing directory is a no-op. */
    method EnsureDir(id: FileId)
      modifies this
      ensures dirs == old(dirs) + {id}
    {
      if id !in dirs {
        dirs := dirs + {id};
      }
    }

    /**
     * `cleanup`: removes `data/<id>`; a missing directory and an OS error are
     * both reported and swallowed. Other directories are never touched.
     */
    method Cleanup(id: FileId, fault: bool) returns (report: CleanupReport)
      modifies this
      ensures report == NotFound <==> id !in old(dirs)
      ensures report == OsError <==> id in old(dirs) && fault
      ensures dirs == CleanedDirs(old(dirs), id, fault)
      ensures report != OsError ==> id !in dirs
    {
      if id !in dirs {
        report := NotFound;
      } else if fault {
        report := OsError;
      } else {
        dirs := dirs - {id};
        report := Removed;
      }
    }
  }
}
