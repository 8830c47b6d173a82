/**
 * The host filesystem as far as the organizer touches it: the set of
 * existing directories and, for each tracked file, the directory that holds
 * it.  Which directory creations and which moves the host refuses
 * (permissions, an invalid path, a full disk, a name already taken at the
 * destination) is fixed per filesystem and not derived here.
 */
module FileSystemModel {

  import opened Paths

  /** What `os.mkdir` does: create, raise "already exists", or raise anything else. */
  datatype MkdirOutcome = Created | AlreadyExists | MkdirFailed

  class FileSystem {
    var dirs: set<Path>
    /** Each tracked file (by the path it was discovered at) to its current directory. */
    var location: map<Path, Path>
    /** Directories whose creation fails for a reason other than already existing. */
    const mkdirDenied: set<Path>
    /** Files whose move fails. */
    const moveDenied: set<Path>

    /** Every tracked file lies in an existing directory. */
    ghost predicate Valid()
      reads this
    {
      forall f :: f in location ==> location[f] in dirs
    }

    constructor (dirs: set<Path>, location: map<Path, Path>, mkdirDenied: set<Path>, moveDenied: set<Path>)
      requires forall f :: f in location ==> location[f] in dirs
      ensures Valid()
      ensures this.dirs == dirs && this.location == location
      ensures this.mkdirDenied == mkdirDenied && this.moveDenied == moveDenied
    {
      this.dirs := dirs;
      this.location := location;
      this.mkdirDenied := mkdirDenied;
      this.moveDenied := moveDenied;
    }

    /** Creates directory `d`; an existing `d` is reported, not created again. */
    method MakeDir(d: Path) returns (r: MkdirOutcome)
      requires Valid()
      modifies this`dirs
      ensures Valid()
      ensures d in old(dirs) ==> r == AlreadyExists && dirs == old(dirs)
      ensures d !in old(dirs) && d in mkdirDenied ==> r == MkdirFailed && dirs == old(dirs)
      ensures d !in old(dirs) && d !in mkdirDenied ==> r == Created && dirs == old(dirs) + {d}
    {
      if d in dirs {
        r := AlreadyExists;
      } else if d in mkdirDenied {
        r := MkdirFailed;
      } else {
        dirs := dirs + {d};
        r := Created;
      }
    }

    /**
     * Moves file `f` into the existing directory `dest`.  Moving a file the
     * filesystem does not hold fails, as does a move the host refuses.
     */
    method Move(f: Path, dest: Path) returns (ok: bool)
      requires Valid() && dest in dirs
      modifies this`location
      ensures Valid()
      ensures ok <==> f in old(location) && f !in moveDenied
      ensures location == if ok then old(location)[f := dest] else old(location)
    {
      ok := f in location && f !in moveDenied;
      if ok {
        location := location[f := dest];
      }
    }
  }

}
