/** The client's global descriptor maps and the functions that change them in place. */
module DescriptorTables {
  import opened Types
  import opened Descriptors

  /** What the shared pointer of a file entry points to. */
  class OffsetCell {
    var value: U64

    constructor (value: U64)
      ensures this.value == value
    {
      this.value := value;
    }
  }

  class FileTables {
    var capioFilesPaths: map<Path, set<Fd>>
    var capioFilesDescriptors: map<Fd, Path>
    var files: map<Fd, Entry<OffsetCell>>

    ghost function Contents(): Tables<OffsetCell>
      reads this
    {
      Tables(capioFilesPaths, capioFilesDescriptors, files)
    }

    ghost predicate Valid()
      reads this
    {
      Inverse(Contents())
    }

    constructor ()
      ensures Valid() && Contents() == Tables(map[], map[], map[])
    {
      capioFilesPaths, capioFilesDescriptors, files := map[], map[], map[];
    }

    method AddCapioPath(path: Path)
      modifies this`capioFilesPaths
      ensures capioFilesPaths == InsertNew(old(capioFilesPaths), path, {})
    {
      if path !in capioFilesPaths {
        capioFilesPaths := capioFilesPaths[path := {}];
      }
    }

    method AddCapioFd(path: Path, fd: Fd, offset: U64, cloexec: bool) returns (cell: OffsetCell)
      modifies this
      ensures fresh(cell) && cell.value == offset
      ensures Contents() == Add(old(Contents()), path, fd, cell, cloexec)
    {
      AddCapioPath(path);
      capioFilesPaths := capioFilesPaths[path := capioFilesPaths[path] + {fd}];
      capioFilesDescriptors := InsertNew(capioFilesDescriptors, fd, path);
      cell := new OffsetCell(offset);
      files := InsertNew(files, fd, Entry(cell, cloexec));
    }

    method DeleteCapioFd(fd: Fd)
      requires Tracked(Contents(), fd)
      modifies this
      ensures Contents() == Delete(old(Contents()), fd)
    {
      var path := capioFilesDescriptors[fd];
      capioFilesPaths := capioFilesPaths[path := capioFilesPaths[path] - {fd}];
      capioFilesDescriptors := capioFilesDescriptors - {fd};
      files := files - {fd};
    }

    /** Erases the descriptors of the path one by one while walking them, then the path. */
    method DeleteCapioPath(path: Path)
      requires Valid()
      modifies this
      ensures Valid() && Contents() == DeletePath(old(Contents()), path)
    {
      DeletePathKeepsInverse(Contents(), path);
      if path in capioFilesPaths {
        ghost var t := Contents();
        DeletedAll(t, path);
        while capioFilesPaths[path] != {}
          invariant path in capioFilesPaths && capioFilesPaths[path] <= t.paths[path]
          invariant Contents() == PartlyDeleted(t, path, capioFilesPaths[path])
          decreases capioFilesPaths[path]
        {
          var fd :| fd in capioFilesPaths[path];
          DeleteOneMore(t, path, capioFilesPaths[path], fd);
          DeleteCapioFd(fd);
        }
        capioFilesPaths := capioFilesPaths - {path};
      }
    }

    method DupCapioFd(oldfd: Fd, newfd: Fd, cloexec: bool)
      requires Tracked(Contents(), oldfd)
      modifies this
      ensures Contents() == Dup(old(Contents()), oldfd, newfd, cloexec)
    {
      var path := capioFilesDescriptors[oldfd];
      capioFilesPaths := capioFilesPaths[path := capioFilesPaths[path] + {newfd}];
      files := InsertNew(files, newfd, files[oldfd]);
      SetCapioFdCloexec(newfd, cloexec);
      capioFilesDescriptors := InsertNew(capioFilesDescriptors, newfd, capioFilesDescriptors[oldfd]);
    }

    method SetCapioFdCloexec(fd: Fd, cloexec: bool)
      requires fd in files
      modifies this`files
      ensures Contents() == SetCloexec(old(Contents()), fd, cloexec)
    {
      files := files[fd := files[fd].(cloexec := cloexec)];
    }

    /** Extracts the node of the old path, reinserts it under the new one, and rewrites the paths of its descriptors. */
    method RenameCapioPath(oldpath: Path, newpath: Path)
      requires Valid()
      modifies this
      ensures Contents() == RenamePath(old(Contents()), oldpath, newpath)
    {
      if oldpath in capioFilesPaths {
        ghost var t := Contents();
        var entry := capioFilesPaths[oldpath];
        capioFilesPaths := InsertNew(capioFilesPaths - {oldpath}, newpath, entry);
        ghost var moved, all := capioFilesPaths, capioFilesPaths[newpath];
        var todo := capioFilesPaths[newpath];
        while todo != {}
          invariant todo <= all && capioFilesPaths == moved && files == t.files
          invariant capioFilesDescriptors.Keys == t.descriptors.Keys
          invariant forall fd | fd in t.descriptors ::
                      capioFilesDescriptors[fd] == if fd in all - todo then newpath else t.descriptors[fd]
        {
          var fd :| fd in todo;
          assert fd in t.descriptors;
          capioFilesDescriptors := capioFilesDescriptors[fd := newpath];
          todo := todo - {fd};
        }
      }
    }

    function GetCapioFdOffset(fd: Fd): U64
      reads this, if fd in files then {files[fd].cell} else {}
      requires fd in files
    {
      files[fd].cell.value
    }

    /** Writes through the shared pointer: every descriptor on the same cell sees it, and no other does. */
    method SetCapioFdOffset(fd: Fd, offset: U64)
      requires fd in files
      modifies files[fd].cell
      ensures forall g | g in files ::
                GetCapioFdOffset(g) == if files[g].cell == files[fd].cell then offset else old(GetCapioFdOffset(g))
    {
      files[fd].cell.value := offset;
    }
  }
}
