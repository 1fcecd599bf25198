/** The local filesystem as the set of paths that exist. */
module Files {
  class Disk {
    var files: set<string>

    constructor (initial: set<string>)
      ensures files == initial
    {
      files := initial;
    }

    /** `fs.existsSync(path)`. */
    predicate Exists(path: string)
      reads this
    {
      path in files
    }

    /** Opening a write stream, or a child process writing its output: the file exists afterwards
        (an existing one is overwritten). */
    method Create(path: string)
      modifies this
      ensures files == old(files) + {path}
    {
      files := files + {path};
    }

    /** `fs.unlinkSync(path)`, which throws on a missing path. */
    method Unlink(path: string)
      requires path in files
      modifies this
      ensures files == old(files) - {path}
    {
      files := files - {path};
    }
  }
}
