// The objects a server works on: a storage tier and the descriptors of its process.

module Storages {
  import opened Basics
  import opened Descriptors
  import opened Servers

  /** What a storage tier holds: files, directories, and real symbolic links to storage paths. Its root
      directory is "", and every other path is slash-rooted. */
  datatype Store = Store(root: string, files: Tier, dirs: set<Path>, links: map<Path, string>) {
    predicate Has(p: Path) { p in files || p in dirs || p in links }
  }

  /** One storage tier. */
  class Storage {
    const root: string
    var files: Tier
    var dirs: set<Path>
    var links: map<Path, string>

    constructor (root: string, files: Tier, dirs: set<Path>)
      ensures this.root == root && this.files == files && this.dirs == dirs && links == map[]
    {
      this.root, this.files, this.dirs, links := root, files, dirs, map[];
    }

    function Contents(): Store
      reads this
    {
      Store(root, files, dirs, links)
    }
  }

  /** The open descriptors of one server process. */
  class Process {
    var open: OpenFiles

    constructor ()
      ensures open == map[]
    {
      open := map[];
    }
  }
}
