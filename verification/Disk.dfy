/** The local file system below the storage root (storage/local.go): a name table over inodes, so
    that a rename or an unlink under an open handle does what POSIX does. */
module Disk {
  import opened Types

  /** Object keys by the purpose they are minted for.  The uuids inside the paths
      tmp/uploads/<user>/<uuid>.part and files/<user>/<date>/<uuid>.bin make them distinct. */
  datatype Key =
    | SessionTemp(sid: nat)
    | PartTemp(serial: nat)
    | Final(serial: nat)

  datatype Disk = Disk(names: map<Key, nat>, inodes: seq<Bytes>)
  {
    /** Every name denotes an inode, and no inode has two names. */
    ghost predicate Valid() {
      && (forall k :: k in names ==> names[k] < |inodes|)
      && (forall j, k :: j in names && k in names && names[j] == names[k] ==> j == k)
    }

    /** The bytes stored under a key; nothing when the key is absent. */
    function Peek(k: Key): Bytes {
      if k in names && names[k] < |inodes| then inodes[names[k]] else []
    }

    /** O_CREATE: the inode behind the key, made empty when the key is absent. */
    function Open(k: Key): (r: (Disk, nat)) {
      if k in names then (this, names[k])
      else (Disk(names[k := |inodes|], inodes + [[]]), |inodes|)
    }

    function Write(i: nat, data: Bytes): Disk
      requires i < |inodes|
    {
      this.(inodes := inodes[i := inodes[i] + data])
    }

    /** Creates or replaces the object in one rename (PutStream). */
    function Put(k: Key, data: Bytes): Disk {
      Disk(names[k := |inodes|], inodes + [data])
    }

    /** os.Rename: replaces whatever the target named. */
    function Rename(from: Key, to: Key): Disk
      requires from in names
    {
      this.(names := (names - {from})[to := names[from]])
    }

    function Remove(k: Key): Disk {
      this.(names := names - {k})
    }
  }
}
