/** The lock that keeps a workspace to one process, over an abstract OS file lock. */
module WorkspaceLocks {
  import opened Options

  type Descriptor = nat

  /** The lock file as the OS sees it: the descriptors open on it, and which one has the lock. */
  class LockFile {
    var open: set<Descriptor>
    var owner: Option<Descriptor>
    var next: Descriptor

    ghost predicate Valid()
      reads this
    {
      && (owner.Some? ==> owner.value in open)
      && forall fd | fd in open :: fd < next
    }

    constructor ()
      ensures Valid() && open == {} && owner == None
    {
      open, owner, next := {}, None, 0;
    }

    method Open() returns (fd: Descriptor)
      requires Valid()
      modifies this
      ensures Valid() && fd !in old(open) && open == old(open) + {fd} && owner == old(owner)
    {
      fd := next;
      open, next := open + {fd}, next + 1;
    }

    method TryLock(fd: Descriptor) returns (ok: bool)
      requires Valid() && fd in open
      modifies this`owner
      ensures Valid() && ok == (old(owner) == None || old(owner) == Some(fd))
      ensures owner == if ok then Some(fd) else old(owner)
    {
      ok := owner == None || owner == Some(fd);
      if ok {
        owner := Some(fd);
      }
    }

    /** Closing a descriptor, or the death of the process that had it, drops its lock. */
    method Close(fd: Descriptor)
      requires Valid()
      modifies this
      ensures Valid() && open == old(open) - {fd}
      ensures owner == if old(owner) == Some(fd) then None else old(owner)
    {
      open := open - {fd};
      if owner == Some(fd) {
        owner := None;
      }
    }
  }

  class WorkspaceLock {
    const file: LockFile
    var fd: Option<Descriptor>

    /** It has a descriptor exactly while that descriptor has the lock. */
    ghost predicate Valid()
      reads this, file
    {
      file.Valid() && (fd.Some? ==> fd.value in file.open && file.owner == fd)
    }

    constructor (file: LockFile)
      requires file.Valid()
      ensures Valid() && this.file == file && fd == None
    {
      this.file, fd := file, None;
    }

    /** Takes the lock, or fails leaving nothing open. A second call changes nothing. */
    method Acquire() returns (ok: bool)
      requires Valid()
      modifies this, file
      ensures Valid() && ok == fd.Some?
      ensures ok == (old(fd).Some? || old(file.owner) == None)
      ensures old(fd).Some? ==> fd == old(fd) && file.open == old(file.open)
      ensures !ok ==> file.open == old(file.open) && file.owner == old(file.owner)
      ensures ok && old(fd).None? ==> file.owner == fd && fd.value !in old(file.open)
    {
      if fd.Some? {
        return true;
      }
      var descriptor := file.Open();
      ok := file.TryLock(descriptor);
      if ok {
        fd := Some(descriptor);
      } else {
        file.Close(descriptor);
      }
    }

    method Release()
      requires Valid()
      modifies this, file
      ensures Valid() && fd == None
      ensures old(fd).None? ==> file.owner == old(file.owner) && file.open == old(file.open)
      ensures old(fd).Some? ==> file.owner == None && file.open == old(file.open) - {old(fd).value}
    {
      if fd.None? {
        return;
      }
      file.Close(fd.value);
      fd := None;
    }
  }
}
