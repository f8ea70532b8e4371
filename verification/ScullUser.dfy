/** The uid device of scull/access.c, one call at a time under its spin lock: many
    opens by one user, EBUSY for the others. */
module ScullUser {
  import opened ScullAccess

  class UserDevice {
    var count: int
    var owner: nat
    ghost var files: map<Fid, Cred>  // open files, with who opened them

    /** The count is the number of open files, and the owner may have them all. */
    ghost predicate Valid()
      reads this
    {
      count == |files| && forall f <- files :: Serves(owner, files[f])
    }

    constructor ()
      ensures Valid() && files == map[]
    {
      count, owner, files := 0, 0, map[];
    }

    /** scull_u_open(): refused exactly while there is an open file and its owner is
        neither the opener nor its su, and the opener may not override.  The owner
        changes only if no file is open. */
    method Open(cred: Cred, ghost f: Fid) returns (ok: bool)
      requires Valid() && f !in files
      modifies this
      ensures Valid()
      ensures ok <==> old(files) == map[] || Serves(old(owner), cred)
      ensures owner == if ok && old(files) == map[] then cred.uid else old(owner)
      ensures files == if ok then old(files)[f := cred] else old(files)
    {
      if count != 0 && owner != cred.uid && owner != cred.euid && !cred.override {
        return false;
      }
      if count == 0 {
        owner := cred.uid;
      }
      count := count + 1;
      files := files[f := cred];
      ok := true;
    }

    /** scull_u_release() */
    method Release(ghost f: Fid)
      requires Valid() && f in files
      modifies this
      ensures Valid() && files == old(files) - {f} && owner == old(owner)
    {
      count := count - 1;
      files := files - {f};
      assert files.Keys == old(files).Keys - {f};
    }
  }
}
