/** The browser's object-URL registry (`URL.createObjectURL`,
    `URL.revokeObjectURL`), which both intake components use for previews. */
module ObjectUrls {
  import Intake

  /** An object URL. The browser never hands out the empty string, so an
      absent preview (`""` or `null` in the components) is `None`. */
  type Handle = nat

  class ObjectUrlStore {
    /** The next URL the browser will hand out. */
    var next: nat
    /** Every URL created so far and the file it resolves to. */
    ghost var target: map<Handle, Intake.File>
    /** Every revocation of a known URL, in order; a URL may appear twice. */
    ghost var revocations: seq<Handle>

    ghost predicate Valid()
      reads this
    {
      && (forall h :: h in target ==> h < next)
      && (forall h :: h in revocations ==> h in target)
    }

    /** A URL that was created and has not been revoked yet. */
    ghost predicate Live(h: Handle)
      reads this
    {
      h in target && h !in revocations
    }

    constructor ()
      ensures Valid()
      ensures target == map[] && revocations == []
    {
      next := 0;
      target := map[];
      revocations := [];
    }

    /** `URL.createObjectURL(file)`: a URL never handed out before. */
    method Create(f: Intake.File) returns (h: Handle)
      requires Valid()
      modifies this
      ensures Valid()
      ensures h !in old(target) && target == old(target)[h := f]
      ensures revocations == old(revocations)
    {
      h := next;
      next := next + 1;
      target := target[h := f];
    }

    /** `URL.revokeObjectURL(h)`: revoking a URL the registry never issued
        does nothing; revoking one twice is allowed and is logged twice. */
    method Revoke(h: Handle)
      requires Valid()
      modifies this
      ensures Valid()
      ensures target == old(target)
      ensures revocations == old(revocations) + (if h in target then [h] else [])
    {
      if h in target {
        revocations := revocations + [h];
      }
    }
  }
}
