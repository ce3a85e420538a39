/** The React context that records which admin the superadmin is viewing as. */
module ImpersonationContext {
  import opened Js

  /** The admin object handed to `startImpersonation`. */
  datatype AdminData = AdminData(id: string, name: string)

  class ImpersonationProvider {
    /** The single state cell: the admin being impersonated, or null. */
    var impersonatedAdmin: Option<AdminData>

    constructor ()
      ensures impersonatedAdmin.None? && !IsImpersonating()
    {
      impersonatedAdmin := None;
    }

    /** `isImpersonating = !!impersonatedAdmin` (an object is always truthy). */
    predicate IsImpersonating()
      reads this
    {
      impersonatedAdmin.Some?
    }

    /** `startImpersonation(admin)`; passing null clears the cell. */
    method Start(admin: Option<AdminData>)
      modifies this
      ensures impersonatedAdmin == admin
      ensures IsImpersonating() <==> admin.Some?
    {
      impersonatedAdmin := admin;
    }

    /** `stopImpersonation()`: back to null whatever the state, so it is idempotent. */
    method Stop()
      modifies this
      ensures impersonatedAdmin.None? && !IsImpersonating()
    {
      impersonatedAdmin := None;
    }
  }

  const OutsideProvider := "useImpersonation must be used within ImpersonationProvider"

  /** `useImpersonation()`: the context of the nearest provider, or the error it throws without one. */
  function UseImpersonation<C>(context: Option<C>): (r: Result<C, string>)
    ensures r.Ok? <==> context.Some?
    ensures r.Ok? ==> r.value == context.value
    ensures r.Err? ==> r.error == OutsideProvider
  {
    match context
    case Some(c) => Ok(c)
    case None => Err(OutsideProvider)
  }
}
