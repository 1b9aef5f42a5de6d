/** The use case that answers one permission question by delegating to the permission. */
module CheckPermission {
  import opened Wrappers
  import opened Permissions
  import RolePermissions

  datatype CheckPermissionRequest =
    CheckPermissionRequest(user: User, resource: Option<Resource>, permission: Permission)

  /**
   * `CheckPermissionUseCase.execute`: the permission's own answer for the request's
   * user and resource, an absent resource staying absent. The use case keeps no
   * state, so equal requests get equal answers.
   */
  function Execute(request: CheckPermissionRequest): (r: Outcome)
    ensures r == Evaluate(request.permission, request.user, request.resource)
    ensures request.resource.Some? ==> r.Returned?
  {
    if request.resource.Some? then
      NeverThrowsWithResource(request.permission, request.user, request.resource);
      Evaluate(request.permission, request.user, request.resource)
    else
      Evaluate(request.permission, request.user, request.resource)
  }

  /** The driver's use-case call: an admin asking to edit gets `true`. */
  lemma AdminMayEditThroughUseCase()
    ensures Execute(CheckPermissionRequest(User("1", "admin", None), Some(Resource("2", None)),
                                           RolePermissions.EditRule)) == Returned(true)
  {
    RolePermissions.EditMeaning(User("1", "admin", None), Resource("2", None));
  }
}
