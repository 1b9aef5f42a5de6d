/**
 * The named permissions built from the leaf rules: edit (admin or owner),
 * delete (admin, vetoed on a protected resource) and publish (admin, or a
 * verified moderator, through a nested composite).
 */
module RolePermissions {
  import opened Wrappers
  import opened Permissions

  /** The tree an `EditPermission` holds: OR of admin and owner. */
  const EditRule: Permission := Composite(Or, [Admin, Owner])

  /** The tree a `DeletePermission` holds: AND of admin, under the protected-resource veto. */
  const DeleteRule: Permission := ProtectedVeto(Composite(And, [Admin]))

  /** The tree a `PublishPermission` holds: OR of admin and (moderator AND verified). */
  const PublishRule: Permission := Composite(Or, [Admin, Composite(And, [Moderator, VerifiedUser])])

  /** `new EditPermission()`: an OR composite filled through `add`. */
  method NewEditPermission() returns (p: CompositePermission)
    ensures fresh(p)
    ensures p.mode == Or && p.permissions == [Admin, Owner]
    ensures p.AsPermission() == EditRule
  {
    p := new CompositePermission(Or);
    p.AddAll([Admin, Owner]);
  }

  /** `new PublishPermission()`: an OR composite holding a nested AND composite. */
  method NewPublishPermission() returns (p: CompositePermission)
    ensures fresh(p)
    ensures p.AsPermission() == PublishRule
  {
    p := new CompositePermission(Or);
    var moderatorAndVerified := new CompositePermission(And);
    moderatorAndVerified.AddAll([Moderator, VerifiedUser]);
    assert moderatorAndVerified.AsPermission() == Composite(And, [Moderator, VerifiedUser]);
    p.AddAll([Admin, moderatorAndVerified.AsPermission()]);
    assert p.permissions == [Admin, Composite(And, [Moderator, VerifiedUser])];
  }

  /**
   * `DeletePermission`: the inherited AND composite is `base`; `check` computes the
   * base answer first and then refuses a protected resource.
   */
  class DeletePermission {
    const base: CompositePermission

    constructor ()
      ensures fresh(base)
      ensures base.mode == And && base.permissions == [Admin]
      ensures AsPermission() == DeleteRule
    {
      var composite := new CompositePermission(And);
      composite.AddAll([Admin]);
      base := composite;
    }

    function AsPermission(): Permission
      reads this, base
    {
      ProtectedVeto(base.AsPermission())
    }

    function Check(user: User, resource: Option<Resource>): (r: Outcome)
      reads this, base
      ensures IsProtected(resource) ==> r == Returned(false)
      ensures !IsProtected(resource) ==> r == base.Check(user, resource)
    {
      if IsProtected(resource) then
        NeverThrowsWithResource(base.AsPermission(), user, resource);
        Evaluate(AsPermission(), user, resource)
      else
        Evaluate(AsPermission(), user, resource)
    }
  }

  /** Edit on a supplied resource: admin or owner, nothing else. */
  lemma EditMeaning(user: User, resource: Resource)
    ensures Grants(EditRule, user, Some(resource)) <==> user.role == "admin" || user.id == resource.ownerId
  {
    CompositeMeaning(Or, [Admin, Owner], user, Some(resource));
    if user.id == resource.ownerId {
      assert Grants([Admin, Owner][1], user, Some(resource));
    }
  }

  /**
   * Edit without a resource: `some` stops at the admin rule for an admin; for
   * anyone else it reaches the owner rule, which throws.
   */
  lemma EditWithoutResource(user: User)
    ensures Evaluate(EditRule, user, None) == if user.role == "admin" then Returned(true) else Threw
  {
    assert [Admin, Owner][1..] == [Owner];
  }

  /** Delete is refused on a protected resource, and is the admin rule everywhere else. */
  lemma DeleteMeaning(user: User, resource: Option<Resource>)
    ensures IsProtected(resource) ==> Evaluate(DeleteRule, user, resource) == Returned(false)
    ensures !IsProtected(resource) ==> Evaluate(DeleteRule, user, resource) == Returned(user.role == "admin")
  {
    assert [Admin][1..] == [];
  }

  /** Publish: admin, or moderator with `verified` exactly true; it never reads the resource. */
  lemma PublishMeaning(user: User, resource: Option<Resource>)
    ensures Evaluate(PublishRule, user, resource)
         == Returned(user.role == "admin" || (user.role == "moderator" && user.verified == Some(true)))
  {
    var inner := [Moderator, VerifiedUser];
    assert inner[1..] == [VerifiedUser];
    assert [Admin, Composite(And, inner)][1..] == [Composite(And, inner)];
  }

  /** The scenarios the permissions driver prints, with the answers it records. */
  lemma PermissionScenarios()
    ensures var admin := User("1", "admin", None);
            var user := User("2", "user", None);
            var other := User("3", "user", None);
            var moderator := User("3", "moderator", Some(true));
            var unverifiedModerator := User("4", "moderator", Some(false));
            var resource := Resource("2", None);
            var protectedResource := Resource("1", Some(true));
            var normalResource := Resource("1", Some(false));
            && Grants(EditRule, admin, Some(resource))
            && Grants(EditRule, user, Some(resource))
            && !Grants(EditRule, other, Some(resource))
            && Grants(DeleteRule, admin, Some(normalResource))
            && !Grants(DeleteRule, admin, Some(protectedResource))
            && !Grants(DeleteRule, user, Some(normalResource))
            && Grants(PublishRule, admin, None)
            && Grants(PublishRule, moderator, None)
            && !Grants(PublishRule, unverifiedModerator, None)
            && !Grants(PublishRule, user, None)
  {
    var admin := User("1", "admin", None);
    var user := User("2", "user", None);
    var other := User("3", "user", None);
    var resource := Resource("2", None);
    EditMeaning(admin, resource);
    EditMeaning(user, resource);
    EditMeaning(other, resource);
    DeleteMeaning(admin, Some(Resource("1", Some(false))));
    DeleteMeaning(admin, Some(Resource("1", Some(true))));
    DeleteMeaning(user, Some(Resource("1", Some(false))));
    PublishMeaning(admin, None);
    PublishMeaning(User("3", "moderator", Some(true)), None);
    PublishMeaning(User("4", "moderator", Some(false)), None);
    PublishMeaning(user, None);
  }

  /** The custom rule of the driver: admin OR (owner AND verified). */
  const AdminOrVerifiedOwner: Permission := Composite(Or, [Admin, Composite(And, [Owner, VerifiedUser])])

  lemma AdminOrVerifiedOwnerScenarios()
    ensures var resource := Some(Resource("2", None));
            && Grants(AdminOrVerifiedOwner, User("1", "admin", None), resource)
            && Grants(AdminOrVerifiedOwner, User("2", "user", Some(true)), resource)
            && !Grants(AdminOrVerifiedOwner, User("2", "user", Some(false)), resource)
  {
    var inner := [Owner, VerifiedUser];
    assert inner[1..] == [VerifiedUser];
    assert [Admin, Composite(And, inner)][1..] == [Composite(And, inner)];
  }
}
