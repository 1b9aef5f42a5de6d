/**
 * The permission engine of the composite example: leaf rules on a user and an
 * optional resource, and composites that fold their children with AND or OR.
 *
 * A permission object is a tree value here; the composite class keeps its
 * ordered child list as a sequence of such trees and appends to it in place.
 */
module Permissions {
  import opened Wrappers

  datatype User = User(id: string, role: string, verified: Option<bool>)

  datatype Resource = Resource(ownerId: string, protected: Option<bool>)

  datatype Mode = And | Or

  datatype Permission =
    | Admin
    | Owner
    | Moderator
    | VerifiedUser
    | Composite(mode: Mode, children: seq<Permission>)
      /** A composite whose `check` is overridden to refuse a protected resource. */
    | ProtectedVeto(base: Permission)

  /**
   * What a call to `check` does: return a boolean, or throw. The only throw is the
   * owner rule reading `ownerId` of an absent resource.
   */
  datatype Outcome = Returned(granted: bool) | Threw

  predicate IsProtected(resource: Option<Resource>) {
    resource.Some? && resource.value.protected == Some(true)
  }

  /** `check(user, resource)` of a permission tree, evaluated as JavaScript does. */
  function Evaluate(p: Permission, user: User, resource: Option<Resource>): Outcome
    decreases p, 1
  {
    match p
    case Admin => Returned(user.role == "admin")
    case Owner =>
      if resource.None? then Threw else Returned(user.id == resource.value.ownerId)
    case Moderator => Returned(user.role == "moderator")
    case VerifiedUser => Returned(user.verified == Some(true))
    case Composite(mode, children) =>
      if |children| == 0 then Returned(false)
      else if mode == And then Every(children, user, resource)
      else Any(children, user, resource)
    case ProtectedVeto(base) =>
      match Evaluate(base, user, resource)
      case Threw => Threw
      case Returned(granted) =>
        if IsProtected(resource) then Returned(false) else Returned(granted)
  }

  /** `Array.prototype.every`: stops at the first child that does not grant. */
  function Every(children: seq<Permission>, user: User, resource: Option<Resource>): Outcome
    decreases children, 0
  {
    if children == [] then Returned(true)
    else
      match Evaluate(children[0], user, resource)
      case Threw => Threw
      case Returned(granted) =>
        if granted then Every(children[1..], user, resource) else Returned(false)
  }

  /** `Array.prototype.some`: stops at the first child that grants. */
  function Any(children: seq<Permission>, user: User, resource: Option<Resource>): Outcome
    decreases children, 0
  {
    if children == [] then Returned(false)
    else
      match Evaluate(children[0], user, resource)
      case Threw => Threw
      case Returned(granted) =>
        if granted then Returned(true) else Any(children[1..], user, resource)
  }

  predicate Grants(p: Permission, user: User, resource: Option<Resource>) {
    Evaluate(p, user, resource) == Returned(true)
  }

  /** With a resource supplied, no permission tree throws. */
  lemma {:induction false} NeverThrowsWithResource(p: Permission, user: User, resource: Option<Resource>)
    requires resource.Some?
    ensures Evaluate(p, user, resource).Returned?
    decreases p, 1
  {
    match p
    case Composite(mode, children) =>
      AllReturnWithResource(children, user, resource);
    case ProtectedVeto(base) =>
      NeverThrowsWithResource(base, user, resource);
    case _ =>
  }

  lemma {:induction false} AllReturnWithResource(children: seq<Permission>, user: User, resource: Option<Resource>)
    requires resource.Some?
    ensures Every(children, user, resource).Returned?
    ensures Any(children, user, resource).Returned?
    decreases children, 0
  {
    if children != [] {
      NeverThrowsWithResource(children[0], user, resource);
      AllReturnWithResource(children[1..], user, resource);
    }
  }

  /** `every` is the conjunction of the children's answers when none of them throws. */
  lemma {:induction false} EveryIsConjunction(children: seq<Permission>, user: User, resource: Option<Resource>)
    requires forall i | 0 <= i < |children| :: Evaluate(children[i], user, resource).Returned?
    ensures Every(children, user, resource)
         == Returned(forall i | 0 <= i < |children| :: Grants(children[i], user, resource))
  {
    if children != [] {
      EveryIsConjunction(children[1..], user, resource);
      assert forall i | 1 <= i < |children| :: children[i] == children[1..][i - 1];
    }
  }

  /** `some` is the disjunction of the children's answers when none of them throws. */
  lemma {:induction false} SomeIsDisjunction(children: seq<Permission>, user: User, resource: Option<Resource>)
    requires forall i | 0 <= i < |children| :: Evaluate(children[i], user, resource).Returned?
    ensures Any(children, user, resource)
         == Returned(exists i | 0 <= i < |children| :: Grants(children[i], user, resource))
  {
    if children != [] {
      SomeIsDisjunction(children[1..], user, resource);
      assert forall i | 1 <= i < |children| :: children[i] == children[1..][i - 1];
      if Grants(children[0], user, resource) {
        assert Grants(children[0], user, resource);
      }
    }
  }

  /**
   * The meaning of a composite on a supplied resource: fail-closed when empty,
   * otherwise the conjunction (AND) or the disjunction (OR) of its children.
   */
  lemma CompositeMeaning(mode: Mode, children: seq<Permission>, user: User, resource: Option<Resource>)
    requires resource.Some?
    ensures Evaluate(Composite(mode, children), user, resource) == Returned(
      && |children| > 0
      && if mode == And then forall i | 0 <= i < |children| :: Grants(children[i], user, resource)
         else exists i | 0 <= i < |children| :: Grants(children[i], user, resource))
  {
    forall i | 0 <= i < |children| ensures Evaluate(children[i], user, resource).Returned? {
      NeverThrowsWithResource(children[i], user, resource);
    }
    EveryIsConjunction(children, user, resource);
    SomeIsDisjunction(children, user, resource);
  }

  /** An empty composite denies, in both modes and for every input. */
  lemma EmptyCompositeDenies(mode: Mode, user: User, resource: Option<Resource>)
    ensures Evaluate(Composite(mode, []), user, resource) == Returned(false)
  {
  }

  /** `every` over a concatenation: the second part is reached only when the first all grants. */
  lemma {:induction false} EveryAppend(a: seq<Permission>, b: seq<Permission>, user: User, resource: Option<Resource>)
    ensures Every(a + b, user, resource)
         == if Every(a, user, resource) == Returned(true) then Every(b, user, resource) else Every(a, user, resource)
  {
    if a == [] {
      assert a + b == b;
    } else {
      assert (a + b)[0] == a[0];
      assert (a + b)[1..] == a[1..] + b;
      EveryAppend(a[1..], b, user, resource);
    }
  }

  /** `some` over a concatenation: the second part is reached only when nothing in the first grants. */
  lemma {:induction false} AnyAppend(a: seq<Permission>, b: seq<Permission>, user: User, resource: Option<Resource>)
    ensures Any(a + b, user, resource)
         == if Any(a, user, resource) == Returned(false) then Any(b, user, resource) else Any(a, user, resource)
  {
    if a == [] {
      assert a + b == b;
    } else {
      assert (a + b)[0] == a[0];
      assert (a + b)[1..] == a[1..] + b;
      AnyAppend(a[1..], b, user, resource);
    }
  }

  /**
   * Nesting a non-empty composite of the same mode among the children of another
   * gives the same outcome as splicing its children in place, thrown errors included.
   */
  lemma Flattening(mode: Mode, front: seq<Permission>, inner: seq<Permission>, back: seq<Permission>,
                   user: User, resource: Option<Resource>)
    requires |inner| > 0
    ensures Evaluate(Composite(mode, front + [Composite(mode, inner)] + back), user, resource)
         == Evaluate(Composite(mode, front + inner + back), user, resource)
  {
    var nested := Composite(mode, inner);
    var rest := [nested] + back;
    assert front + [nested] + back == front + rest;
    assert front + inner + back == front + (inner + back);
    assert rest[0] == nested && rest[1..] == back;
    if mode == And {
      EveryAppend(front, rest, user, resource);
      EveryAppend(front, inner + back, user, resource);
      EveryAppend(inner, back, user, resource);
    } else {
      AnyAppend(front, rest, user, resource);
      AnyAppend(front, inner + back, user, resource);
      AnyAppend(inner, back, user, resource);
    }
  }

  /**
   * The leaf rules, each a single comparison on the user. Admin, moderator and
   * verified ignore the resource; the owner rule reads it and throws without one.
   */
  lemma LeafRules(user: User, resource: Option<Resource>)
    ensures Grants(Admin, user, resource) <==> user.role == "admin"
    ensures Grants(Moderator, user, resource) <==> user.role == "moderator"
    ensures Grants(VerifiedUser, user, resource) <==> user.verified == Some(true)
    ensures !Grants(VerifiedUser, user.(verified := None), resource)
    ensures resource.Some? ==> (Grants(Owner, user, resource) <==> user.id == resource.value.ownerId)
    ensures resource.None? ==> Evaluate(Owner, user, resource) == Threw
  {
  }

  /**
   * `CompositePermission`: an ordered child list and a combinator mode.
   * `add` appends in place; `check` folds the current children.
   */
  class CompositePermission {
    var permissions: seq<Permission>
    var mode: Mode

    constructor (mode: Mode := And)
      ensures this.mode == mode && permissions == []
    {
      this.mode := mode;
      permissions := [];
    }

    /** `add(permission)` with a single permission. */
    method Add(permission: Permission)
      modifies this
      ensures permissions == old(permissions) + [permission]
      ensures mode == old(mode)
    {
      permissions := permissions + [permission];
    }

    /** `add([...])` with an array: appends all of it, in order. */
    method AddAll(batch: seq<Permission>)
      modifies this
      ensures permissions == old(permissions) + batch
      ensures mode == old(mode)
    {
      permissions := permissions + batch;
    }

    /** The tree this object currently stands for. */
    function AsPermission(): Permission
      reads this
    {
      Composite(mode, permissions)
    }

    /** `check(user, resource)`; a function of the object's state, so it changes nothing. */
    function Check(user: User, resource: Option<Resource>): (r: Outcome)
      reads this
      ensures permissions == [] ==> r == Returned(false)
      ensures resource.Some? ==> r == Returned(
        && |permissions| > 0
        && if mode == And then forall i | 0 <= i < |permissions| :: Grants(permissions[i], user, resource)
           else exists i | 0 <= i < |permissions| :: Grants(permissions[i], user, resource))
      ensures (forall i | 0 <= i < |permissions| :: Evaluate(permissions[i], user, resource).Returned?) ==> r == Returned(
        && |permissions| > 0
        && if mode == And then forall i | 0 <= i < |permissions| :: Grants(permissions[i], user, resource)
           else exists i | 0 <= i < |permissions| :: Grants(permissions[i], user, resource))
    {
      if resource.Some? then
        CompositeMeaning(mode, permissions, user, resource);
        Evaluate(AsPermission(), user, resource)
      else if forall i | 0 <= i < |permissions| :: Evaluate(permissions[i], user, resource).Returned? then
        EveryIsConjunction(permissions, user, resource);
        SomeIsDisjunction(permissions, user, resource);
        Evaluate(AsPermission(), user, resource)
      else
        Evaluate(AsPermission(), user, resource)
    }
  }
}
