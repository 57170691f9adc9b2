/**
  * The four Django REST framework permission classes of auth/permissions.py, each as the
  * boolean its `has_permission` / `has_object_permission` returns. DRF always supplies a
  * user object (an `AnonymousUser` when nobody is logged in), and every such object is
  * truthy in Python, so a guard `request.user and X` has the value of `X`.
  */
module Permissions {
  import opened Accounts

  /** The model class of the object a detail view is acting on. */
  datatype Kind = UserRecord | RoomRecord | ProfileRecord | MessageRecord

  /** A saved model instance: its concrete class and its primary key. */
  datatype Record = Record(kind: Kind, id: int)

  /** `('list', 'retrieve')` */
  const ReadActions: seq<string> := ["list", "retrieve"]
  /** `('create', 'retrieve', 'me')` */
  const OpenActions: seq<string> := ["create", "retrieve", "me"]
  /** `['update', 'partial_update', 'destroy']` */
  const OwnerActions: seq<string> := ["update", "partial_update", "destroy"]

  /**
    * Python `obj == request.user`: Django model instances are equal when they have the
    * same concrete model and the same primary key; an `AnonymousUser` equals no saved row.
    */
  predicate SameInstance(obj: Record, u: User)
  {
    u.Registered? && obj.kind == UserRecord && obj.id == u.id
  }

  /**
    * Python `obj.id == request.user.id`: only the primary keys are compared, whatever the
    * model of `obj`; `AnonymousUser.id` is `None`, which equals no saved primary key.
    */
  predicate SameId(obj: Record, u: User)
  {
    u.Registered? && obj.id == u.id
  }

  /** `IsAdminOrIsSelf.has_object_permission`: the target is the requesting user's own row, or the user is a superuser. */
  function IsAdminOrIsSelf(u: User, obj: Record): (granted: bool)
    ensures granted <==> u.Registered? && (u.isSuperuser || obj == Record(UserRecord, u.id))
    ensures u.Anonymous? ==> !granted
  {
    SameInstance(obj, u) || IsSuperuser(u)
  }

  /** `IsAdminReadOnly.has_permission`: listing and retrieving are for superusers only; every other action passes. */
  function IsAdminReadOnly(action: string, u: User): (granted: bool)
    ensures action !in ReadActions ==> granted
    ensures action in ReadActions ==> (granted <==> u.Registered? && u.isSuperuser)
  {
    action !in ReadActions || IsSuperuser(u)
  }

  /** `IsAuthenticatedReadOnly.has_permission`: listing and retrieving need a logged-in user; every other action passes. */
  function IsAuthenticatedReadOnly(action: string, u: User): (granted: bool)
    ensures action !in ReadActions ==> granted
    ensures action in ReadActions ==> (granted <==> u != Anonymous)
  {
    if action in ReadActions then IsAuthenticated(u) else true
  }

  /**
    * `IsSelfOrAdminUpdateDeleteOnly.has_object_permission`. The second return reads
    * `A and B or C`, which Python groups as `(A and B) or C`.
    */
  function IsSelfOrAdminUpdateDeleteOnly(action: string, u: User, obj: Record): (granted: bool)
    ensures action in OpenActions ==> granted
    ensures IsSuperuser(u) ==> granted
    ensures action !in OpenActions && !IsSuperuser(u) ==>
              (granted <==> action in OwnerActions && u.Registered? && obj.id == u.id)
  {
    if action in OpenActions then true
    else (action in OwnerActions && SameId(obj, u)) || IsSuperuser(u)
  }

  /** An anonymous request passes `IsSelfOrAdminUpdateDeleteOnly` exactly for `create`, `retrieve` and `me`. */
  lemma AnonymousOnlyOpenActions(action: string, obj: Record)
    ensures IsSelfOrAdminUpdateDeleteOnly(action, Anonymous, obj) <==> action in OpenActions
  {
  }

  /**
    * The grouping matters, for the predicate on its own: under `A and (B or C)` a
    * superuser would be refused every action outside the open and owner actions, which
    * the expression as written grants.
    */
  lemma SuperuserNotLimitedToOwnerActions(action: string, id: UserId, name: string, obj: Record)
    requires action !in OpenActions && action !in OwnerActions
    ensures var admin := Registered(id, name, true);
            IsSelfOrAdminUpdateDeleteOnly(action, admin, obj)
            && !(action in OwnerActions && (SameId(obj, admin) || IsSuperuser(admin)))
  {
  }

  /**
    * `IsSelfOrAdminUpdateDeleteOnly` compares primary keys only, so a non-superuser may
    * update a room or profile whose id happens to equal their own user id, while
    * `IsAdminOrIsSelf` refuses the same object.
    */
  lemma OwnerCheckComparesIdsOnly(id: UserId, name: string, kind: Kind)
    requires kind != UserRecord
    ensures var u := Registered(id, name, false);
            IsSelfOrAdminUpdateDeleteOnly("update", u, Record(kind, id))
            && !IsAdminOrIsSelf(u, Record(kind, id))
  {
  }

  /** Making a user a superuser never turns a grant of any of the four classes into a refusal. */
  lemma PromotionNeverRevokes(action: string, id: UserId, name: string, obj: Record)
    ensures var before, after := Registered(id, name, false), Registered(id, name, true);
            && (IsAdminOrIsSelf(before, obj) ==> IsAdminOrIsSelf(after, obj))
            && (IsAdminReadOnly(action, before) ==> IsAdminReadOnly(action, after))
            && (IsAuthenticatedReadOnly(action, before) ==> IsAuthenticatedReadOnly(action, after))
            && (IsSelfOrAdminUpdateDeleteOnly(action, before, obj) ==> IsSelfOrAdminUpdateDeleteOnly(action, after, obj))
  {
  }
}
