/**
  * `RoomSerializer.validate_users` of chat/serializers.py: the proposed member list of a
  * new room gets its creator added at the front, and a room of the creator alone is refused.
  */
module Serializers {
  import opened Wrappers
  import opened Accounts

  /** The `ValidationError` text raised when the list is the creator alone. */
  const AtLeastTwoMembers := "The chat room require at least 2 members."
  /** The error DRF's `ManyRelatedField` reports for an empty list before `validate_users` runs. */
  const ListMayNotBeEmpty := "This list may not be empty."

  /** The list after `if user not in value: value.insert(0, user)`. */
  function WithCreator(value: seq<UserId>, user: UserId): (r: seq<UserId>)
    ensures user in r
    ensures user in value ==> r == value
    ensures user !in value ==> |r| == |value| + 1 && r[0] == user && r[1..] == value
    ensures multiset(r) == multiset(value) + (if user in value then multiset{} else multiset{user})
  {
    if user in value then value else [user] + value
  }

  /** What `validate_users` returns, or the error it raises. */
  function NormalizeMembers(value: seq<UserId>, user: UserId): (r: Result<seq<UserId>, string>)
    ensures r.Success? ==> user in r.value && |r.value| >= 2 && r.value == WithCreator(value, user)
    ensures r.Failure? <==> (value == [] || value == [user])
    ensures r.Failure? ==> r.error == AtLeastTwoMembers
  {
    var members := WithCreator(value, user);
    if |members| == 1 then Failure(AtLeastTwoMembers) else Success(members)
  }

  /**
    * The `users` field as a whole: DRF refuses an empty list itself, so `validate_users`
    * only ever sees a non-empty list.
    */
  function ValidateUsersField(value: seq<UserId>, user: UserId): (r: Result<seq<UserId>, string>)
    ensures value == [] ==> r == Failure(ListMayNotBeEmpty)
    ensures value != [] ==> r == NormalizeMembers(value, user)
  {
    if value == [] then Failure(ListMayNotBeEmpty) else NormalizeMembers(value, user)
  }

  /** On a non-empty list, the two-member error is raised exactly when the list is the creator alone. */
  lemma RejectsExactlyCreatorAlone(value: seq<UserId>, user: UserId)
    ensures ValidateUsersField(value, user) == Failure(AtLeastTwoMembers) <==> value == [user]
  {
  }

  /** Normalising an accepted list again changes nothing. */
  lemma NormalizeIdempotent(value: seq<UserId>, user: UserId)
    requires NormalizeMembers(value, user).Success?
    ensures var members := NormalizeMembers(value, user).value;
            NormalizeMembers(members, user) == Success(members)
  {
  }

  /** A creator proposing one other user gets the two-member room `[creator, other]`. */
  lemma CreatorAndOneFriend(creator: UserId, other: UserId)
    requires creator != other
    ensures ValidateUsersField([other], creator) == Success([creator, other])
  {
    assert creator !in [other];
    assert WithCreator([other], creator) == [creator] + [other] == [creator, other];
  }

  /**
    * The length test counts list entries, not distinct users: the creator listed twice
    * passes although the room would have a single member.
    */
  lemma CreatorTwicePasses(creator: UserId)
    ensures ValidateUsersField([creator, creator], creator) == Success([creator, creator])
  {
  }

  /** The Python list object `value`, mutated in place. */
  class UserList {
    var items: seq<UserId>

    constructor (items: seq<UserId>)
      ensures this.items == items
    {
      this.items := items;
    }

    /** `list.insert(index, x)`: an index past the end appends. */
    method Insert(index: nat, x: UserId)
      modifies this
      ensures var k := if index < |old(items)| then index else |old(items)|;
              items == old(items)[..k] + [x] + old(items)[k..]
    {
      var k := if index < |items| then index else |items|;
      items := items[..k] + [x] + items[k..];
    }
  }

  /**
    * `validate_users(value)`: inserts the creator into the caller's own list (the list
    * stays changed even when the error is then raised) and returns that same list.
    */
  method ValidateUsers(value: UserList, user: UserId) returns (r: Result<UserList, string>)
    modifies value
    ensures value.items == WithCreator(old(value.items), user)
    ensures r.Success? ==> r.value == value
    ensures NormalizeMembers(old(value.items), user) ==
              if r.Success? then Success(value.items) else Failure(r.error)
  {
    if user !in value.items {
      value.Insert(0, user);
    }
    if |value.items| == 1 {
      return Failure(AtLeastTwoMembers);
    }
    return Success(value);
  }
}
