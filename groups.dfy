/** User groups: a group has an owner and members with a role. The owner joins
    as "admin" when the group is created; owners and admins manage members,
    only the owner edits or deletes the group. */
module Groups {
  import opened Common

  datatype Group = Group(name: string, description: Option<string>, ownerId: string)

  /** Membership rows keyed by (group id, user id), holding the role. */
  type Members = map<(string, string), string>

  const AdminRole: string := "admin"

  /** The role a row gets when none is given. */
  const DefaultRole: string := "member"

  /** The filter the list and detail queries share: owner or member. */
  predicate CanView(groups: map<string, Group>, members: Members, userId: string, id: string)
  {
    id in groups && (groups[id].ownerId == userId || (id, userId) in members)
  }

  /** The filter the member operations share: owner or admin member. */
  predicate CanManage(groups: map<string, Group>, members: Members, userId: string, id: string)
  {
    id in groups && (groups[id].ownerId == userId || ((id, userId) in members && members[(id, userId)] == AdminRole))
  }

  /** Every group's owner holds an admin row, and every row belongs to a group. */
  ghost predicate Consistent(groups: map<string, Group>, members: Members)
  {
    && (forall id :: id in groups ==>
          (id, groups[id].ownerId) in members && members[(id, groups[id].ownerId)] == AdminRole)
    && (forall k :: k in members ==> k.0 in groups)
  }

  /** `listUserGroups`: the ids of the groups the user owns or belongs to. */
  function ListUserGroups(groups: map<string, Group>, members: Members, userId: string): (r: set<string>)
    ensures forall id :: id in r <==> CanView(groups, members, userId, id)
  {
    set id | id in groups && CanView(groups, members, userId, id)
  }

  /** `getGroup`: 404 for a group that is missing or not visible to the user. */
  function GetGroup(groups: map<string, Group>, members: Members, userId: string, id: string): (r: Result<Group>)
    ensures r.Success? <==> CanView(groups, members, userId, id)
    ensures r.Success? ==> r.value == groups[id]
    ensures r.Failure? ==> r.error == "Group not found"
  {
    if CanView(groups, members, userId, id) then Success(groups[id]) else Failure("Group not found")
  }

  /** Whoever may manage a group may see it. */
  lemma ManagersCanView(groups: map<string, Group>, members: Members, userId: string, id: string)
    requires CanManage(groups, members, userId, id)
    ensures CanView(groups, members, userId, id)
  {
  }

  /** In a consistent directory the owner's admin row alone grants both rights,
      and a plain member can see a group but not manage it. */
  lemma OwnerRowGrantsRights(groups: map<string, Group>, members: Members, id: string)
    requires Consistent(groups, members)
    requires id in groups
    ensures CanManage(groups, members, groups[id].ownerId, id)
    ensures CanView(groups, members, groups[id].ownerId, id)
    ensures forall u :: (id, u) in members && members[(id, u)] == DefaultRole && u != groups[id].ownerId ==>
      CanView(groups, members, u, id) && !CanManage(groups, members, u, id)
  {
  }

  /** The membership rows of other groups. */
  function WithoutGroup(members: Members, id: string): (r: Members)
    ensures forall k :: k in r <==> k in members && k.0 != id
    ensures forall k :: k in r ==> r[k] == members[k]
  {
    map k | k in members && k.0 != id :: members[k]
  }

  class GroupDirectory {
    var groups: map<string, Group>
    var members: Members

    ghost predicate Valid()
      reads this
    {
      Consistent(groups, members)
    }

    constructor ()
      ensures groups == map[] && members == map[]
      ensures Valid()
    {
      groups := map[];
      members := map[];
    }

    /** `createGroup`: the group and the owner's admin row together; a group
        id already in use makes the insert fail (500) with nothing changed. */
    method CreateGroup(userId: string, name: string, description: Option<string>, newId: string)
      returns (status: Status)
      requires Valid()
      modifies this
      ensures Valid()
      ensures newId in old(groups) ==> status == ServerError && groups == old(groups) && members == old(members)
      ensures newId !in old(groups) ==>
        && status == Created
        && groups == old(groups)[newId := Group(name, description, userId)]
        && members == old(members)[(newId, userId) := AdminRole]
    {
      if newId in groups {
        return ServerError;
      }
      groups := groups[newId := Group(name, description, userId)];
      members := members[(newId, userId) := AdminRole];
      status := Created;
    }

    /** `updateGroup`: only the owner; a field the request leaves out keeps
        its value. */
    method UpdateGroup(userId: string, id: string, name: Option<string>, description: Option<string>)
      returns (status: Status)
      requires Valid()
      modifies this
      ensures Valid()
      ensures members == old(members)
      ensures id !in old(groups) || old(groups)[id].ownerId != userId ==>
        status == Forbidden && groups == old(groups)
      ensures id in old(groups) && old(groups)[id].ownerId == userId ==>
        var g := old(groups)[id];
        && status == Ok
        && groups == old(groups)[id := Group(if name.Some? then name.value else g.name,
                                             if description.Some? then description else g.description,
                                             g.ownerId)]
    {
      if id !in groups || groups[id].ownerId != userId {
        return Forbidden;
      }
      var g := groups[id];
      groups := groups[id := g.(name := if name.Some? then name.value else g.name,
                                description := if description.Some? then description else g.description)];
      status := Ok;
    }

    /** `deleteGroup`: only the owner; the group's membership rows go with it. */
    method DeleteGroup(userId: string, id: string) returns (status: Status)
      requires Valid()
      modifies this
      ensures Valid()
      ensures id !in old(groups) || old(groups)[id].ownerId != userId ==>
        status == Forbidden && groups == old(groups) && members == old(members)
      ensures id in old(groups) && old(groups)[id].ownerId == userId ==>
        status == Ok && groups == old(groups) - {id} && members == WithoutGroup(old(members), id)
    {
      if id !in groups || groups[id].ownerId != userId {
        return Forbidden;
      }
      groups := groups - {id};
      members := WithoutGroup(members, id);
      status := Ok;
    }

    /** `addMember`: owners and admins only (403, also for a missing group);
        404 for an unknown e-mail; 400 for an existing member; otherwise a
        row with the default role. */
    method AddMember(userId: string, groupId: string, userEmail: string, usersByEmail: map<string, string>)
      returns (status: Status)
      requires Valid()
      modifies this
      ensures Valid()
      ensures groups == old(groups)
      ensures !CanManage(old(groups), old(members), userId, groupId) ==> status == Forbidden && members == old(members)
      ensures CanManage(old(groups), old(members), userId, groupId) && userEmail !in usersByEmail ==>
        status == NotFound && members == old(members)
      ensures CanManage(old(groups), old(members), userId, groupId) && userEmail in usersByEmail
              && (groupId, usersByEmail[userEmail]) in old(members) ==>
        status == BadRequest && members == old(members)
      ensures CanManage(old(groups), old(members), userId, groupId) && userEmail in usersByEmail
              && (groupId, usersByEmail[userEmail]) !in old(members) ==>
        status == Created && members == old(members)[(groupId, usersByEmail[userEmail]) := DefaultRole]
    {
      if !CanManage(groups, members, userId, groupId) {
        return Forbidden;
      }
      if userEmail !in usersByEmail {
        return NotFound;
      }
      var newMember := usersByEmail[userEmail];
      if (groupId, newMember) in members {
        return BadRequest;
      }
      members := members[(groupId, newMember) := DefaultRole];
      status := Created;
    }

    /** `removeMember`: owners and admins only; the owner cannot be removed;
        removing someone who is not a member still succeeds. */
    method RemoveMember(userId: string, groupId: string, memberId: string) returns (status: Status)
      requires Valid()
      modifies this
      ensures Valid()
      ensures groups == old(groups)
      ensures !CanManage(old(groups), old(members), userId, groupId) ==> status == Forbidden && members == old(members)
      ensures CanManage(old(groups), old(members), userId, groupId) && old(groups)[groupId].ownerId == memberId ==>
        status == BadRequest && members == old(members)
      ensures CanManage(old(groups), old(members), userId, groupId) && old(groups)[groupId].ownerId != memberId ==>
        status == Ok && members == old(members) - {(groupId, memberId)}
        && !CanView(groups, members, memberId, groupId)
    {
      if !CanManage(groups, members, userId, groupId) {
        return Forbidden;
      }
      if groups[groupId].ownerId == memberId {
        return BadRequest;
      }
      members := members - {(groupId, memberId)};
      status := Ok;
    }
  }
}
