/**
 * The SCIM directory client the broker uses on each pooled VM: the admin-group
 * search, the creation of the service-admin user, the grant of admin-group
 * membership (with its clean-up deletion) and the user deletion itself.
 *
 * A remote call is not executed here: each operation takes the reply the
 * directory gives (`Reply`) and returns what the broker makes of it together
 * with the requests it sent, in order.
 */
module Directory {
  import opened Entities

  /** What a remote exchange gives back: a response body, or an exception. */
  datatype Reply<+T> = Answered(body: T) | Threw

  /** The replies one directory would give to each request of one provisioning. */
  datatype DirectoryReplies = DirectoryReplies(
    groupSearch: Reply<seq<string>>,  // the ids listed under "Resources", in order
    userCreate: Reply<string>,        // the "id" of the created user
    groupPatch: Reply<()>,
    userDelete: Reply<()>)

  /** The directory's path suffixes (appended to the VM's address). */
  datatype ScimPaths = ScimPaths(groups: string, users: string)

  datatype HttpMethod = Get | Post | Patch | Delete

  datatype Payload =
    | NoBody
    | NewUser(userName: string, password: Option<string>)
    | AddMember(display: string, userId: string)

  datatype Request = Request(verb: HttpMethod, url: string, body: Payload)

  /** The outcome of one client operation and the requests it sent. */
  datatype Call<+T> = Call(result: Result<T>, sent: seq<Request>)

  const AdminGroupFilter := "?filter=displayName+eq+PRIMARY/admin"

  function GroupSearchUrl(paths: ScimPaths, ip: string): string {
    "https://" + ip + paths.groups + AdminGroupFilter
  }

  function UsersUrl(paths: ScimPaths, ip: string): string {
    "https://" + ip + paths.users
  }

  function GroupUrl(paths: ScimPaths, ip: string, groupId: string): string {
    "https://" + ip + paths.groups + "/" + groupId
  }

  function UserUrl(paths: ScimPaths, ip: string, userId: string): string {
    "https://" + ip + paths.users + "/" + userId
  }

  /** A resource URL names exactly one resource: the id is recovered from its tail. */
  lemma ResourceUrlNamesOneId(prefix: string, id1: string, id2: string)
    requires prefix + "/" + id1 == prefix + "/" + id2
    ensures id1 == id2
  {
    var n := |prefix + "/"|;
    assert id1 == (prefix + "/" + id1)[n..];
    assert id2 == (prefix + "/" + id2)[n..];
  }

  /** Two user URLs of one directory that are equal name the same user. */
  lemma UserUrlInjective(paths: ScimPaths, ip: string, u1: string, u2: string)
    requires UserUrl(paths, ip, u1) == UserUrl(paths, ip, u2)
    ensures u1 == u2
  {
    ResourceUrlNamesOneId("https://" + ip + paths.users, u1, u2);
  }

  /** Two group URLs of one directory that are equal name the same group. */
  lemma GroupUrlInjective(paths: ScimPaths, ip: string, g1: string, g2: string)
    requires GroupUrl(paths, ip, g1) == GroupUrl(paths, ip, g2)
    ensures g1 == g2
  {
    ResourceUrlNamesOneId("https://" + ip + paths.groups, g1, g2);
  }

  /** Looks up the admin group; the first listed resource is taken, an empty list fails. */
  function GetGroups(paths: ScimPaths, ip: string, reply: Reply<seq<string>>): (c: Call<string>)
    ensures c.sent == [Request(Get, GroupSearchUrl(paths, ip), NoBody)]
    ensures c.result.Ok? <==> reply.Answered? && |reply.body| > 0
    ensures c.result.Ok? ==> c.result.value == reply.body[0]
    ensures c.result.Err? ==> c.result.error == GroupLookupFailed
  {
    var sent := [Request(Get, GroupSearchUrl(paths, ip), NoBody)];
    match reply
    case Answered(resources) =>
      if |resources| == 0 then Call(Err(GroupLookupFailed), sent) else Call(Ok(resources[0]), sent)
    case Threw => Call(Err(GroupLookupFailed), sent)
  }

  /** Creates the service-admin user with the requested password and returns its id. */
  function CreateUser(paths: ScimPaths, serviceAdmin: string, ip: string, password: Option<string>,
                      reply: Reply<string>): (c: Call<string>)
    ensures c.sent == [Request(Post, UsersUrl(paths, ip), NewUser(serviceAdmin, password))]
    ensures c.result.Ok? <==> reply.Answered?
    ensures c.result.Ok? ==> c.result.value == reply.body
    ensures c.result.Err? ==> c.result.error == UserCreateFailed
  {
    var sent := [Request(Post, UsersUrl(paths, ip), NewUser(serviceAdmin, password))];
    match reply
    case Answered(id) => Call(Ok(id), sent)
    case Threw => Call(Err(UserCreateFailed), sent)
  }

  /** Deletes a user of the directory. */
  function DeleteUser(paths: ScimPaths, ip: string, userId: string, reply: Reply<()>): (c: Call<()>)
    ensures c.sent == [Request(Delete, UserUrl(paths, ip, userId), NoBody)]
    ensures c.result.Ok? <==> reply.Answered?
    ensures c.result.Err? ==> c.result.error == UserDeleteFailed
  {
    var sent := [Request(Delete, UserUrl(paths, ip, userId), NoBody)];
    match reply
    case Answered(_) => Call(Ok(()), sent)
    case Threw => Call(Err(UserDeleteFailed), sent)
  }

  /**
   * Adds the user to the admin group. When the PATCH fails the user is
   * deleted again; a failing deletion raises its own error instead of the
   * grant error.
   */
  function RegAdmin(paths: ScimPaths, serviceAdmin: string, ip: string, groupId: string, userId: string,
                    patchReply: Reply<()>, deleteReply: Reply<()>): (c: Call<()>)
    ensures |c.sent| == (if patchReply.Answered? then 1 else 2)
    ensures c.sent[0] == Request(Patch, GroupUrl(paths, ip, groupId), AddMember(serviceAdmin, userId))
    ensures patchReply.Threw? ==> c.sent[1] == Request(Delete, UserUrl(paths, ip, userId), NoBody)
    ensures c.result.Ok? <==> patchReply.Answered?
    ensures c.result.Err? ==> c.result.error == (if deleteReply.Threw? then UserDeleteFailed else GroupGrantFailed)
  {
    var patch := Request(Patch, GroupUrl(paths, ip, groupId), AddMember(serviceAdmin, userId));
    match patchReply
    case Answered(_) => Call(Ok(()), [patch])
    case Threw =>
      var cleanup := DeleteUser(paths, ip, userId, deleteReply);
      Call(if cleanup.result.Err? then cleanup.result else Err(GroupGrantFailed), [patch] + cleanup.sent)
  }

  /**
   * The three directory steps of an assignment, in order, stopping at the
   * first failure. It always starts with the group search, sends at most four
   * requests, and succeeds exactly when all three steps succeed; then it has
   * sent exactly the search, the creation and the grant.
   */
  function ProvisionServiceAdmin(paths: ScimPaths, serviceAdmin: string, ip: string, password: Option<string>,
                                 replies: DirectoryReplies): (c: Call<()>)
    ensures 1 <= |c.sent| <= 4
    ensures c.sent[0] == Request(Get, GroupSearchUrl(paths, ip), NoBody)
    ensures c.result.Ok? <==>
      && replies.groupSearch.Answered? && |replies.groupSearch.body| > 0
      && replies.userCreate.Answered?
      && replies.groupPatch.Answered?
    ensures c.result.Ok? ==>
      c.sent == [
        Request(Get, GroupSearchUrl(paths, ip), NoBody),
        Request(Post, UsersUrl(paths, ip), NewUser(serviceAdmin, password)),
        Request(Patch, GroupUrl(paths, ip, replies.groupSearch.body[0]),
                AddMember(serviceAdmin, replies.userCreate.body))]
  {
    var groups := GetGroups(paths, ip, replies.groupSearch);
    if groups.result.Err? then Call(Err(groups.result.error), groups.sent)
    else
      var user := CreateUser(paths, serviceAdmin, ip, password, replies.userCreate);
      if user.result.Err? then Call(Err(user.result.error), groups.sent + user.sent)
      else
        var grant := RegAdmin(paths, serviceAdmin, ip, groups.result.value, user.result.value,
                              replies.groupPatch, replies.userDelete);
        Call(grant.result, groups.sent + user.sent + grant.sent)
  }

  /** A failed or empty group search stops provisioning before any user is created. */
  lemma LookupFailureStopsEarly(paths: ScimPaths, serviceAdmin: string, ip: string, password: Option<string>,
                                replies: DirectoryReplies)
    requires replies.groupSearch.Threw? || replies.groupSearch.body == []
    ensures ProvisionServiceAdmin(paths, serviceAdmin, ip, password, replies)
         == Call(Err(GroupLookupFailed), [Request(Get, GroupSearchUrl(paths, ip), NoBody)])
  {
  }

  /** A failed user creation stops provisioning before the group is touched. */
  lemma CreateFailureStopsEarly(paths: ScimPaths, serviceAdmin: string, ip: string, password: Option<string>,
                                replies: DirectoryReplies)
    requires replies.groupSearch.Answered? && |replies.groupSearch.body| > 0
    requires replies.userCreate.Threw?
    ensures ProvisionServiceAdmin(paths, serviceAdmin, ip, password, replies)
         == Call(Err(UserCreateFailed), [Request(Get, GroupSearchUrl(paths, ip), NoBody),
                                         Request(Post, UsersUrl(paths, ip), NewUser(serviceAdmin, password))])
  {
  }

  /**
   * A failed grant deletes exactly the user that was created, as the last
   * request; the error is the grant error unless the deletion fails too.
   */
  lemma GrantFailureDeletesCreatedUser(paths: ScimPaths, serviceAdmin: string, ip: string, password: Option<string>,
                                       replies: DirectoryReplies)
    requires replies.groupSearch.Answered? && |replies.groupSearch.body| > 0
    requires replies.userCreate.Answered?
    requires replies.groupPatch.Threw?
    ensures var c := ProvisionServiceAdmin(paths, serviceAdmin, ip, password, replies);
      && |c.sent| == 4
      && c.sent[2] == Request(Patch, GroupUrl(paths, ip, replies.groupSearch.body[0]),
                              AddMember(serviceAdmin, replies.userCreate.body))
      && c.sent[3] == Request(Delete, UserUrl(paths, ip, replies.userCreate.body), NoBody)
      && c.result == Err(if replies.userDelete.Threw? then UserDeleteFailed else GroupGrantFailed)
  {
  }

  /** A user deletion is only ever sent for the user id the directory returned from creation. */
  lemma DeletionTargetsCreatedUser(paths: ScimPaths, serviceAdmin: string, ip: string, password: Option<string>,
                                   replies: DirectoryReplies, k: nat)
    requires var c := ProvisionServiceAdmin(paths, serviceAdmin, ip, password, replies);
      k < |c.sent| && c.sent[k].verb == Delete
    ensures replies.userCreate.Answered? && k == 3
    ensures ProvisionServiceAdmin(paths, serviceAdmin, ip, password, replies).sent[k]
         == Request(Delete, UserUrl(paths, ip, replies.userCreate.body), NoBody)
  {
  }
}
