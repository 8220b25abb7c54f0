/** `useAdminUserActions.handleUserDelete(id)`: after confirmation, DELETE
    the user and drop it from the local list. */
module UserActions {
  import opened Wrappers
  import opened Entities
  import Lists

  /** The ids sent a DELETE, and the list afterwards. */
  datatype Outcome = Outcome(deleted: seq<string>, users: seq<User>)

  function HandleUserDelete(users: seq<User>, id: string, confirmed: bool, request: Net<()>): (r: Outcome)
    ensures !confirmed ==> r == Outcome([], users)
    ensures confirmed ==> r.deleted == [id]
    ensures request.Failed? ==> r.users == users
    ensures confirmed && request.Ok? ==>
      (forall u :: u in r.users ==> u in users && u.id != id) &&
      (forall u :: u in users && u.id != id ==> u in r.users)
  {
    if !confirmed then Outcome([], users)
    else if request.Failed? then Outcome([id], users)
    else Outcome([id], Lists.RemoveKey(users, UserId, id))
  }

  /** The remaining users keep their order. */
  lemma DeleteKeepsOrder(a: seq<User>, b: seq<User>, id: string)
    ensures HandleUserDelete(a + b, id, true, Ok(())).users
         == HandleUserDelete(a, id, true, Ok(())).users + HandleUserDelete(b, id, true, Ok(())).users
  {
    Lists.RemoveKeyKeepsOrder(a, b, UserId, id);
  }

  /** Deleting an id that is not in the list leaves it as it is. */
  lemma DeleteAbsentId(users: seq<User>, id: string, request: Net<()>)
    requires forall u :: u in users ==> u.id != id
    ensures HandleUserDelete(users, id, true, request).users == users
  {
    Lists.RemoveAbsentKey(users, UserId, id);
  }
}
