/** The writes the pages send to the hosted store without acting on their outcome.
    Requests whose outcome the pages do act on are parameters of the handlers instead. */
module Remote {
  import opened Common
  import opened Profiles

  datatype RemoteWrite =
    | UpdateCounter(profileId: string, counter: Counter, value: int)   // profiles.update({<counter>}).eq("id", …)
    | DeleteProfileRow(profileId: string)                            // profiles.delete().eq("id", …)
    | DeleteCollaboratorsOf(profileId: string)                       // profile_collaborators.delete().eq("profile_id", …)
    | DeleteCollaboratorRow(collaboratorId: string)                  // profile_collaborators.delete().eq("id", …)
    | InsertCollaborator(profileId: string, userId: UserId)          // profile_collaborators.insert({…})

  /** The counter write that follows a local change, issued only when the profile is in the
      updated list (`updated.find(...)` in the handlers). */
  function CounterWrite(updated: seq<Profile>, id: string, c: Counter): (ws: seq<RemoteWrite>)
    ensures |ws| <= 1
    ensures ws != [] <==> id in Ids(updated)
    ensures ws != [] ==> ws[0].UpdateCounter? && ws[0].profileId == id && ws[0].counter == c
    ensures ws != [] ==> ws[0].value == CounterOf(Find(updated, id).value, c)
  {
    var found := Find(updated, id);
    if found.Some? then [UpdateCounter(id, c, CounterOf(found.value, c))] else []
  }
}
