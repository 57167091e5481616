// Users and conversations as the request handlers look them up.

module Directory {
  import opened Text

  datatype User = User(isGuest: bool)

  datatype Conversation = Direct(id: string, participants: seq<string>) | Group

  datatype Directory = Directory(users: map<string, User>, conversations: map<string, Conversation>)

  function FindUser(dir: Directory, id: string): Option<User> {
    if Trim(id) != "" && Trim(id) in dir.users then Some(dir.users[Trim(id)]) else None
  }

  function LookupConversation(dir: Directory, id: string): Option<Conversation> {
    if Trim(id) != "" && Trim(id) in dir.conversations then Some(dir.conversations[Trim(id)]) else None
  }

  // Look-ups trim the id, and find nothing under a blank one.
  lemma LookupsTrim(dir: Directory, id: string)
    ensures FindUser(dir, id).Some? <==> Trim(id) != "" && Trim(id) in dir.users
    ensures FindUser(dir, id).Some? ==> FindUser(dir, id).value == dir.users[Trim(id)]
    ensures LookupConversation(dir, id).Some? <==> Trim(id) != "" && Trim(id) in dir.conversations
    ensures LookupConversation(dir, id).Some? ==> LookupConversation(dir, id).value == dir.conversations[Trim(id)]
  {
  }
}
