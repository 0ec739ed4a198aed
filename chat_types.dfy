/** The records exchanged by the chat client (types/chat.type.ts), as values. */
module ChatTypes {

  import opened Optional

  datatype UserType = Student | Instructor

  datatype Role = Admin | Member

  /** A chat message; `id` may be absent. */
  datatype Message = Message(
    id: Option<string>,
    roomId: string,
    userId: string,
    userName: string,
    userType: UserType,
    message: string,
    timestamp: string)

  datatype Participant = Participant(id: string, name: string, userType: UserType, role: Option<Role>)

  /** The summary of the latest message that a conversation shows in the list. */
  datatype LastMessage = LastMessage(text: string, senderId: string, senderName: string, timestamp: string)

  datatype ConversationType = Direct | Group

  datatype Conversation = Conversation(
    id: string,
    kind: ConversationType,
    name: Option<string>,
    participantIds: seq<string>,
    participants: seq<Participant>,
    creatorId: Option<string>,
    lastMessage: Option<LastMessage>,
    lastSeen: Option<map<string, string>>,
    createdAt: string,
    updatedAt: string)

  /** The position `participants.find(p => p.id !== currentUserId)` stops at:
      the first participant who is not the current user, if any. */
  function FirstOtherIndex(ps: seq<Participant>, currentUserId: string): (r: Option<nat>)
    ensures r.Some? ==> r.value < |ps| && ps[r.value].id != currentUserId
    ensures r.Some? ==> forall j :: 0 <= j < r.value ==> ps[j].id == currentUserId
    ensures r.None? <==> forall j :: 0 <= j < |ps| ==> ps[j].id == currentUserId
  {
    if ps == [] then None
    else if ps[0].id != currentUserId then Some(0)
    else match FirstOtherIndex(ps[1..], currentUserId)
      case None => None
      case Some(i) => Some(i + 1)
  }

  /** `participants.find(p => p.id !== currentUserId)`. */
  function FindOther(ps: seq<Participant>, currentUserId: string): Option<Participant> {
    match FirstOtherIndex(ps, currentUserId)
    case None => None
    case Some(i) => Some(ps[i])
  }
}
