/** The side list of conversations: the name shown for each conversation,
    which row is highlighted, and whether a spinner, the empty state or the
    rows are shown. */
module ConversationList {

  import opened Optional
  import opened JsString
  import opened ChatTypes

  const GroupSuffix: string := " - Group Chat"
  const UnknownUser: string := "Unknown User"

  /** `getConversationName`. A group shows its name followed by
      " - Group Chat" (an absent name is printed as "undefined"); the
      fallback to "Group Chat" behind it can never be taken, because the
      concatenation is never empty. A direct conversation shows the first
      other participant's name, or "Unknown User" when there is none or
      that name is empty. */
  function ConversationName(c: Conversation, currentUserId: string): (r: string)
    ensures r != ""
    ensures c.kind == Group ==> r == ConcatOperand(c.name) + GroupSuffix
    ensures c.kind == Direct ==>
              match FirstOtherIndex(c.participants, currentUserId)
              case Some(i) => r == Or(c.participants[i].name, UnknownUser)
              case None => r == UnknownUser
  {
    if c.kind == Group then
      Or(ConcatOperand(c.name) + GroupSuffix, "Group Chat")
    else
      match FindOther(c.participants, currentUserId)
      case Some(p) => Or(p.name, UnknownUser)
      case None => UnknownUser
  }

  /** A group's displayed name always ends in " - Group Chat" and is never
      the bare "Group Chat". */
  lemma GroupNameShape(c: Conversation, currentUserId: string)
    requires c.kind == Group
    ensures EndsWith(ConversationName(c, currentUserId), GroupSuffix)
    ensures ConversationName(c, currentUserId) != "Group Chat"
  {
    var r := ConversationName(c, currentUserId);
    assert r[|r| - |GroupSuffix|..] == GroupSuffix;
    assert r[|r| - 11] == ' ';
  }

  /** One row of the list. */
  datatype Row = Row(id: string, name: string, selected: bool)

  /** What the component renders. */
  datatype ListView = Spinner | EmptyState | Rows(rows: seq<Row>)

  /** `conversations.map(...)`: one row per conversation, in list order,
      highlighted when its id is the selected id. */
  function RowsOf(cs: seq<Conversation>, currentUserId: string, selectedId: Option<string>): (r: seq<Row>)
    ensures |r| == |cs|
    ensures forall i :: 0 <= i < |cs| ==>
              && r[i].id == cs[i].id
              && r[i].name == ConversationName(cs[i], currentUserId)
              && (r[i].selected <==> selectedId == Some(cs[i].id))
  {
    if cs == [] then []
    else
      [Row(cs[0].id, ConversationName(cs[0], currentUserId), selectedId == Some(cs[0].id))]
      + RowsOf(cs[1..], currentUserId, selectedId)
  }

  /** The whole component: loading wins, then an empty list, then the rows. */
  function ListConversation(cs: seq<Conversation>, currentUserId: string,
                            selectedId: Option<string>, loading: bool): (v: ListView)
    ensures loading ==> v == Spinner
    ensures !loading && cs == [] ==> v == EmptyState
    ensures !loading && cs != [] ==> v.Rows? && v.rows == RowsOf(cs, currentUserId, selectedId)
  {
    if loading then Spinner
    else if |cs| == 0 then EmptyState
    else Rows(RowsOf(cs, currentUserId, selectedId))
  }

  predicate DistinctIds(cs: seq<Conversation>) {
    forall i, j :: 0 <= i < j < |cs| ==> cs[i].id != cs[j].id
  }

  /** When conversation ids are distinct, at most one row is highlighted. */
  lemma AtMostOneSelected(cs: seq<Conversation>, currentUserId: string, selectedId: Option<string>)
    requires DistinctIds(cs)
    ensures var rows := RowsOf(cs, currentUserId, selectedId);
            forall i, j :: 0 <= i < |rows| && 0 <= j < |rows| && rows[i].selected && rows[j].selected ==> i == j
  {
  }
}
