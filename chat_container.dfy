/** The open conversation's panel: its header text, the input bar's enabled
    state, how messages are keyed and attributed, and the composer that turns
    keystrokes into typing signals and sends. */
module ChatContainer {

  import opened Optional
  import opened JsString
  import opened ChatTypes
  import opened Timers
  import ConversationList

  /** Delay after the last keystroke before the composer reports that the
      user stopped typing. */
  const TypingDebounceMs: nat := 1000

  /** `getConversationTitle`. */
  function Title(conversation: Option<Conversation>, currentUserId: string): (r: string)
    ensures r != ""
    ensures conversation.None? ==> r == "Chat"
    ensures conversation.Some? && conversation.value.kind == Group ==>
              var name := conversation.value.name;
              (if name.Some? && name.value != "" then r == name.value else r == "Group Chat")
    ensures conversation.Some? && conversation.value.kind == Direct ==>
              var ps := conversation.value.participants;
              match FirstOtherIndex(ps, currentUserId)
              case Some(i) => r == (if ps[i].name == "" then "Unknown User" else ps[i].name)
              case None => r == "Unknown User"
  {
    match conversation
    case None => "Chat"
    case Some(c) =>
      if c.kind == Group then
        match c.name
        case None => "Group Chat"
        case Some(n) => Or(n, "Group Chat")
      else
        match FindOther(c.participants, currentUserId)
        case Some(p) => Or(p.name, "Unknown User")
        case None => "Unknown User"
  }

  /** `getConversationSubtitle`. */
  function Subtitle(conversation: Option<Conversation>, currentUserId: string): (r: string)
    ensures conversation.None? ==> r == ""
    ensures conversation.Some? && conversation.value.kind == Group ==>
              && |r| > 8 && EndsWith(r, " members") && AllDigits(r[..|r| - 8])
              && (r[0] == '0' ==> r == "0 members" && |conversation.value.participants| == 0)
              && ParseDecimal(r[..|r| - 8]) == |conversation.value.participants|
    ensures conversation.Some? && conversation.value.kind == Direct ==>
              var other := FindOther(conversation.value.participants, currentUserId);
              && (r == "Student" <==> other.Some? && other.value.userType == Student)
              && (r != "Student" ==> r == "Instructor")
  {
    match conversation
    case None => ""
    case Some(c) =>
      if c.kind == Group then
        var count := NatToString(|c.participants|);
        var r := count + " members";
        assert r[..|r| - 8] == count && r[0] == count[0];
        ParseNatToString(|c.participants|);
        r
      else
        var other := FindOther(c.participants, currentUserId);
        if other.Some? && other.value.userType == Student then "Student" else "Instructor"
  }

  /** The header of a direct conversation shows the same name as its row in
      the conversation list; a group's header drops the " - Group Chat"
      suffix the list adds. */
  lemma DirectTitleMatchesListName(c: Conversation, currentUserId: string)
    requires c.kind == Direct
    ensures Title(Some(c), currentUserId) == ConversationList.ConversationName(c, currentUserId)
  {
  }

  /** `!inputValue.trim()`: the input holds nothing but whitespace. */
  predicate BlankInput(inputValue: string) {
    Trim(inputValue) == ""
  }

  /** The send button's `disabled`: blank input or no connection. */
  function SendDisabled(inputValue: string, isConnected: bool): (r: bool)
    ensures r <==> AllWhitespace(inputValue) || !isConnected
  {
    BlankInput(inputValue) || !isConnected
  }

  /** The text input's `disabled`: no connection. */
  function InputDisabled(isConnected: bool): bool {
    !isConnected
  }

  /** A disabled input always comes with a disabled send button, and an
      enabled send button means a click will send. */
  lemma InputBarConsistent(inputValue: string, isConnected: bool)
    ensures InputDisabled(isConnected) ==> SendDisabled(inputValue, isConnected)
    ensures !SendDisabled(inputValue, isConnected) ==> !BlankInput(inputValue)
  {
  }

  /** A message is drawn as the current user's own iff they sent it. */
  function IsOwn(msg: Message, currentUserId: string): bool {
    msg.userId == currentUserId
  }

  /** A message carries an id that `||` keeps: present and non-empty. */
  predicate HasId(msg: Message) {
    msg.id.Some? && msg.id.value != ""
  }

  /** The list key React compares for a message: `msg.id || index`, turned
      into a string, so a missing id falls back to the position in decimal. */
  function KeyOf(msg: Message, index: nat): (k: string)
    ensures k != ""
    ensures HasId(msg) ==> k == msg.id.value
    ensures !HasId(msg) ==> AllDigits(k) && (k[0] == '0' ==> k == "0") && ParseDecimal(k) == index
  {
    if HasId(msg) then msg.id.value
    else
      ParseNatToString(index);
      NatToString(index)
  }

  /** Keys are pairwise distinct when the ids present are, and no id reads
      like the position of a message that has none. */
  lemma KeysDistinct(ms: seq<Message>)
    requires forall i, j :: 0 <= i < j < |ms| && HasId(ms[i]) && HasId(ms[j]) ==> ms[i].id != ms[j].id
    requires forall i, j :: 0 <= i < |ms| && 0 <= j < |ms| && HasId(ms[i]) && !HasId(ms[j]) ==>
               ms[i].id.value != NatToString(j)
    ensures forall i, j :: 0 <= i < j < |ms| ==> KeyOf(ms[i], i) != KeyOf(ms[j], j)
  {
    forall i, j | 0 <= i < j < |ms|
      ensures KeyOf(ms[i], i) != KeyOf(ms[j], j)
    {
      if !HasId(ms[i]) && !HasId(ms[j]) {
        NatToStringInjective(i, j);
      }
    }
  }

  /** Without the second condition keys can clash: a message with id "1"
      and an id-less message at position 1 both get the key "1". */
  lemma KeyClash(a: Message, b: Message)
    requires a.id == Some("1") && b.id.None?
    ensures KeyOf(a, 0) == KeyOf(b, 1) == "1"
  {
    assert NatToString(1) == "1";
  }

  /** What the composer reports to its parent. */
  datatype Callback = OnTyping(isTyping: bool) | OnSendMessage(message: string)

  /** Whether the last typing signal reported was "typing". */
  function TypingSignalled(calls: seq<Callback>): bool {
    if calls == [] then false
    else match calls[|calls| - 1]
      case OnTyping(b) => b
      case OnSendMessage(_) => TypingSignalled(calls[..|calls| - 1])
  }

  /** The input bar's state: the text, the typing flag and the debounce timer. */
  class Composer {
    var inputValue: string
    var isTyping: bool
    var typingTimer: TimerSlot
    ghost var calls: seq<Callback>

    /** The typing flag always matches the last signal sent to the parent,
        and while it is set a timer is armed that will clear it. */
    ghost predicate Valid()
      reads this
    {
      && typingTimer.Valid()
      && isTyping == TypingSignalled(calls)
      && (isTyping ==> typingTimer.Pending())
    }

    constructor ()
      ensures Valid()
      ensures inputValue == "" && !isTyping && typingTimer == Idle && calls == []
    {
      inputValue := "";
      isTyping := false;
      typingTimer := Idle;
      calls := [];
    }

    /** `handleInputChange`: store the value; the first non-empty change
        reports typing; every change restarts the debounce timer. */
    method InputChange(value: string)
      requires Valid()
      modifies this
      ensures Valid()
      ensures inputValue == value
      ensures isTyping == (old(isTyping) || |value| > 0)
      ensures calls == old(calls) + (if |value| > 0 && !old(isTyping) then [OnTyping(true)] else [])
      ensures typingTimer == old(typingTimer).Clear().Arm()
      ensures typingTimer.armed == {old(typingTimer).nextId}
    {
      inputValue := value;
      if |value| > 0 && !isTyping {
        isTyping := true;
        calls := calls + [OnTyping(true)];
      }
      typingTimer := typingTimer.Clear();
      typingTimer := typingTimer.Arm();
    }

    /** `handleSend`: only a non-blank input is sent, untrimmed; the input is
        cleared, typing is reported over and the timer is cancelled. */
    method Send()
      requires Valid()
      modifies this
      ensures Valid()
      ensures BlankInput(old(inputValue)) ==>
                inputValue == old(inputValue) && isTyping == old(isTyping)
                && typingTimer == old(typingTimer) && calls == old(calls)
      ensures !BlankInput(old(inputValue)) ==>
                && inputValue == "" && !isTyping
                && calls == old(calls) + [OnSendMessage(old(inputValue)), OnTyping(false)]
                && typingTimer == old(typingTimer).Clear() && !typingTimer.Pending()
    {
      if !BlankInput(inputValue) {
        calls := calls + [OnSendMessage(inputValue)];
        inputValue := "";
        isTyping := false;
        calls := calls + [OnTyping(false)];
        typingTimer := typingTimer.Clear();
      }
    }

    /** `handleKeyPress`: Enter without Shift sends; any other key does
        nothing. */
    method KeyPress(key: string, shiftKey: bool)
      requires Valid()
      modifies this
      ensures Valid()
      ensures !(key == "Enter" && !shiftKey) ==>
                inputValue == old(inputValue) && isTyping == old(isTyping)
                && typingTimer == old(typingTimer) && calls == old(calls)
      ensures key == "Enter" && !shiftKey && BlankInput(old(inputValue)) ==>
                inputValue == old(inputValue) && isTyping == old(isTyping)
                && typingTimer == old(typingTimer) && calls == old(calls)
      ensures key == "Enter" && !shiftKey && !BlankInput(old(inputValue)) ==>
                inputValue == "" && !isTyping
                && calls == old(calls) + [OnSendMessage(old(inputValue)), OnTyping(false)]
                && typingTimer == old(typingTimer).Clear() && !typingTimer.Pending()
    {
      if key == "Enter" && !shiftKey {
        Send();
      }
    }

    /** The debounce timer fires: typing is reported over. */
    method FireTypingTimer()
      requires Valid()
      modifies this
      ensures Valid()
      ensures old(typingTimer.Pending()) ==>
                !isTyping && calls == old(calls) + [OnTyping(false)]
                && typingTimer == old(typingTimer).Fire()
      ensures !old(typingTimer.Pending()) ==>
                isTyping == old(isTyping) && calls == old(calls) && typingTimer == old(typingTimer)
      ensures inputValue == old(inputValue)
    {
      if typingTimer.Pending() {
        typingTimer := typingTimer.Fire();
        isTyping := false;
        calls := calls + [OnTyping(false)];
      }
    }
  }
}
