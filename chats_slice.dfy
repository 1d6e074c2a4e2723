/**
 * The chats slice: the state record of the chat list, the open chat and its
 * messages, the reducers that update it in place, and the two derived views.
 */
module ChatsSlice {
  import opened Wrappers
  import opened ChatTypes
  import opened Recency
  import opened MessageOrder

  /**
   * `currentChat?.id`: the id of the current chat, absent when there is none.
   * Compared with a defined id, it matches exactly when there is a current
   * chat and that chat has the id.
   */
  function IdOf(current: Option<Chat>): (key: Option<string>)
    ensures key.None? <==> current.None?
    ensures key.Some? ==> key.value == current.value.id
  {
    if current.Some? then Some(current.value.id) else None
  }

  /**
   * JavaScript truthiness of an optional count: `undefined` and `0` are
   * falsy, every other number is truthy.
   */
  predicate Truthy(count: Option<int>)
    ensures Truthy(count) <==> count != None && count != Some(0)
  {
    count.Some? && count.value != 0
  }

  /**
   * `findIndex` of the chat whose id is `key`: the first matching index, or
   * -1. An absent key matches no chat, since every stored id is a string.
   */
  function FirstIndexOf(chats: seq<Chat>, key: Option<string>): (index: int)
    ensures -1 <= index < |chats|
    ensures index == -1 <==> forall j :: 0 <= j < |chats| ==> key != Some(chats[j].id)
    ensures index != -1 ==> key == Some(chats[index].id)
    ensures index != -1 ==> forall j :: 0 <= j < index ==> key != Some(chats[j].id)
  {
    if chats == [] then -1
    else if key == Some(chats[0].id) then 0
    else
      var k := FirstIndexOf(chats[1..], key);
      if k == -1 then -1 else k + 1
  }

  /**
   * The chat list after `setFirstChatItem`: when the current chat's id is
   * stored, its first occurrence is removed and the current chat record is
   * put in front; otherwise the list is left as it is.
   */
  function Promoted(chats: seq<Chat>, current: Option<Chat>): (r: seq<Chat>)
    ensures |r| == |chats|
  {
    var index := FirstIndexOf(chats, IdOf(current));
    if index != -1 && current.Some? then [current.value] + chats[..index] + chats[index + 1..]
    else chats
  }

  /**
   * Promotion of a stored current chat: the current record leads, the chats
   * before its first occurrence move one place down, and those after it keep
   * their places, later chats with the same id included.
   */
  lemma PromotedMovesCurrentToFront(chats: seq<Chat>, c: Chat)
    requires FirstIndexOf(chats, Some(c.id)) != -1
    ensures var r := Promoted(chats, Some(c));
      var i := FirstIndexOf(chats, Some(c.id));
      r[0] == c && r[1..i + 1] == chats[..i] && r[i + 1..] == chats[i + 1..]
  {
    var i := FirstIndexOf(chats, Some(c.id));
    var r := Promoted(chats, Some(c));
    assert r == [c] + chats[..i] + chats[i + 1..];
  }

  /**
   * Promotion trades the first stored occurrence of the current chat's id
   * for the current chat record itself, even when the two records differ.
   */
  lemma PromotedReplacesOccurrence(chats: seq<Chat>, c: Chat)
    requires FirstIndexOf(chats, Some(c.id)) != -1
    ensures var i := FirstIndexOf(chats, Some(c.id));
      multiset(Promoted(chats, Some(c))) == multiset(chats) - multiset{chats[i]} + multiset{c}
  {
    RemovedAndPutInFront(chats, FirstIndexOf(chats, Some(c.id)), c);
  }

  /** Removing the chat at `i` and putting `c` in front swaps one for the other in the multiset. */
  lemma RemovedAndPutInFront(s: seq<Chat>, i: nat, c: Chat)
    requires i < |s|
    ensures multiset([c] + s[..i] + s[i + 1..]) == multiset(s) - multiset{s[i]} + multiset{c}
  {
    var before, after := s[..i], s[i + 1..];
    assert s == before + [s[i]] + after;
    assert multiset(s) == multiset(before) + multiset{s[i]} + multiset(after);
  }

  /** Without a current chat, or when its id is not stored, promotion changes nothing. */
  lemma PromotedWithoutMatchIsIdentity(chats: seq<Chat>, current: Option<Chat>)
    requires current.None? || forall j :: 0 <= j < |chats| ==> chats[j].id != current.value.id
    ensures Promoted(chats, current) == chats
  {
  }

  /** Promoting the same current chat twice is the same as promoting it once. */
  lemma PromotionIsIdempotent(chats: seq<Chat>, current: Option<Chat>)
    ensures Promoted(Promoted(chats, current), current) == Promoted(chats, current)
  {
    var r := Promoted(chats, current);
    if current.Some? && FirstIndexOf(chats, IdOf(current)) != -1 {
      var c := current.value;
      assert r[0] == c by { PromotedMovesCurrentToFront(chats, c); }
      assert FirstIndexOf(r, Some(c.id)) == 0;
      assert Promoted(r, current) == [c] + r[..0] + r[1..];
      assert r == [r[0]] + r[1..];
    }
  }

  /**
   * After promotion the current chat heads the recency view exactly when no
   * chat in the list is strictly more recent: the current record's own
   * timestamp decides, and its place in front of storage only wins ties.
   */
  lemma PromotedLeadsViewIffNewest(chats: seq<Chat>, c: Chat)
    requires FirstIndexOf(chats, Some(c.id)) != -1
    ensures var r := Promoted(chats, Some(c));
      SortedByRecency(r)[0] == c <==> AtLeastAsRecentAsAll(c, r)
  {
    var r := Promoted(chats, Some(c));
    PromotedMovesCurrentToFront(chats, c);
    ViewHeadIsNewest(r);
    if AtLeastAsRecentAsAll(c, r) {
      NewestHeadStaysFirst(r);
    }
  }

  /** The state record of the slice, updated in place by its reducers. */
  class ChatsState {
    var currentChat: Option<Chat>
    var localCurrentChat: Option<LocalChat>
    var messages: seq<Message>
    var totalMessages: Option<int>
    var loadingGetMessages: bool
    var chats: seq<Chat>
    var totalChats: Option<int>

    /** The initial state: nothing open, nothing loaded, both totals unknown. */
    constructor ()
      ensures currentChat == None && localCurrentChat == None
      ensures messages == [] && totalMessages == None && !loadingGetMessages
      ensures chats == [] && totalChats == None
    {
      currentChat := None;
      localCurrentChat := None;
      messages := [];
      totalMessages := None;
      loadingGetMessages := false;
      chats := [];
      totalChats := None;
    }

    /** The `chats` selector: the stored chats, newest first, ties in stored order. */
    function ChatsView(): (view: seq<Chat>)
      reads this
      ensures NewestFirst(view) && multiset(view) == multiset(chats)
    {
      SortedByRecency(chats)
    }

    /** The `messages` selector: the stored messages, oldest first. */
    function MessagesView(): (view: seq<Message>)
      reads this
      ensures |view| == |messages|
      ensures forall i :: 0 <= i < |messages| ==> view[i] == messages[|messages| - 1 - i]
    {
      OldestFirst(messages)
    }

    /** Records the confirmed current chat; nothing else changes. */
    method SetCurrentChat(c: Chat)
      modifies this`currentChat
      ensures currentChat == Some(c)
    {
      currentChat := Some(c);
    }

    /** A page of chats goes to the end of the stored list, duplicates and all. */
    method SetChats(batch: seq<Chat>)
      modifies this`chats
      ensures chats == old(chats) + batch
    {
      chats := chats + batch;
    }

    /** Sets the server's chat total, or forgets it; nothing else changes. */
    method SetTotalChats(total: Option<int>)
      modifies this`totalChats
      ensures totalChats == total
    {
      totalChats := total;
    }

    /** A page of older messages goes to the end of storage and so to the top of the view. */
    method SetMessages(batch: seq<Message>)
      modifies this`messages
      ensures messages == old(messages) + batch
      ensures MessagesView() == OldestFirst(batch) + old(MessagesView())
    {
      AppendedPageShowsFirst(messages, batch);
      messages := messages + batch;
    }

    /** Sets the server's message total, or forgets it; nothing else changes. */
    method SetTotalMessages(total: Option<int>)
      modifies this`totalMessages
      ensures totalMessages == total
    {
      totalMessages := total;
    }

    /** Clears the stored chats; the chat total is kept. */
    method ResetChats()
      modifies this`chats
      ensures chats == []
    {
      chats := [];
    }

    /** Clears the messages and forgets their total; nothing else changes. */
    method ResetMessages()
      modifies this`messages, this`totalMessages
      ensures messages == [] && totalMessages == None
      ensures MessagesView() == []
    {
      messages := [];
      totalMessages := None;
    }

    /** Sets whether a page of messages is being fetched; nothing else changes. */
    method SetLoadingGetMessages(loading: bool)
      modifies this`loadingGetMessages
      ensures loadingGetMessages == loading
    {
      loadingGetMessages := loading;
    }

    /**
     * A live message is kept only when it belongs to the current chat; it
     * then goes in front of storage, so to the bottom of the view, and a
     * truthy total grows by one. A total of 0 or undefined stays as it is.
     */
    method AddNewMessage(m: Message)
      modifies this`messages, this`totalMessages
      ensures IdOf(currentChat) == Some(m.room) ==> messages == [m] + old(messages)
      ensures IdOf(currentChat) == Some(m.room) ==> MessagesView() == old(MessagesView()) + [m]
      ensures IdOf(currentChat) == Some(m.room) && Truthy(old(totalMessages))
        ==> totalMessages == Some(old(totalMessages).value + 1)
      ensures IdOf(currentChat) == Some(m.room) && !Truthy(old(totalMessages))
        ==> totalMessages == old(totalMessages)
      ensures IdOf(currentChat) != Some(m.room)
        ==> messages == old(messages) && totalMessages == old(totalMessages)
    {
      if IdOf(currentChat) == Some(m.room) {
        FrontMessageShowsLast(messages, m);
        messages := [m] + messages;
        if Truthy(totalMessages) {
          totalMessages := Some(totalMessages.value + 1);
        }
      }
    }

    /** Records the locally opened chat, or clears it; nothing else changes. */
    method SetLocalCurrentChat(local: Option<LocalChat>)
      modifies this`localCurrentChat
      ensures localCurrentChat == local
    {
      localCurrentChat := local;
    }

    /** A new chat goes in front of the stored list, with no check for its id. */
    method AddNewChat(c: Chat)
      modifies this`chats
      ensures chats == [c] + old(chats)
      ensures |chats| == |old(chats)| + 1
    {
      chats := [c] + chats;
    }

    /** Moves the current chat to the front of the stored list, if its id is there. */
    method SetFirstChatItem()
      modifies this`chats
      ensures chats == Promoted(old(chats), currentChat)
    {
      var index := FirstIndexOf(chats, IdOf(currentChat));
      if index != -1 && currentChat.Some? {
        chats := chats[..index] + chats[index + 1..];
        chats := [currentChat.value] + chats;
      }
    }
  }
}
