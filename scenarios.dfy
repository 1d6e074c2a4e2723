/**
 * Callers of the slice: sequences of reducer calls on a fresh state, with
 * what the views show afterwards, derived from the reducers' contracts.
 */
module Scenarios {
  import opened Wrappers
  import opened ChatTypes
  import opened ChatsSlice

  /**
   * A history page [m1, m2] followed by a live message m3 of the open chat:
   * storage is [m3, m1, m2] and the transcript reads m2, m1, m3.
   */
  method HistoryThenLiveMessage(c: Chat, m1: Message, m2: Message, m3: Message)
    returns (raw: seq<Message>, view: seq<Message>)
    requires m3.room == c.id
    ensures raw == [m3, m1, m2]
    ensures view == [m2, m1, m3]
  {
    var state := new ChatsState();
    state.SetCurrentChat(c);
    state.SetMessages([m1, m2]);
    state.AddNewMessage(m3);
    raw := state.messages;
    view := state.MessagesView();
  }

  /**
   * Distinct chats stored as [b, a] with b more recent: the view lists b
   * first. Making a current and promoting it moves a to the front of
   * storage, yet the view still lists b first, since the current record a
   * is strictly older than b.
   */
  method PromotionKeepsRecencyOrder(a: Chat, b: Chat)
    returns (before: seq<Chat>, after: seq<Chat>, stored: seq<Chat>)
    requires a.updatedAt < b.updatedAt && a.id != b.id
    ensures before == [b, a] && after == [b, a]
    ensures stored == [a, b]
  {
    var state := new ChatsState();
    var pair := [b, a];
    state.SetChats(pair);
    assert state.chats == pair;
    PairViews(a, b);
    before := state.ChatsView();
    state.SetCurrentChat(a);
    PairPromotion(a, b);
    state.SetFirstChatItem();
    stored := state.chats;
    after := state.ChatsView();
  }

  /** Distinct-timestamp chats b newer than a: [b, a] and [a, b] are both viewed as [b, a]. */
  lemma PairViews(a: Chat, b: Chat)
    requires a.updatedAt < b.updatedAt
    ensures Recency.SortedByRecency([b, a]) == [b, a]
    ensures Recency.SortedByRecency([a, b]) == [b, a]
  {
    assert [a, b][1..] == [b];
    assert [b, a][1..] == [a];
    assert Recency.SortedByRecency([a]) == [a];
    assert Recency.SortedByRecency([b]) == [b];
  }

  /** Distinct ids: promoting a in the stored list [b, a] stores [a, b]. */
  lemma PairPromotion(a: Chat, b: Chat)
    requires a.id != b.id
    ensures Promoted([b, a], Some(a)) == [a, b]
  {
    assert [b, a][1..] == [a];
    assert FirstIndexOf([a], Some(a.id)) == 0;
    assert FirstIndexOf([b, a], Some(a.id)) == 1;
    assert [b, a][..1] == [b] && [b, a][2..] == [];
  }

  /**
   * A known total of 0 is falsy, so a live message of the open chat is
   * stored without the total moving; a known total of 5 becomes 6.
   */
  method LiveMessageTotals(c: Chat, m: Message)
    returns (fromZero: Option<int>, fromFive: Option<int>, stored: nat)
    requires m.room == c.id
    ensures fromZero == Some(0) && fromFive == Some(6) && stored == 2
  {
    var state := new ChatsState();
    state.SetCurrentChat(c);
    state.SetTotalMessages(Some(0));
    state.AddNewMessage(m);
    fromZero := state.totalMessages;
    state.SetTotalMessages(Some(5));
    state.AddNewMessage(m);
    fromFive := state.totalMessages;
    stored := |state.messages|;
  }

  /**
   * Opening another chat: a live message of the old chat is dropped, and
   * resetting leaves an empty transcript with an unknown total while the
   * chat list is untouched.
   */
  method SwitchChat(previous: Chat, next: Chat, late: Message, page: seq<Message>)
    returns (view: seq<Message>, total: Option<int>, chatsKept: bool)
    requires late.room == previous.id && previous.id != next.id
    ensures view == [] && total == None && chatsKept
  {
    var state := new ChatsState();
    state.SetChats([previous, next]);
    state.SetCurrentChat(previous);
    state.SetMessages(page);
    state.SetTotalMessages(Some(|page|));
    state.SetCurrentChat(next);
    state.ResetMessages();
    state.AddNewMessage(late);
    view := state.MessagesView();
    total := state.totalMessages;
    chatsKept := state.chats == [previous, next];
  }
}
