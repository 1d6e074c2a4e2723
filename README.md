# Chats slice of App-chat-frontend, modelled in Dafny

This project models the chat/message state slice of a chat web client
(`store/features/chats/index.ts`). The slice is a single in-memory record
with these parts:

- the confirmed `currentChat` and the provisional `localCurrentChat`;
- the stored `messages` of the open chat, with an optional `totalMessages`;
- a `loadingGetMessages` flag;
- the stored `chats`, with an optional `totalChats`.

Twelve reducers update the record in place. Two selectors derive read views
from it: the chat list sorted newest first, and the messages reversed into
transcript order.

Layout:

- `wrappers.dfy` (`Wrappers`): `Option`, standing for `T | null` and `T | undefined`.
- `chat_types.dfy` (`ChatTypes`): `Chat` (`id`, `updatedAt`, opaque `details`),
  `Message` (`room`, opaque `content`) and `LocalChat` (opaque).
- `recency.dfy` (`Recency`): the `chats` selector as a stable insertion sort,
  newest first. It proves the result is a permutation and newest first. It
  proves stability: each group of equal timestamps keeps its stored order.
  It also proves that these properties determine the result uniquely.
- `message_order.dfy` (`MessageOrder`): the `messages` selector, with how
  appended pages and prepended messages appear in the view.
- `chats_slice.dfy` (`ChatsSlice`): `findIndex`, the `setFirstChatItem`
  promotion as a function with its lemmas, and the class `ChatsState`. The
  class has the record's fields, the reducers as methods and the two
  selectors as functions.
- `scenarios.dfy` (`Scenarios`): callers that run reducer sequences on a fresh
  state and state what the views then show.

Each reducer has a `modifies` clause naming the fields it assigns (for example
`modifies this`messages, this`totalMessages`). So "nothing else changes" is
part of every reducer's contract.

Three behaviours of the code are worth stating outright:

- A live message of the open chat bumps `totalMessages` only when the total
  is truthy (`if (state.totalMessages)`). A known total of 0 stays 0, because
  0 is falsy; an undefined total stays undefined.
- `setChats` and `addNewChat` do not check ids, so the same chat id can be
  stored more than once; the model keeps such duplicates.
- `setFirstChatItem` does not change any timestamp by itself. It replaces the
  stored record at the first match with the `currentChat` record and puts
  that record in front (`PromotedReplacesOccurrence`). The order of the view
  is then decided by that record's own `updatedAt`: it heads the view exactly
  when no chat in the list is strictly more recent
  (`PromotedLeadsViewIffNewest`). So a strictly newer chat still sorts above
  it (`PromotionKeepsRecencyOrder`), while a `currentChat` record newer than
  its stored copy can lead the view.

## Model

| member | source | states |
|---|---|---|
| `Recency.InsertByRecency` | store/features/chats/index.ts:108-112 | inserting a chat adds exactly that chat: the length grows by one and the multiset gains `c` |
| `Recency.InsertKeepsNewestFirst` | store/features/chats/index.ts:108-112 | inserting into a newest-first list keeps it newest first |
| `Recency.SortedByRecency` | store/features/chats/index.ts:106-113 | the chats view is a permutation of the stored chats (same length, same multiset), ordered non-increasing by `updatedAt` |
| `Recency.InsertKeepsTies` | store/features/chats/index.ts:108-112 | insertion does not reorder any group of chats with equal timestamps; the inserted chat goes ahead of its ties |
| `Recency.SortIsStable` | store/features/chats/index.ts:106-113 | stability: for every timestamp, the view lists the chats updated at that time in their stored order |
| `Recency.TiesDetermineOrder` | store/features/chats/index.ts:106-113 | two newest-first lists that agree on the order within every group of ties are equal |
| `Recency.StableSortCharacterized` | store/features/chats/index.ts:106-113 | a list is the chats view iff it is newest first and keeps every group of ties in stored order |
| `Recency.ViewHeadIsNewest` | store/features/chats/index.ts:106-113 | the first chat of the view is at least as recent as every stored chat |
| `Recency.NewestHeadStaysFirst` | store/features/chats/index.ts:106-113 | a stored head at least as recent as all stored chats is also the head of the view (ties favour stored order) |
| `MessageOrder.OldestFirst` | store/features/chats/index.ts:115-116 | the messages view is exactly the reverse of storage: the same length, and element `i` is stored element `n-1-i` |
| `MessageOrder.OldestFirstRoundTrip` | store/features/chats/index.ts:115-116 | reversing the view gives back the stored messages |
| `MessageOrder.FrontMessageShowsLast` | store/features/chats/index.ts:115-116 | a message unshifted into storage shows at the bottom of the view |
| `MessageOrder.AppendedPageShowsFirst` | store/features/chats/index.ts:115-116 | a page pushed onto storage shows, reversed, above the existing view |
| `ChatsSlice.IdOf` | store/features/chats/index.ts:62 | `currentChat?.id` is absent exactly when there is no current chat, and otherwise is that chat's id |
| `ChatsSlice.Truthy` | store/features/chats/index.ts:64 | the truthiness test on the optional total: false exactly for undefined and 0 |
| `ChatsSlice.FirstIndexOf` | store/features/chats/index.ts:79-81 | `findIndex` returns -1 iff no stored id equals the key; otherwise the index of a match with no match before it; an absent key (no current chat) matches nothing |
| `ChatsSlice.Promoted` | store/features/chats/index.ts:78-86 | promotion preserves the length of the chat list |
| `ChatsSlice.PromotedMovesCurrentToFront` | store/features/chats/index.ts:78-86 | with a match at first index `i`, the current chat leads, the chats before `i` shift down by one, and the chats after `i` keep their places (later duplicates of the id included) |
| `ChatsSlice.PromotedReplacesOccurrence` | store/features/chats/index.ts:83-84 | promotion removes the stored record at `i` and adds the `currentChat` record itself, even when the two differ |
| `ChatsSlice.PromotedWithoutMatchIsIdentity` | store/features/chats/index.ts:79-82 | with no current chat, or no stored chat with its id, the list is unchanged |
| `ChatsSlice.PromotionIsIdempotent` | store/features/chats/index.ts:78-86 | promoting the same current chat twice equals promoting it once |
| `ChatsSlice.PromotedLeadsViewIffNewest` | store/features/chats/index.ts:78-86 | after promotion the current chat heads the sorted view iff no chat in the list is strictly more recent |
| `ChatsSlice.ChatsState.constructor` | store/features/chats/index.ts:19-27 | the initial state: no current or local chat, no messages or chats, both totals undefined, not loading |
| `ChatsSlice.ChatsState.ChatsView` | store/features/chats/index.ts:106-113 | the `chats` selector is newest first and a permutation of the stored chats; as a function it leaves storage untouched |
| `ChatsSlice.ChatsState.MessagesView` | store/features/chats/index.ts:115-116 | the `messages` selector is the stored messages reversed |
| `ChatsSlice.ChatsState.SetCurrentChat` | store/features/chats/index.ts:33-35 | sets `currentChat`; no other field changes |
| `ChatsSlice.ChatsState.SetChats` | store/features/chats/index.ts:36-38 | `chats = old + batch`; no other field changes |
| `ChatsSlice.ChatsState.SetTotalChats` | store/features/chats/index.ts:39-41 | sets `totalChats`, possibly to undefined; no other field changes |
| `ChatsSlice.ChatsState.SetMessages` | store/features/chats/index.ts:42-44 | `messages = old + batch`, so the page shows reversed above the old view; no other field changes |
| `ChatsSlice.ChatsState.SetTotalMessages` | store/features/chats/index.ts:45-50 | sets `totalMessages`, possibly to undefined; no other field changes |
| `ChatsSlice.ChatsState.ResetChats` | store/features/chats/index.ts:51-53 | empties `chats`; `totalChats` and every other field keep their values |
| `ChatsSlice.ChatsState.ResetMessages` | store/features/chats/index.ts:54-57 | empties `messages` and makes `totalMessages` undefined; chats, totals of chats, current and local chat and the loading flag keep their values |
| `ChatsSlice.ChatsState.SetLoadingGetMessages` | store/features/chats/index.ts:58-60 | sets the loading flag; no other field changes |
| `ChatsSlice.ChatsState.AddNewMessage` | store/features/chats/index.ts:61-68 | for the current chat's room: `messages = [m] + old`, the view gains `m` at the bottom, and the total grows by 1 iff it was truthy (not undefined, not 0); for any other room, or no current chat, the whole state is unchanged |
| `ChatsSlice.ChatsState.SetLocalCurrentChat` | store/features/chats/index.ts:69-74 | sets `localCurrentChat`, possibly to null; no other field changes |
| `ChatsSlice.ChatsState.AddNewChat` | store/features/chats/index.ts:75-77 | `chats = [c] + old` with no duplicate check, so the length always grows by one |
| `ChatsSlice.ChatsState.SetFirstChatItem` | store/features/chats/index.ts:78-86 | the new chat list is the promotion of the old one by the current chat; no other field changes |
| `Scenarios.HistoryThenLiveMessage` | store/features/chats/index.ts:115-116 | `setMessages([m1,m2])` then an accepted `addNewMessage(m3)` gives storage `[m3,m1,m2]` and view `[m2,m1,m3]` |
| `Scenarios.PromotionKeepsRecencyOrder` | store/features/chats/index.ts:78-86 | distinct chats stored as `[b,a]` with `a` older: promoting `a` changes storage to `[a,b]`, and the view is `[b,a]` before and after |
| `Scenarios.LiveMessageTotals` | store/features/chats/index.ts:64-66 | an accepted message leaves a total of 0 at 0 and turns a total of 5 into 6 |
| `Scenarios.SwitchChat` | store/features/chats/index.ts:54-57 | after switching chats and resetting, the view is empty, the total undefined, the chat list untouched, and a late message of the old chat is dropped |

## Left out

- Redux Toolkit's `createSlice`, `PayloadAction`, the action creators and the `RootState` wiring (store/features/chats/index.ts:1-2, 29-31, 90-103). Each reducer is modelled as a direct in-place update of the class's fields.
- The selectors `currentChat`, `totalChats`, `totalMessages`, `loadingGetMessages` and `localCurrentChat` (store/features/chats/index.ts:105, 114, 117-121). Each returns one field as is; callers of the model read the field of `ChatsState` directly.
- The copies made by the `chats` and `messages` selectors and Immer's draft proxies. Dafny sequences are values, so aliasing between the store and a view does not arise in the model.
- `new Date(...).getTime()` parsing in the `chats` comparator. `updatedAt` is an integer timestamp, so the NaN produced by an unparsable date is not modelled.
- JavaScript numbers for `totalMessages` and `totalChats`. They are unbounded integers here, so NaN, fractions and loss of precision above 2^53 are not modelled.
- Undefined ids and rooms. Every chat `id` and every message `room` is a defined string in the model. In the code, `state.currentChat?.id === payload.room` (store/features/chats/index.ts:62) is also true when there is no current chat and `room` is undefined, and `findIndex` (store/features/chats/index.ts:79-81) would match a stored chat whose `id` is undefined; the model does not capture those matches.
- The full `ChatType`, `LocalCurrentChatType` and `MessageType` records. Their definitions (`store/types/chats`) are not part of this model; only `id`, `updatedAt` and `room` are modelled, the rest is an opaque string.
- `components/friends/index.tsx`, `pages/index.tsx` and `utilities/plugins-styled/global/index.js`. These are UI, page and style code with no state of the slice.
