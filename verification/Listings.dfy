/** The two paged listings: the conversations of a user and the message history of a conversation. */
module Listings {
  import opened Prelude
  import opened Paging
  import C = ChatDb
  import G = Groups

  // ---- Conversations: last activity first, silent conversations last ----------

  /** A row of the conversation table; ids are compared as the database compares uuids. */
  datatype ConversationRow = ConversationRow(id: C.ConversationId, createdAt: int, conversation: C.Conversation)

  datatype ConversationCursor = ConversationCursor(lastMessageAt: Option<int>, createdAt: int, id: nat)

  function CursorOf(row: ConversationRow): ConversationCursor {
    ConversationCursor(row.conversation.lastMessageAt, row.createdAt, row.id)
  }

  /** lastMessageAt descending, nulls last. */
  predicate MoreRecent(a: Option<int>, b: Option<int>) {
    a.Some? && (b.None? || a.value > b.value)
  }

  /** The order of the listing: lastMessageAt descending with nulls last, createdAt descending, id descending. */
  predicate ListedBefore(a: ConversationCursor, b: ConversationCursor) {
    || MoreRecent(a.lastMessageAt, b.lastMessageAt)
    || (a.lastMessageAt == b.lastMessageAt && a.createdAt > b.createdAt)
    || (a.lastMessageAt == b.lastMessageAt && a.createdAt == b.createdAt && a.id > b.id)
  }

  /** The where clause built from a cursor; a comparison with a null column is never true. */
  predicate ListCursorFilter(cursor: ConversationCursor, row: ConversationRow) {
    var lastMessageAt := row.conversation.lastMessageAt;
    var createdAfterCursor := row.createdAt < cursor.createdAt || (row.createdAt == cursor.createdAt && row.id < cursor.id);
    if cursor.lastMessageAt.None? then lastMessageAt.None? && createdAfterCursor
    else
      || (lastMessageAt.Some? && lastMessageAt.value < cursor.lastMessageAt.value)
      || lastMessageAt.None?
      || (lastMessageAt == cursor.lastMessageAt && createdAfterCursor)
  }

  /** For every cursor, whether or not a row carries it: the filter is "strictly after the cursor". */
  lemma FilterIsAfterCursor(cursor: ConversationCursor, row: ConversationRow)
    ensures ListCursorFilter(cursor, row) <==> ListedBefore(cursor, CursorOf(row))
    ensures var a, b := cursor.lastMessageAt, row.conversation.lastMessageAt;
      ListCursorFilter(cursor, row) <==>
        || (a.Some? && b.Some? && a.value > b.value) || (a.Some? && b.None?)
        || (a == b && (cursor.createdAt > row.createdAt || (cursor.createdAt == row.createdAt && cursor.id > row.id)))
  {
  }

  predicate UniqueIds(rows: seq<ConversationRow>) {
    forall i, j :: 0 <= i < j < |rows| ==> rows[i].id != rows[j].id
  }

  function ConversationOrder(): (ConversationRow, ConversationRow) -> bool {
    (a: ConversationRow, b: ConversationRow) => ListedBefore(CursorOf(a), CursorOf(b))
  }

  function VisibleTo(userId: nat): ConversationRow -> bool {
    (c: ConversationRow) => G.IsActive(c.conversation.members, userId)
  }

  function VisibleAfter(userId: nat, cursor: Option<ConversationCursor>): ConversationRow -> bool {
    (c: ConversationRow) => G.IsActive(c.conversation.members, userId) && (cursor.Some? ==> ListCursorFilter(cursor.value, c))
  }

  lemma ConversationOrderIsTotal(rows: seq<ConversationRow>)
    requires UniqueIds(rows)
    ensures StrictOrder(ConversationOrder()) && Distinct(rows) && TotalOn(ConversationOrder(), rows)
  {
    forall x, y | x in rows && y in rows && x != y ensures ConversationOrder()(x, y) || ConversationOrder()(y, x) {
      var i :| 0 <= i < |rows| && rows[i] == x;
      var j :| 0 <= j < |rows| && rows[j] == y;
      assert x.id != y.id;
    }
  }

  function ConversationListing(rows: seq<ConversationRow>, userId: nat): seq<ConversationRow> {
    OrderBy(ConversationOrder(), Filter(rows, VisibleTo(userId)))
  }

  /** The rows of a page, said in terms of the order: visible, and strictly after the cursor if there is one. */
  ghost function StrictlyAfter(userId: nat, cursor: Option<ConversationCursor>): ConversationRow -> bool {
    (c: ConversationRow) => G.IsActive(c.conversation.members, userId) && (cursor.Some? ==> ListedBefore(cursor.value, CursorOf(c)))
  }

  lemma PageAfterCursor(rows: seq<ConversationRow>, userId: nat, cursor: Option<ConversationCursor>, limit: nat)
    requires UniqueIds(rows)
    ensures var got := Query(ConversationOrder(), rows, VisibleAfter(userId, cursor), limit + 1);
      IsPage(ConversationOrder(), rows, StrictlyAfter(userId, cursor), limit, Take(got, limit), |got| > limit)
  {
    hide ConversationOrder, Query, Take, ListedBefore, ListCursorFilter;
    ConversationOrderIsTotal(rows);
    QueryIsPage(ConversationOrder(), rows, VisibleAfter(userId, cursor), limit);
    forall c ensures VisibleAfter(userId, cursor)(c) == StrictlyAfter(userId, cursor)(c) {
      if cursor.Some? { FilterIsAfterCursor(cursor.value, c); }
    }
    SamePage(ConversationOrder(), rows, VisibleAfter(userId, cursor), StrictlyAfter(userId, cursor), limit);
  }

  /** One page: asks for one row more than it shows to learn whether there is a next page. */
  method ListConversations(rows: seq<ConversationRow>, userId: nat, cursor: Option<ConversationCursor>, limit: nat)
    returns (items: seq<ConversationRow>, nextCursor: Option<ConversationCursor>)
    requires limit >= 1 && UniqueIds(rows)
    ensures var records := Query(ConversationOrder(), rows, VisibleAfter(userId, cursor), limit + 1);
      && items == Take(records, limit)
      && nextCursor == if |records| > limit then Some(CursorOf(records[limit - 1])) else None
    ensures IsPage(ConversationOrder(), rows, StrictlyAfter(userId, cursor), limit, items, nextCursor.Some?)
    ensures nextCursor.Some? ==> items != [] && nextCursor.value == CursorOf(items[|items| - 1])
  {
    hide ConversationOrder, VisibleAfter, StrictlyAfter, Query, IsPage, UniqueIds;
    PageAfterCursor(rows, userId, cursor, limit);
    var records := Query(ConversationOrder(), rows, VisibleAfter(userId, cursor), limit + 1);
    var hasNextPage := |records| > limit;
    items := Take(records, limit);
    nextCursor := if hasNextPage then Some(CursorOf(items[|items| - 1])) else None;
  }

  /** The cursor that stands for "after the first k rows". */
  predicate CursorAfter(list: seq<ConversationRow>, k: nat, cursor: Option<ConversationCursor>) {
    k <= |list| && (k == 0 ==> cursor.None?) && (k > 0 ==> cursor == Some(CursorOf(list[k - 1])))
  }

  /** The page that starts after the first k rows of the listing. */
  lemma ConversationPage(rows: seq<ConversationRow>, userId: nat, cursor: Option<ConversationCursor>, limit: nat, k: nat)
    requires limit >= 1 && UniqueIds(rows)
    requires CursorAfter(ConversationListing(rows, userId), k, cursor)
    ensures Query(ConversationOrder(), rows, VisibleAfter(userId, cursor), limit + 1)
      == Take(ConversationListing(rows, userId)[k..], limit + 1)
  {
    hide ListCursorFilter, ListedBefore, OrderBy, Filter;
    var order, list := ConversationOrder(), ConversationListing(rows, userId);
    ConversationOrderIsTotal(rows);
    QueryLists(order, rows, VisibleTo(userId));
    if k == 0 {
      assert list[0..] == list;
      assert IsListing(order, rows, VisibleAfter(userId, cursor), list);
      QueryFirst(order, rows, VisibleAfter(userId, cursor), list, limit + 1);
    } else {
      forall c ensures VisibleAfter(userId, cursor)(c) <==> VisibleTo(userId)(c) && order(list[k - 1], c) {
        FilterIsAfterCursor(cursor.value, c);
      }
      QueryAfter(order, rows, VisibleTo(userId), list, k, VisibleAfter(userId, cursor), limit + 1);
    }
  }

  /** Following nextCursor from the first page, with any limit, ends and yields the simple listing: every
      visible conversation exactly once, in order. */
  method FollowConversations(rows: seq<ConversationRow>, userId: nat, limit: nat) returns (all: seq<ConversationRow>)
    requires limit >= 1 && UniqueIds(rows)
    ensures all == ConversationListing(rows, userId)
    ensures IsListing(ConversationOrder(), rows, VisibleTo(userId), all)
  {
    hide ConversationOrder, VisibleTo, VisibleAfter, Query, OrderBy, Filter, IsListing, IsPage;
    ghost var list := ConversationListing(rows, userId);
    ConversationOrderIsTotal(rows);
    QueryLists(ConversationOrder(), rows, VisibleTo(userId));
    ConversationPage(rows, userId, None, limit, 0);
    PageOfListing(list, 0, limit);
    var cursor: Option<ConversationCursor>;
    all, cursor := ListConversations(rows, userId, None, limit);
    while cursor.Some?
      invariant |all| <= |list| && all == list[..|all|]
      invariant if cursor.Some? then 0 < |all| < |list| && cursor == Some(CursorOf(list[|all| - 1])) else |all| == |list|
      decreases |list| - |all|, cursor.Some?
    {
      ConversationPage(rows, userId, cursor, limit, |all|);
      var items;
      items, cursor := ListConversations(rows, userId, cursor, limit);
      all := all + items;
    }
  }

  // ---- Messages: newest first in the query, oldest first on the page -----------

  /** A row of the message table. */
  datatype MessageRow = MessageRow(id: C.MessageId, message: C.Message)

  datatype HistoryCursor = HistoryCursor(createdAt: int, id: nat)

  function HistoryCursorOf(m: MessageRow): HistoryCursor {
    HistoryCursor(m.message.createdAt, m.id)
  }

  predicate BeforeCursor(cursor: HistoryCursor, m: MessageRow) {
    m.message.createdAt < cursor.createdAt || (m.message.createdAt == cursor.createdAt && m.id < cursor.id)
  }

  function NewestFirst(): (MessageRow, MessageRow) -> bool {
    (a: MessageRow, b: MessageRow) => BeforeCursor(HistoryCursorOf(a), b)
  }

  /** The order in which the messages were sent. */
  function OldestFirst(): (MessageRow, MessageRow) -> bool {
    (a: MessageRow, b: MessageRow) => BeforeCursor(HistoryCursorOf(b), a)
  }

  predicate UniqueMessageIds(rows: seq<MessageRow>) {
    forall i, j :: 0 <= i < j < |rows| ==> rows[i].id != rows[j].id
  }

  lemma DifferentIds(rows: seq<ConversationRow>, messages: seq<MessageRow>)
    ensures (forall i, j :: 0 <= i < j < |rows| ==> rows[i].id != rows[j].id) <==> UniqueIds(rows)
    ensures (forall i, j :: 0 <= i < j < |messages| ==> messages[i].id != messages[j].id) <==> UniqueMessageIds(messages)
  {
  }

  function InConversation(conversationId: nat): MessageRow -> bool {
    (m: MessageRow) => m.message.conversation == conversationId
  }

  function HistoryBefore(conversationId: nat, before: Option<HistoryCursor>): MessageRow -> bool {
    (m: MessageRow) => m.message.conversation == conversationId && (before.Some? ==> BeforeCursor(before.value, m))
  }

  function Reverse<T>(s: seq<T>): (r: seq<T>)
    ensures |r| == |s| && forall i :: 0 <= i < |s| ==> r[i] == s[|s| - 1 - i]
  {
    seq(|s|, i requires 0 <= i < |s| => s[|s| - 1 - i])
  }

  lemma ReverseConcat<T>(a: seq<T>, b: seq<T>)
    ensures Reverse(a + b) == Reverse(b) + Reverse(a)
  {
  }

  lemma ReverseTwice<T>(s: seq<T>)
    ensures Reverse(Reverse(s)) == s
  {
  }

  function History(rows: seq<MessageRow>, conversationId: nat): seq<MessageRow> {
    OrderBy(NewestFirst(), Filter(rows, InConversation(conversationId)))
  }

  lemma NewestFirstIsTotal(rows: seq<MessageRow>)
    requires UniqueMessageIds(rows)
    ensures StrictOrder(NewestFirst()) && Distinct(rows) && TotalOn(NewestFirst(), rows)
  {
    forall x, y | x in rows && y in rows && x != y ensures NewestFirst()(x, y) || NewestFirst()(y, x) {
      var i :| 0 <= i < |rows| && rows[i] == x;
      var j :| 0 <= j < |rows| && rows[j] == y;
      assert x.id != y.id by { assert i < j || j < i; }
      assert BeforeCursor(HistoryCursorOf(x), y) || BeforeCursor(HistoryCursorOf(y), x);
    }
  }

  lemma PageBefore(rows: seq<MessageRow>, conversationId: nat, before: Option<HistoryCursor>, limit: nat)
    requires UniqueMessageIds(rows)
    ensures var got := Query(NewestFirst(), rows, HistoryBefore(conversationId, before), limit + 1);
      && IsPage(NewestFirst(), rows, HistoryBefore(conversationId, before), limit, Reverse(Reverse(Take(got, limit))), |got| > limit)
      && (got != [] && limit >= 1 ==> Reverse(Take(got, limit))[0] == Take(got, limit)[|Take(got, limit)| - 1])
  {
    hide NewestFirst, HistoryBefore, Query, IsPage, UniqueMessageIds;
    NewestFirstIsTotal(rows);
    QueryIsPage(NewestFirst(), rows, HistoryBefore(conversationId, before), limit);
    ReverseTwice(Take(Query(NewestFirst(), rows, HistoryBefore(conversationId, before), limit + 1), limit));
  }

  /** One page of history, oldest message first; the cursor names the oldest message shown. */
  method ListMessages(rows: seq<MessageRow>, conversationId: nat, before: Option<HistoryCursor>, limit: nat)
    returns (items: seq<MessageRow>, nextCursor: Option<HistoryCursor>)
    requires limit >= 1 && UniqueMessageIds(rows)
    ensures var records := Query(NewestFirst(), rows, HistoryBefore(conversationId, before), limit + 1);
      && items == Reverse(Take(records, limit))
      && nextCursor == if |records| > limit then Some(HistoryCursorOf(records[limit - 1])) else None
    ensures IsPage(NewestFirst(), rows, HistoryBefore(conversationId, before), limit, Reverse(items), nextCursor.Some?)
    ensures nextCursor.Some? ==> items != [] && nextCursor.value == HistoryCursorOf(items[0])
  {
    hide NewestFirst, HistoryBefore, Query, IsPage, Reverse;
    PageBefore(rows, conversationId, before, limit);
    var records := Query(NewestFirst(), rows, HistoryBefore(conversationId, before), limit + 1);
    var hasNextPage := |records| > limit;
    var descendingPage := Take(records, limit);
    items := Reverse(descendingPage);
    nextCursor := if hasNextPage then Some(HistoryCursorOf(descendingPage[|descendingPage| - 1])) else None;
  }

  predicate HistoryCursorAfter(list: seq<MessageRow>, k: nat, cursor: Option<HistoryCursor>) {
    k <= |list| && (k == 0 ==> cursor.None?) && (k > 0 ==> cursor == Some(HistoryCursorOf(list[k - 1])))
  }

  lemma HistoryPage(rows: seq<MessageRow>, conversationId: nat, before: Option<HistoryCursor>, limit: nat, k: nat)
    requires limit >= 1 && UniqueMessageIds(rows)
    requires HistoryCursorAfter(History(rows, conversationId), k, before)
    ensures Query(NewestFirst(), rows, HistoryBefore(conversationId, before), limit + 1)
      == Take(History(rows, conversationId)[k..], limit + 1)
  {
    hide OrderBy, Filter;
    var order, list := NewestFirst(), History(rows, conversationId);
    NewestFirstIsTotal(rows);
    QueryLists(order, rows, InConversation(conversationId));
    if k == 0 {
      assert list[0..] == list;
      assert IsListing(order, rows, HistoryBefore(conversationId, before), list);
      QueryFirst(order, rows, HistoryBefore(conversationId, before), list, limit + 1);
    } else {
      QueryAfter(order, rows, InConversation(conversationId), list, k, HistoryBefore(conversationId, before), limit + 1);
    }
  }

  lemma ReversedIsListing(rows: seq<MessageRow>, conversationId: nat, list: seq<MessageRow>)
    requires IsListing(NewestFirst(), rows, InConversation(conversationId), list)
    ensures IsListing(OldestFirst(), rows, InConversation(conversationId), Reverse(list))
  {
    var r := Reverse(list);
    forall x ensures x in r <==> x in list {
      if x in list {
        var i :| 0 <= i < |list| && list[i] == x;
        assert r[|list| - 1 - i] == x;
      }
    }
  }

  /** A page that starts after the first k rows, put in front of those k. */
  lemma InFront(list: seq<MessageRow>, k: nat, limit: nat)
    requires limit >= 1 && k <= |list|
    ensures var got := Take(list[k..], limit + 1); var next := k + |Take(got, limit)|;
      && next <= |list| && Reverse(list[..next]) == Reverse(Take(got, limit)) + Reverse(list[..k])
      && (|got| > limit <==> next < |list|) && (|got| > limit ==> next > k && got[limit - 1] == list[next - 1])
      && (k < |list| ==> next > k)
  {
    hide Reverse;
    PageOfListing(list, k, limit);
    var next := k + |Take(Take(list[k..], limit + 1), limit)|;
    assert list[..next] == list[..k] + list[k..next];
    ReverseConcat(list[..k], list[k..next]);
  }

  /** The page after the first k messages of the history. */
  lemma OlderPage(rows: seq<MessageRow>, conversationId: nat, cursor: Option<HistoryCursor>, limit: nat, k: nat)
    requires limit >= 1 && UniqueMessageIds(rows) && HistoryCursorAfter(History(rows, conversationId), k, cursor)
    ensures var list, got := History(rows, conversationId), Query(NewestFirst(), rows, HistoryBefore(conversationId, cursor), limit + 1);
      var next := k + |Take(got, limit)|;
      && next <= |list| && Reverse(list[..next]) == Reverse(Take(got, limit)) + Reverse(list[..k])
      && (|got| > limit <==> next < |list|) && (|got| > limit ==> next > k && got[limit - 1] == list[next - 1])
      && (k < |list| ==> next > k)
  {
    hide NewestFirst, HistoryBefore, Query, Reverse, History, Take, UniqueMessageIds;
    HistoryPage(rows, conversationId, cursor, limit, k);
    InFront(History(rows, conversationId), k, limit);
  }

  /** Scrolling back to the beginning, each page put in front of what is already shown, rebuilds the log:
      every message of the conversation exactly once, oldest first. */
  method ScrollBack(rows: seq<MessageRow>, conversationId: nat, limit: nat) returns (log: seq<MessageRow>)
    requires limit >= 1 && UniqueMessageIds(rows)
    ensures IsListing(OldestFirst(), rows, InConversation(conversationId), log)
  {
    hide NewestFirst, OldestFirst, InConversation, HistoryBefore, Query, OrderBy, Filter, IsListing, IsPage, Reverse, History, Take;
    ghost var list := History(rows, conversationId);
    OlderPage(rows, conversationId, None, limit, 0);
    NothingShown(list);
    var cursor: Option<HistoryCursor>;
    log, cursor := ListMessages(rows, conversationId, None, limit);
    while cursor.Some?
      invariant |log| <= |list| && log == Reverse(list[..|log|])
      invariant if cursor.Some? then 0 < |log| < |list| && cursor == Some(HistoryCursorOf(list[|log| - 1])) else |log| == |list|
      decreases |list| - |log|, cursor.Some?
    {
      OlderPage(rows, conversationId, cursor, limit, |log|);
      var items;
      items, cursor := ListMessages(rows, conversationId, cursor, limit);
      log := items + log;
    }
    assert list[..|log|] == list;
    HistoryIsListing(rows, conversationId);
    ReversedIsListing(rows, conversationId, list);
  }

  lemma NothingShown(list: seq<MessageRow>)
    ensures Reverse(list[..0]) == []
  {
  }

  lemma HistoryIsListing(rows: seq<MessageRow>, conversationId: nat)
    requires UniqueMessageIds(rows)
    ensures IsListing(NewestFirst(), rows, InConversation(conversationId), History(rows, conversationId))
  {
    NewestFirstIsTotal(rows);
    QueryLists(NewestFirst(), rows, InConversation(conversationId));
  }

  // ---- The listings, spelled out ----------------------------------------------------

  /** `a` stands before `b`: more recently active, silent ones last; then created later; then with the larger id. */
  ghost predicate MoreActive(a: ConversationRow, b: ConversationRow) {
    var x, y := a.conversation.lastMessageAt, b.conversation.lastMessageAt;
    || (x.Some? && (y.None? || x.value > y.value))
    || (x == y && (a.createdAt > b.createdAt || (a.createdAt == b.createdAt && a.id > b.id)))
  }

  /** What following the cursors yields: the conversations of which the user is a current member, the most active first. */
  lemma ConversationListingIs(rows: seq<ConversationRow>, userId: nat)
    requires forall i, j :: 0 <= i < j < |rows| ==> rows[i].id != rows[j].id
    ensures var list := ConversationListing(rows, userId);
      && (forall i, j :: 0 <= i < j < |list| ==> MoreActive(list[i], list[j]))
      && forall c :: c in list <==>
           c in rows && userId in c.conversation.members && c.conversation.members[userId].leftAt.None?
  {
    ConversationOrderIsTotal(rows);
    QueryLists(ConversationOrder(), rows, VisibleTo(userId));
    var list := ConversationListing(rows, userId);
    forall i, j | 0 <= i < j < |list| ensures MoreActive(list[i], list[j]) { assert ConversationOrder()(list[i], list[j]); }
    forall c ensures c in list <==> c in rows && userId in c.conversation.members && c.conversation.members[userId].leftAt.None? {
      assert VisibleTo(userId)(c) <==> userId in c.conversation.members && c.conversation.members[userId].leftAt.None?;
    }
  }

  /** What scrolling back yields: the messages of the conversation, the oldest first, those of one instant by id. */
  lemma LogIs(rows: seq<MessageRow>, conversationId: nat, log: seq<MessageRow>)
    requires IsListing(OldestFirst(), rows, InConversation(conversationId), log)
    ensures forall i, j :: 0 <= i < j < |log| ==>
      log[i].message.createdAt < log[j].message.createdAt
      || (log[i].message.createdAt == log[j].message.createdAt && log[i].id < log[j].id)
    ensures forall m :: m in log <==> m in rows && m.message.conversation == conversationId
  {
    forall i, j | 0 <= i < j < |log|
      ensures log[i].message.createdAt < log[j].message.createdAt
        || (log[i].message.createdAt == log[j].message.createdAt && log[i].id < log[j].id)
    {
      assert OldestFirst()(log[i], log[j]);
    }
    forall m ensures m in log <==> m in rows && m.message.conversation == conversationId {
      assert InConversation(conversationId)(m) <==> m.message.conversation == conversationId;
    }
  }
}
