/** The message hook (`useMessages(conversationId)`): a cache of the messages of one
    conversation, oldest first, reloaded in full when that conversation's rows change. */
module Messages {
  import opened Wrappers
  import opened Store

  datatype Role = User | Assistant

  /** A message's `metadata` object; `{}` is `Metadata(None)`. */
  datatype Metadata = Metadata(steps: Option<seq<string>>)

  /** What a caller hands to `addMessage`: `metadata` may be left out. */
  datatype Draft = Draft(role: Role, content: string, metadata: Option<Metadata>)

  /** The row `addMessage` asks the store to insert. */
  datatype NewRow = NewRow(conversationId: Option<string>, role: Role, content: string, metadata: Metadata)

  /** A row of the `messages` table, with the id and timestamp the store assigned. */
  datatype Message = Message(id: string, conversationId: Option<string>, role: Role,
                             content: string, metadata: Metadata, timestamp: int)

  /** A conversation id the source treats as set: JavaScript's `!conversationId` also
      holds for the empty string. */
  predicate Present(id: Option<string>) {
    id.Some? && id.value != ""
  }

  /** The name of the change channel for one conversation's messages. */
  function ChannelName(id: string): string {
    "messages_" + id
  }

  /** The sort key of `order('timestamp', { ascending: true })`. */
  function Timestamp(m: Message): int {
    m.timestamp
  }

  /** The rows of `table` that belong to conversation `q`, in table order. */
  function RowsOf(table: seq<Message>, q: string): seq<Message> {
    if table == [] then []
    else (if table[0].conversationId == Some(q) then [table[0]] else []) + RowsOf(table[1..], q)
  }

  /** Each row of `table` occurs in `RowsOf(table, q)` as often as in `table` when it
      belongs to `q`, and not at all otherwise. */
  lemma {:induction false} RowsOfCounts(table: seq<Message>, q: string)
    ensures forall m :: multiset(RowsOf(table, q))[m] ==
                        if m.conversationId == Some(q) then multiset(table)[m] else 0
  {
    if table != [] {
      RowsOfCounts(table[1..], q);
      assert table == [table[0]] + table[1..];
    }
  }

  /** The rows the store returns for `select('*').eq('conversation_id', q)
      .order('timestamp', { ascending: true })`: the rows of conversation `q`, oldest first. */
  function SelectMessages(table: seq<Message>, q: string): (r: seq<Message>)
    ensures multiset(r) == multiset(RowsOf(table, q))
    ensures forall i, j :: 0 <= i < j < |r| ==> r[i].timestamp <= r[j].timestamp
  {
    var r := SortByKey(RowsOf(table, q), Timestamp);
    assert forall i, j :: 0 <= i < j < |r| ==> Timestamp(r[i]) <= Timestamp(r[j]);
    r
  }

  /** The reload of conversation `q` holds each row of `q` as often as the table does, and
      no row of any other conversation. */
  lemma SelectedRows(table: seq<Message>, q: string)
    ensures forall m :: multiset(SelectMessages(table, q))[m] ==
                        if m.conversationId == Some(q) then multiset(table)[m] else 0
  {
    RowsOfCounts(table, q);
  }

  /** The reload of conversation `q` holds exactly the rows of `q` in the table. */
  lemma SelectedMembers(table: seq<Message>, q: string)
    ensures forall m :: m in SelectMessages(table, q) <==> m in table && m.conversationId == Some(q)
  {
    var r := SelectMessages(table, q);
    SelectedRows(table, q);
    forall m ensures m in r <==> m in table && m.conversationId == Some(q) {
      assert m in r <==> multiset(r)[m] > 0;
      assert m in table <==> multiset(table)[m] > 0;
    }
  }

  /** A row that the store has inserted shows up in the reload of its own conversation and
      in no other. */
  lemma InsertedRowVisibleOnReload(table: seq<Message>, m: Message, q: string)
    ensures m in SelectMessages(table + [m], q) <==> m.conversationId == Some(q)
  {
    SelectedMembers(table + [m], q);
    assert m in table + [m];
  }

  /** The state of one `useMessages` hook. */
  class MessageCache {
    /** The `conversationId` the hook was last rendered with. */
    var scope: Option<string>
    var messages: seq<Message>
    var loading: bool
    var error: Option<string>
    /** The change channels this hook holds, by name. */
    var channels: seq<string>

    /** Channels held: the current conversation's, and only while one is set. */
    ghost predicate Valid()
      reads this
    {
      channels == if Present(scope) then [ChannelName(scope.value)] else []
    }

    /** The initial state of the hook, before its effect first runs. */
    constructor ()
      ensures Valid() && scope == None
      ensures messages == [] && loading && error == None && channels == []
    {
      scope, messages, loading, error, channels := None, [], true, None, [];
    }

    /** `loadMessages` up to its await. Without a conversation it empties the list and
        issues no query; otherwise it sets `loading` and returns the conversation whose
        rows it queries, the list itself being left as it was. */
    method StartLoad() returns (query: Option<string>)
      requires Valid()
      modifies this`messages, this`loading
      ensures Valid()
      ensures !Present(scope) ==> query == None && messages == [] && !loading
      ensures Present(scope) ==> query == scope && messages == old(messages) && loading
    {
      if !Present(scope) {
        messages := [];
        loading := false;
        query := None;
      } else {
        loading := true;
        query := scope;
      }
    }

    /** `loadMessages` resumed with the answer of the query it issued. Nothing compares
        that query with the current scope: a late answer for an earlier conversation is
        applied like any other. */
    method FinishLoad(answer: Answer<seq<Message>>)
      requires Valid()
      modifies this`messages, this`loading, this`error
      ensures Valid()
      ensures !loading
      ensures answer.Ok? ==> messages == answer.data.GetOr([]) && error == old(error)
      ensures answer.Err? ==> messages == old(messages) && error == Some(answer.message)
    {
      match answer {
        case Ok(data) =>
          messages := data.GetOr([]);
        case Err(message) =>
          error := Some(message);
      }
      loading := false;
    }

    /** A render with a different `conversationId`: the effect cleanup removes the old
        channel, then the effect starts a load and, when a conversation is set, subscribes
        to its channel. The list is not cleared while the new load is pending. */
    method SetScope(next: Option<string>) returns (query: Option<string>)
      requires Valid()
      modifies this
      ensures Valid() && scope == next && |channels| <= 1
      ensures error == old(error)
      ensures !Present(next) ==> query == None && messages == [] && !loading && channels == []
      ensures Present(next) ==> query == next && messages == old(messages) && loading
      ensures Present(next) ==> channels == [ChannelName(next.value)]
    {
      // the old channel is removed and the new one, if any, is the only one held
      channels := if Present(next) then [ChannelName(next.value)] else [];
      scope := next;
      query := StartLoad();
    }

    /** A change notification delivered on channel `name`: on the channel this hook holds
        it starts a full reload; removed channels deliver nothing. */
    method Notify(name: string) returns (query: Option<string>)
      requires Valid()
      modifies this`messages, this`loading
      ensures Valid()
      ensures name !in channels ==> query == None && messages == old(messages) && loading == old(loading)
      ensures name in channels ==> query == scope && Present(scope) && name == ChannelName(scope.value)
      ensures name in channels ==> messages == old(messages) && loading
    {
      if name in channels {
        query := StartLoad();
      } else {
        query := None;
      }
    }

    /** `addMessage(draft)` resumed with the store's answer to the insert. It returns the row
        it asked the store to insert, tagged with the current scope and with `metadata`
        defaulting to `{}`, and the row the store returned (null on failure). The cached
        list is not touched: only a reload shows the new message. */
    method AddMessage(draft: Draft, answer: Answer<Message>) returns (sent: NewRow, added: Option<Message>)
      requires Valid()
      modifies this`error
      ensures Valid()
      ensures sent.conversationId == scope && sent.role == draft.role && sent.content == draft.content
      ensures sent.metadata == draft.metadata.GetOr(Metadata(None))
      ensures answer.Ok? ==> added == answer.data && error == old(error)
      ensures answer.Err? ==> added == None && error == Some(answer.message)
    {
      sent := NewRow(scope, draft.role, draft.content, draft.metadata.GetOr(Metadata(None)));
      match answer {
        case Ok(data) =>
          added := data;
        case Err(message) =>
          error := Some(message);
          added := None;
      }
    }
  }

  /** Switching from conversation `a` to `b` while `a`'s load is pending: when `a`'s answer
      arrives after `b`'s, the hook shows `a`'s messages under scope `b`. */
  method StaleScopeLoad(a: string, b: string, table: seq<Message>) returns (shownScope: Option<string>, shown: seq<Message>)
    requires a != "" && b != "" && a != b
    ensures shownScope == Some(b) && shown == SelectMessages(table, a)
  {
    var cache := new MessageCache();
    var first := cache.SetScope(Some(a));
    var second := cache.SetScope(Some(b));
    cache.FinishLoad(Ok(Some(SelectMessages(table, second.value))));
    cache.FinishLoad(Ok(Some(SelectMessages(table, first.value))));
    shownScope, shown := cache.scope, cache.messages;
  }
}
