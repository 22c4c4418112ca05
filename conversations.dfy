/** The conversation list hook (`useConversations`): a cache of the `conversations`
    table, newest first, reloaded in full on every change notification. */
module Conversations {
  import opened Wrappers
  import opened Store

  /** A row of the `conversations` table; `id` and `createdAt` are assigned by the store. */
  datatype Conversation = Conversation(id: string, title: string, createdAt: int)

  /** The fields an update carries; callers only ever pass a title. */
  datatype Patch = Patch(title: Option<string>)

  /** The title `createConversation` uses when called without one. */
  const DefaultTitle := "New Conversation"

  /** The sort key of `order('created_at', { ascending: false })`. */
  function NewestFirst(c: Conversation): int {
    -c.createdAt
  }

  /** The rows the store returns for `select('*').order('created_at', { ascending: false })`:
      all rows of `table`, latest creation time first. */
  function ListNewestFirst(table: seq<Conversation>): (r: seq<Conversation>)
    ensures multiset(r) == multiset(table)
    ensures forall i, j :: 0 <= i < j < |r| ==> r[i].createdAt >= r[j].createdAt
  {
    var r := SortByKey(table, NewestFirst);
    assert forall i, j :: 0 <= i < j < |r| ==> NewestFirst(r[i]) <= NewestFirst(r[j]);
    r
  }

  /** No two different rows of `table` were created at the same time. */
  ghost predicate DistinctCreationTimes(table: seq<Conversation>) {
    forall x, y :: x in table && y in table && x.createdAt == y.createdAt ==> x == y
  }

  /** Reloading against an unchanged table reproduces the list exactly: any two lists that
      hold the table's rows newest first are the same list when creation times differ. */
  lemma ListingIsUnique(table: seq<Conversation>, r1: seq<Conversation>, r2: seq<Conversation>)
    requires DistinctCreationTimes(table)
    requires multiset(r1) == multiset(table) && multiset(r2) == multiset(table)
    requires forall i, j :: 0 <= i < j < |r1| ==> r1[i].createdAt >= r1[j].createdAt
    requires forall i, j :: 0 <= i < j < |r2| ==> r2[i].createdAt >= r2[j].createdAt
    ensures r1 == r2
  {
    assert SortedByKey(r1, NewestFirst) && SortedByKey(r2, NewestFirst);
    forall x, y | x in r1 && y in r1 && NewestFirst(x) == NewestFirst(y) ensures x == y {
      assert x in multiset(table) && y in multiset(table);
    }
    SortedPermutationUnique(r1, r2, NewestFirst);
  }

  /** `{ ...c, ...updates }`. */
  function Merge(c: Conversation, p: Patch): Conversation {
    c.(title := p.title.GetOr(c.title))
  }

  /** `conversations.map(c => c.id === id ? { ...c, ...updates } : c)`. */
  function Patched(cs: seq<Conversation>, id: string, p: Patch): (r: seq<Conversation>)
    ensures |r| == |cs|
    ensures forall i :: 0 <= i < |r| ==> r[i].id == cs[i].id && r[i].createdAt == cs[i].createdAt
    ensures forall i :: 0 <= i < |r| && cs[i].id != id ==> r[i] == cs[i]
    ensures forall i :: 0 <= i < |r| && cs[i].id == id ==> r[i].title == p.title.GetOr(cs[i].title)
  {
    if cs == [] then []
    else [if cs[0].id == id then Merge(cs[0], p) else cs[0]] + Patched(cs[1..], id, p)
  }

  /** Applying the same update a second time changes nothing more. */
  lemma {:induction false} PatchedIdempotent(cs: seq<Conversation>, id: string, p: Patch)
    ensures Patched(Patched(cs, id, p), id, p) == Patched(cs, id, p)
  {
    var once := Patched(cs, id, p);
    var twice := Patched(once, id, p);
    forall i | 0 <= i < |cs| ensures twice[i] == once[i] {
      if cs[i].id == id {
        assert twice[i].title == p.title.GetOr(once[i].title) == once[i].title;
      }
    }
  }

  /** `conversations.filter(c => c.id !== id)`. */
  function Without(cs: seq<Conversation>, id: string): seq<Conversation> {
    if cs == [] then []
    else (if cs[0].id == id then [] else [cs[0]]) + Without(cs[1..], id)
  }

  /** After the filter no entry has the deleted id, and every other entry is still there. */
  lemma {:induction false} WithoutMembers(cs: seq<Conversation>, id: string)
    ensures forall c :: c in Without(cs, id) <==> c in cs && c.id != id
  {
    if cs != [] {
      WithoutMembers(cs[1..], id);
      assert cs == [cs[0]] + cs[1..];
    }
  }

  /** Filtering a list with a first entry `x` decides `x` and filters the rest. */
  lemma WithoutCons(x: Conversation, s: seq<Conversation>, id: string)
    ensures Without([x] + s, id) == (if x.id == id then [] else [x]) + Without(s, id)
  {
    assert ([x] + s)[0] == x && ([x] + s)[1..] == s;
  }

  /** The filter keeps the relative order of what it keeps: filtering a concatenation is
      the concatenation of the filtered parts. */
  lemma {:induction false} WithoutKeepsOrder(a: seq<Conversation>, b: seq<Conversation>, id: string)
    ensures Without(a + b, id) == Without(a, id) + Without(b, id)
  {
    if a == [] {
      assert a + b == b;
    } else {
      var head := if a[0].id == id then [] else [a[0]];
      assert a + b == [a[0]] + (a[1..] + b);
      WithoutCons(a[0], a[1..] + b, id);
      WithoutKeepsOrder(a[1..], b, id);
      assert Without(a, id) == head + Without(a[1..], id);
      assert Without(a + b, id) == head + (Without(a[1..], id) + Without(b, id));
    }
  }

  /** A list with no entry of `id` is left as it is; in particular, deleting the same id
      a second time changes nothing. */
  lemma {:induction false} WithoutAbsent(cs: seq<Conversation>, id: string)
    requires forall c :: c in cs ==> c.id != id
    ensures Without(cs, id) == cs
  {
    if cs != [] {
      WithoutAbsent(cs[1..], id);
    }
  }

  lemma WithoutIdempotent(cs: seq<Conversation>, id: string)
    ensures Without(Without(cs, id), id) == Without(cs, id)
  {
    var r := Without(cs, id);
    WithoutMembers(cs, id);
    WithoutAbsent(r, id);
  }

  /** The state of one `useConversations` hook. */
  class ConversationCache {
    var conversations: seq<Conversation>
    var loading: bool
    var error: Option<string>
    /** Whether the `conversations_changes` channel is held. */
    var subscribed: bool

    /** The initial state of the hook, before its mount effect runs. */
    constructor ()
      ensures conversations == [] && loading && error == None && !subscribed
    {
      conversations, loading, error, subscribed := [], true, None, false;
    }

    /** `loadConversations` resumed with the store's answer: the list is replaced wholesale
        (or kept on failure), and `loading` ends false either way. An earlier `error` is
        never cleared. */
    method Load(answer: Answer<seq<Conversation>>)
      modifies this`conversations, this`loading, this`error
      ensures !loading
      ensures answer.Ok? ==> conversations == answer.data.GetOr([]) && error == old(error)
      ensures answer.Err? ==> conversations == old(conversations) && error == Some(answer.message)
    {
      match answer {
        case Ok(data) =>
          conversations := data.GetOr([]);
        case Err(message) =>
          error := Some(message);
      }
      loading := false;
    }

    /** The mount effect: load, and hold the change channel. */
    method Mount(answer: Answer<seq<Conversation>>)
      modifies this
      ensures subscribed && !loading
      ensures answer.Ok? ==> conversations == answer.data.GetOr([]) && error == old(error)
      ensures answer.Err? ==> conversations == old(conversations) && error == Some(answer.message)
    {
      Load(answer);
      subscribed := true;
    }

    /** The effect cleanup: the channel is removed. */
    method Unmount()
      modifies this`subscribed
      ensures !subscribed
    {
      subscribed := false;
    }

    /** A change notification on the table (insert, update or delete alike): while the
        channel is held, it starts a full reload, resumed here with the reload's answer;
        it never patches the list. */
    method Changed(answer: Answer<seq<Conversation>>)
      modifies this`conversations, this`loading, this`error
      ensures !old(subscribed) ==> conversations == old(conversations) && loading == old(loading) && error == old(error)
      ensures old(subscribed) && answer.Ok? ==> conversations == answer.data.GetOr([]) && !loading && error == old(error)
      ensures old(subscribed) && answer.Err? ==> conversations == old(conversations) && !loading && error == Some(answer.message)
    {
      if subscribed {
        Load(answer);
      }
    }

    /** `createConversation(title)` resumed with the store's answer to the insert. It
        returns the title it asked the store to insert and the row the store returned
        (null on failure); the list itself is left to the change notification. */
    method Create(title: Option<string>, answer: Answer<Conversation>) returns (sent: string, created: Option<Conversation>)
      modifies this`error
      ensures sent == title.GetOr(DefaultTitle)
      ensures answer.Ok? ==> created == answer.data && error == old(error)
      ensures answer.Err? ==> created == None && error == Some(answer.message)
    {
      sent := title.GetOr(DefaultTitle);
      match answer
      case Ok(data) =>
        created := data;
      case Err(message) =>
        error := Some(message);
        created := None;
    }

    /** `updateConversation(id, updates)` resumed with the store's answer: on success the
        cached entries with that id are patched in place, without a reload. */
    method Update(id: string, p: Patch, ack: Ack)
      modifies this`conversations, this`error
      ensures ack.Done? ==> conversations == Patched(old(conversations), id, p) && error == old(error)
      ensures ack.Refused? ==> conversations == old(conversations) && error == Some(ack.message)
    {
      match ack
      case Done =>
        conversations := Patched(conversations, id, p);
      case Refused(message) =>
        error := Some(message);
    }

    /** `deleteConversation(id)` resumed with the store's answer: on success the entries
        with that id leave the cache. */
    method Delete(id: string, ack: Ack)
      modifies this`conversations, this`error
      ensures ack.Done? ==> conversations == Without(old(conversations), id) && error == old(error)
      ensures ack.Refused? ==> conversations == old(conversations) && error == Some(ack.message)
    {
      match ack
      case Done =>
        conversations := Without(conversations, id);
      case Refused(message) =>
        error := Some(message);
    }
  }

  /** Duplicate notifications against an unchanged table leave the same list as a single
      one, and it is the table's rows newest first, each exactly once. */
  method DuplicateNotifications(table: seq<Conversation>) returns (once: seq<Conversation>, twice: seq<Conversation>)
    ensures once == twice
    ensures multiset(twice) == multiset(table)
    ensures forall i, j :: 0 <= i < j < |twice| ==> twice[i].createdAt >= twice[j].createdAt
  {
    var cache := new ConversationCache();
    cache.Mount(Ok(Some(ListNewestFirst(table))));
    cache.Changed(Ok(Some(ListNewestFirst(table))));
    once := cache.conversations;
    cache.Changed(Ok(Some(ListNewestFirst(table))));
    twice := cache.conversations;
  }
}
