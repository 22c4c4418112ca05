/** The application shell (`App`): which conversation is active, and the sidebar. */
module App {
  import opened Wrappers
  import opened Store
  import opened Conversations

  /** `conversations.find(c => c.id === activeId)`: the first conversation with that id. */
  function FindById(cs: seq<Conversation>, activeId: Option<string>): (r: Option<Conversation>)
    ensures r.None? <==> forall i :: 0 <= i < |cs| ==> Some(cs[i].id) != activeId
    ensures r.Some? ==> exists i :: 0 <= i < |cs| && cs[i] == r.value && Some(cs[i].id) == activeId
                                    && forall j :: 0 <= j < i ==> Some(cs[j].id) != activeId
  {
    if cs == [] then None
    else if Some(cs[0].id) == activeId then Some(cs[0])
    else
      var r := FindById(cs[1..], activeId);
      assert r.Some? ==> exists i :: 1 <= i < |cs| && cs[i] == r.value && Some(cs[i].id) == activeId
                                     && forall j :: 0 <= j < i ==> Some(cs[j].id) != activeId by {
        if r.Some? {
          var k :| 0 <= k < |cs[1..]| && cs[1..][k] == r.value && Some(cs[1..][k].id) == activeId
                   && forall j :: 0 <= j < k ==> Some(cs[1..][j].id) != activeId;
          assert cs[k + 1] == r.value;
          forall j | 0 <= j < k + 1 ensures Some(cs[j].id) != activeId {
            if j > 0 { assert cs[j] == cs[1..][j - 1]; }
          }
        }
      }
      r
  }

  /** The active id after `deleteConversation(id)` was awaited: unchanged unless the
      active conversation was the one deleted, and then `before[0]?.id || null` over the
      list as it was before the delete. */
  function NextActive(activeId: Option<string>, deleted: string, before: seq<Conversation>): (r: Option<string>)
    ensures activeId != Some(deleted) ==> r == activeId
    ensures activeId == Some(deleted) && (before == [] || before[0].id == "") ==> r == None
    ensures activeId == Some(deleted) && before != [] && before[0].id != "" ==> r == Some(before[0].id)
  {
    if activeId != Some(deleted) then activeId
    else if before != [] && before[0].id != "" then Some(before[0].id)
    else None
  }

  /** Deleting the active conversation when it heads the list re-selects the deleted id:
      after a successful delete the active conversation is then not found. */
  lemma DeletedHeadStaysSelected(deleted: string, before: seq<Conversation>)
    requires deleted != "" && before != [] && before[0].id == deleted
    ensures NextActive(Some(deleted), deleted, before) == Some(deleted)
    ensures FindById(Without(before, deleted), NextActive(Some(deleted), deleted, before)).None?
  {
    WithoutMembers(before, deleted);
  }

  /** When the deleted active conversation is not the head of the list, the new active
      conversation is that head, which the delete kept. */
  lemma ReplacementSurvivesDelete(deleted: string, before: seq<Conversation>)
    requires before != [] && before[0].id != deleted && before[0].id != ""
    ensures FindById(Without(before, deleted), NextActive(Some(deleted), deleted, before)) == Some(before[0])
  {
    assert before == [before[0]] + before[1..];
    WithoutCons(before[0], before[1..], deleted);
  }

  /** The state of the shell. */
  class AppState {
    const conversations: ConversationCache
    var activeId: Option<string>
    var sidebarOpen: bool

    constructor (conversations: ConversationCache)
      ensures this.conversations == conversations && activeId == None && sidebarOpen
    {
      this.conversations := conversations;
      activeId := None;
      sidebarOpen := true;
    }

    /** The conversation shown as active, if the list has it. */
    function ActiveConversation(): Option<Conversation>
      reads this, conversations
    {
      FindById(conversations.conversations, activeId)
    }

    /** `handleCreateConversation` resumed with the store's answer to the insert: a created
        conversation becomes active; a failure (null) leaves the selection alone. */
    method HandleCreate(answer: Answer<Conversation>)
      modifies this`activeId, conversations`error
      ensures answer.Ok? && answer.data.Some? ==> activeId == Some(answer.data.value.id)
      ensures !(answer.Ok? && answer.data.Some?) ==> activeId == old(activeId)
      ensures conversations.conversations == old(conversations.conversations)
      ensures answer.Ok? ==> conversations.error == old(conversations.error)
      ensures answer.Err? ==> conversations.error == Some(answer.message)
    {
      var sent, created := conversations.Create(None, answer);
      if created.Some? {
        activeId := Some(created.value.id);
      }
    }

    /** `handleDeleteConversation(id)` resumed with the store's answer to the delete. The
        selection moves only if the deleted conversation was active, and whether or not the
        delete succeeded; the replacement is read from the list as it was before. */
    method HandleDelete(id: string, ack: Ack)
      modifies this`activeId, conversations`conversations, conversations`error
      ensures activeId == NextActive(old(activeId), id, old(conversations.conversations))
      ensures ack.Done? ==> conversations.conversations == Without(old(conversations.conversations), id)
      ensures ack.Refused? ==> conversations.conversations == old(conversations.conversations)
      ensures ack.Done? ==> conversations.error == old(conversations.error)
      ensures ack.Refused? ==> conversations.error == Some(ack.message)
      ensures (ack.Done? && old(activeId) == Some(id) && id != "" && old(conversations.conversations) != []
               && old(conversations.conversations)[0].id == id)
              ==> ActiveConversation() == None
      ensures (ack.Done? && old(activeId) == Some(id) && old(conversations.conversations) != []
               && old(conversations.conversations)[0].id != id && old(conversations.conversations)[0].id != "")
              ==> ActiveConversation() == Some(old(conversations.conversations)[0])
    {
      var before := conversations.conversations;
      var wasActive := activeId == Some(id);
      conversations.Delete(id, ack);
      activeId := NextActive(activeId, id, before);
      if ack.Done? && wasActive && before != [] {
        if before[0].id == id && id != "" {
          DeletedHeadStaysSelected(id, before);
        } else if before[0].id != id && before[0].id != "" {
          ReplacementSurvivesDelete(id, before);
        }
      }
    }

    /** The sidebar's `onSelectConversation`. */
    method Select(id: string)
      modifies this`activeId
      ensures activeId == Some(id)
    {
      activeId := Some(id);
    }

    /** `setSidebarOpen(!sidebarOpen)`, from the sidebar or the header. */
    method ToggleSidebar()
      modifies this`sidebarOpen
      ensures sidebarOpen == !old(sidebarOpen)
    {
      sidebarOpen := !sidebarOpen;
    }
  }

  /** Toggling the sidebar twice restores it. */
  method ToggleTwice(app: AppState)
    modifies app`sidebarOpen
    ensures app.sidebarOpen == old(app.sidebarOpen)
  {
    app.ToggleSidebar();
    app.ToggleSidebar();
  }
}
