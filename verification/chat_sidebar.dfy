/**
 * The chat sidebars of a case and of a client: the header they show for the
 * entity, the list of its chats with labels and the active one, the load
 * that may jump to the first chat, and the creation of a new chat. The two
 * sidebars are the same code with the scope's strings swapped.
 */
module ChatSidebar {
  import opened Wrappers
  import opened Text
  import opened Scopes
  import CaseDetailPanel

  /** A chat in the list; its title may be absent or null. */
  datatype ChatItem = ChatItem(id: string, title: Option<string>)

  /** `searchParams.get("chatId") || null`: an empty parameter counts as none. */
  function ActiveChatId(param: Option<string>): (r: Option<string>)
    ensures r.None? <==> param.None? || param.value == ""
    ensures r.Some? ==> r == param
  {
    if param.Some? && param.value != "" then param else None
  }

  /** A chat's label: its title when not blank, otherwise `Chat ` and the first six characters of its id. */
  function ChatLabel(c: ChatItem): (shown: string)
    ensures c.title.Some? && !IsBlank(c.title.value) ==> shown == c.title.value
    ensures c.title.None? || IsBlank(c.title.value) ==> shown == "Chat " + Take(c.id, 6)
    ensures !IsBlank(shown)
  {
    if c.title.Some? && Trim(c.title.value) != [] then c.title.value
    else
      var shown := "Chat " + Take(c.id, 6);
      assert !IsSpace(shown[0]);
      shown
  }

  /** A chat is highlighted when its id is the active one. */
  predicate IsActive(c: ChatItem, active: Option<string>)
  {
    active.Some? && c.id == active.value
  }

  /** How many chats of the list are highlighted. */
  function Highlighted(chats: seq<ChatItem>, active: Option<string>): nat
  {
    if chats == [] then 0
    else Highlighted(chats[..|chats| - 1], active) + (if IsActive(chats[|chats| - 1], active) then 1 else 0)
  }

  /**
   * With distinct ids, exactly one chat is highlighted when the active id
   * names a chat of the list, and none otherwise.
   */
  lemma {:induction false} AtMostOneActive(chats: seq<ChatItem>, active: Option<string>)
    requires forall a, b | 0 <= a < b < |chats| :: chats[a].id != chats[b].id
    ensures Highlighted(chats, active)
      == if active.Some? && exists i | 0 <= i < |chats| :: chats[i].id == active.value then 1 else 0
  {
    if chats != [] {
      var init, last := chats[..|chats| - 1], chats[|chats| - 1];
      AtMostOneActive(init, active);
      if IsActive(last, active) {
        forall i | 0 <= i < |init| ensures init[i].id != active.value {
          assert init[i] == chats[i];
        }
      } else {
        if active.Some? && exists i | 0 <= i < |chats| :: chats[i].id == active.value {
          var i :| 0 <= i < |chats| && chats[i].id == active.value;
          assert init[i] == chats[i];
        }
      }
    }
  }

  /** A case as the case endpoint returns it. */
  datatype CaseDto = CaseDto(id: string, title: Option<string>, status: Option<string>, clientId: Option<string>)

  /** A client as the client endpoint returns it. */
  datatype ClientDto = ClientDto(id: string, firstName: string, lastName: string, email: string)

  /** The entity a sidebar loads: a case or a client. */
  datatype Entity = CaseEntity(caseDto: CaseDto) | ClientEntity(client: ClientDto)

  /**
   * `panelCaseData`: what the case sidebar hands to the detail panel. Until
   * a titled case is loaded, the title names the case by an id prefix and
   * the matter is empty; the parties are always empty.
   */
  function PanelCaseData(caseId: string, caseData: Option<CaseDto>): (r: CaseDetailPanel.CaseData)
    ensures r.id == caseId && r.partyA == "" && r.partyB == ""
    ensures caseData.Some? && caseData.value.title.Some? ==>
      r.title == caseData.value.title.value && r.matter == r.title
    ensures caseData.None? || caseData.value.title.None? ==>
      r.title == "Asunto " + Take(caseId, 6) && r.matter == ""
    ensures r.clientName == "Cliente" <==>
      caseData.None? || caseData.value.clientId.None? || caseData.value.clientId.value == ""
    ensures StartsWith(r.clientName, "Cliente")
    ensures r.status == (if caseData.Some? && caseData.value.status.Some? then caseData.value.status.value else "")
  {
    var title := if caseData.Some? && caseData.value.title.Some? then Some(caseData.value.title.value) else None;
    var client := if caseData.Some? && caseData.value.clientId.Some? then caseData.value.clientId.value else "";
    var clientName := if client != "" then "Cliente (" + client + ")" else "Cliente";
    assert clientName[..7] == "Cliente";
    CaseDetailPanel.CaseData(
      caseId,
      if title.Some? then title.value else "Asunto " + Take(caseId, 6),
      clientName,
      if caseData.Some? && caseData.value.status.Some? then caseData.value.status.value else "",
      "", "",
      if title.Some? then title.value else "")
  }

  /**
   * The case sidebar always shows its panel. Until the case has loaded, the
   * panel names the case by an id prefix, the client as `Cliente`, and its
   * status badge is empty, outlined and grey.
   */
  lemma SidebarPanelRenders(caseId: string, caseData: Option<CaseDto>)
    ensures var h := CaseDetailPanel.Render(true, PanelCaseData(caseId, caseData));
      h.Some? && h.value.badge.text == PanelCaseData(caseId, caseData).status
    ensures var h := CaseDetailPanel.Render(true, PanelCaseData(caseId, None));
      && h.Some? && h.value.clientName == "Cliente" && h.value.badge.text == ""
      && h.value.badge.variant == CaseDetailPanel.Outline && h.value.badge.color == CaseDetailPanel.Grey
  {
    assert Lower("") == "";
  }

  /**
   * The client sidebar's `title`: the trimmed full name, or `Cliente ` and an
   * id prefix when no client is loaded or the name is blank.
   */
  function ClientTitle(clientId: string, client: Option<ClientDto>): (t: string)
    ensures client.None? ==> t == "Cliente " + Take(clientId, 6)
    ensures client.Some? && !IsBlank(client.value.firstName + " " + client.value.lastName) ==>
      t == Trim(client.value.firstName + " " + client.value.lastName)
    ensures client.Some? && IsBlank(client.value.firstName + " " + client.value.lastName) ==>
      t == "Cliente " + Take(client.value.id, 6)
    ensures !IsBlank(t)
  {
    if client.None? then
      var t := "Cliente " + Take(clientId, 6);
      assert !IsSpace(t[0]);
      t
    else
      var full := Trim(client.value.firstName + " " + client.value.lastName);
      if full != [] then full
      else
        var t := "Cliente " + Take(client.value.id, 6);
        assert !IsSpace(t[0]);
        t
  }

  /** The path of one entity: `/api/cases/{id}` or `/api/clients/{id}`. */
  function EntityEndpoint(scope: Scope, entityId: string): string
  {
    "/api/" + Collection(scope) + "/" + entityId
  }

  /** The toast of a failed load when what was thrown is not an `Error`. */
  function LoadFailed(scope: Scope): string
  {
    match scope
    case Case => "Error cargando sidebar del caso"
    case Client => "Error cargando sidebar del cliente"
  }

  /** What a failed request throws: an `Error` with its name and message, or another value and its text. */
  datatype Thrown = ErrorObject(name: string, message: string) | OtherValue(text: string)

  /**
   * `String(e)`, by `Error.prototype.toString`: the message alone when the
   * name is empty, the name alone when the message is empty, otherwise the
   * name, `: ` and the message.
   */
  function Describe(e: Thrown): (r: string)
    ensures e.ErrorObject? && e.name == "" ==> r == e.message
    ensures e.ErrorObject? && e.name != "" && e.message == "" ==> r == e.name
    ensures e.ErrorObject? && e.name != "" && e.message != "" ==> r == e.name + ": " + e.message
    ensures e.OtherValue? ==> r == e.text
  {
    match e
    case ErrorObject(name, message) =>
      if name == "" then message else if message == "" then name else name + ": " + message
    case OtherValue(text) => text
  }

  /** The outcome of a request: an ok answer with its parsed body, a non-ok answer, or a throw. */
  datatype Fetched<T> = Ok(value: T) | NotOk | Threw(thrown: Thrown)

  /** A request the sidebar issued. */
  datatype Fetch = Get(url: string) | Post(url: string)

  class Sidebar {
    const scope: Scope
    const entityId: string
    /** The chat named by the page's query, if any. */
    const active: Option<string>
    var loading: bool
    var entity: Option<Entity>
    var chats: seq<ChatItem>
    var fetches: seq<Fetch>
    var toasts: seq<string>
    /** Pages the router was sent to, in order. */
    var navigations: seq<string>

    constructor (scope: Scope, entityId: string, chatIdParam: Option<string>)
      ensures this.scope == scope && this.entityId == entityId && active == ActiveChatId(chatIdParam)
      ensures loading && entity.None? && chats == [] && fetches == [] && toasts == [] && navigations == []
    {
      this.scope, this.entityId, active := scope, entityId, ActiveChatId(chatIdParam);
      loading, entity, chats := true, None, [];
      fetches, toasts, navigations := [], [], [];
    }

    /**
     * The load effect (`run`). Both requests are issued together; if one
     * throws, only the toast is shown. Otherwise each ok answer is stored,
     * and when no chat is active the sidebar jumps to the first chat, all
     * unless the effect was cancelled. `loading` ends false unless cancelled.
     */
    method Load(cancelled: bool, entityRes: Fetched<Entity>, chatsRes: Fetched<seq<ChatItem>>)
      modifies this`loading, this`entity, this`chats, this`fetches, this`toasts, this`navigations
      ensures fetches == old(fetches) + [Get(EntityEndpoint(scope, entityId)), Get(ChatsEndpoint(scope, entityId))]
      ensures loading == cancelled
      ensures entityRes.Threw? || chatsRes.Threw? ==>
        && entity == old(entity) && chats == old(chats) && navigations == old(navigations)
        && var e := if entityRes.Threw? then entityRes.thrown else chatsRes.thrown;
           toasts == old(toasts) + [if e.ErrorObject? then e.message else LoadFailed(scope)]
      ensures !entityRes.Threw? && !chatsRes.Threw? ==>
        && toasts == old(toasts)
        && entity == (if entityRes.Ok? && !cancelled then Some(entityRes.value) else old(entity))
        && chats == (if chatsRes.Ok? && !cancelled then chatsRes.value else old(chats))
      ensures !entityRes.Threw? && chatsRes.Ok? && !cancelled && active.None? && chatsRes.value != [] ==>
        navigations == old(navigations) + [ChatPage(scope, entityId, chatsRes.value[0].id)]
      ensures !(!entityRes.Threw? && chatsRes.Ok? && !cancelled && active.None? && chatsRes.value != []) ==>
        navigations == old(navigations)
    {
      loading := true;
      fetches := fetches + [Get(EntityEndpoint(scope, entityId)), Get(ChatsEndpoint(scope, entityId))];
      if entityRes.Threw? || chatsRes.Threw? {
        var e := if entityRes.Threw? then entityRes.thrown else chatsRes.thrown;
        toasts := toasts + [if e.ErrorObject? then e.message else LoadFailed(scope)];
      } else {
        if entityRes.Ok? && !cancelled {
          entity := Some(entityRes.value);
        }
        if chatsRes.Ok? {
          if !cancelled {
            chats := chatsRes.value;
          }
          if !cancelled && active.None? && |chatsRes.value| > 0 {
            navigations := navigations + [ChatPage(scope, entityId, chatsRes.value[0].id)];
          }
        }
      }
      if !cancelled {
        loading := false;
      }
    }

    /**
     * `createNewChat`, with the click handler's `catch`: a refused creation
     * throws before the list is refreshed or the page changes; after a
     * creation the list is refreshed when that answer is ok and the page
     * moves to the new chat, unless the refresh threw.
     */
    method CreateNewChat(created: Fetched<string>, refresh: Fetched<seq<ChatItem>>)
      modifies this`chats, this`fetches, this`toasts, this`navigations
      ensures !created.Ok? ==>
        && fetches == old(fetches) + [Post(ChatsEndpoint(scope, entityId))]
        && chats == old(chats) && navigations == old(navigations)
        && toasts == old(toasts) + [if created.NotOk? then "Error: " + CreateChatFailed(scope) else Describe(created.thrown)]
      ensures created.Ok? ==>
        && fetches == old(fetches) + [Post(ChatsEndpoint(scope, entityId)), Get(ChatsEndpoint(scope, entityId))]
        && chats == (if refresh.Ok? then refresh.value else old(chats))
      ensures created.Ok? && !refresh.Threw? ==>
        navigations == old(navigations) + [ChatPage(scope, entityId, created.value)] && toasts == old(toasts)
      ensures created.Ok? && refresh.Threw? ==>
        navigations == old(navigations) && toasts == old(toasts) + [Describe(refresh.thrown)]
    {
      fetches := fetches + [Post(ChatsEndpoint(scope, entityId))];
      if created.NotOk? {
        // `String(new Error(message))`
        toasts := toasts + ["Error: " + CreateChatFailed(scope)];
        return;
      } else if created.Threw? {
        toasts := toasts + [Describe(created.thrown)];
        return;
      }
      fetches := fetches + [Get(ChatsEndpoint(scope, entityId))];
      if refresh.Threw? {
        toasts := toasts + [Describe(refresh.thrown)];
        return;
      }
      if refresh.Ok? {
        chats := refresh.value;
      }
      navigations := navigations + [ChatPage(scope, entityId, created.value)];
    }
  }
}
