/**
 * The two places a chat can be bound to, a case or a client, and the paths
 * and messages that differ between them. The case and client chat areas and
 * sidebars are the same code with these strings swapped.
 */
module Scopes {

  datatype Scope = Case | Client

  /** The collection segment of the scope's URLs. */
  function Collection(scope: Scope): string
  {
    match scope
    case Case => "cases"
    case Client => "clients"
  }

  /** `/api/{cases|clients}/{id}/chats`: list chats (GET) and create one (POST). */
  function ChatsEndpoint(scope: Scope, entityId: string): string
  {
    "/api/" + Collection(scope) + "/" + entityId + "/chats"
  }

  /** `/{cases|clients}/{id}?chatId={chatId}`: the page that shows one chat of the entity. */
  function ChatPage(scope: Scope, entityId: string, chatId: string): string
  {
    "/" + Collection(scope) + "/" + entityId + "?chatId=" + chatId
  }

  /** The message thrown when the server refuses to create a chat. */
  function CreateChatFailed(scope: Scope): string
  {
    match scope
    case Case => "No se pudo crear el chat del caso"
    case Client => "No se pudo crear el chat del cliente"
  }

  /** Distinct scopes never share a chats endpoint, whatever the entity ids. */
  lemma EndpointsSeparateScopes(a: string, b: string)
    ensures ChatsEndpoint(Case, a) != ChatsEndpoint(Client, b)
  {
    var x, y := ChatsEndpoint(Case, a), ChatsEndpoint(Client, b);
    assert x[5..7] == "ca" && y[5..7] == "cl";
  }
}
