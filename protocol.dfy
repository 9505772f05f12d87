/**
 * Protocol message shapes used by the client feature layer: documents,
 * notification and request parameters, and the method names of the
 * messages that the features send.
 */
module Protocol {

  datatype Option<+T> = None | Some(value: T)

  datatype Result<+T, +E> = Success(value: T) | Failure(error: E)

  /** Method names of the protocol messages this layer sends. */
  const DidOpenTextDocumentType: string := "textDocument/didOpen"
  const DidCloseTextDocumentType: string := "textDocument/didClose"
  const HoverRequestType: string := "textDocument/hover"

  /** A document as the environment publishes it; its identity is its uri. */
  datatype TextDocumentItem = TextDocumentItem(uri: string, languageId: string, text: string)

  datatype TextDocumentIdentifier = TextDocumentIdentifier(uri: string)

  datatype Position = Position(line: nat, character: nat)

  datatype TextDocumentPositionParams =
    TextDocumentPositionParams(textDocument: TextDocumentIdentifier, position: Position)

  /** The params object of a notification: `{textDocument: item}` or `{textDocument: {uri}}`. */
  datatype NotificationParams =
    | DidOpenTextDocumentParams(item: TextDocumentItem)
    | DidCloseTextDocumentParams(identifier: TextDocumentIdentifier)

  /** One `client.sendNotification(method, params)` call. */
  datatype Notification = Notification(messageType: string, params: NotificationParams)

  /** One `client.sendRequest(method, params)` call. */
  datatype Request = Request(messageType: string, params: TextDocumentPositionParams)

  datatype MarkupKind = PlainText | Markdown

  datatype Hover = Hover(contents: string, kind: MarkupKind)

  datatype ResponseError = ResponseError(code: int, message: string)

  /** What the server answers to a hover request: a hover, nothing, or a failure. */
  type Response = Result<Option<Hover>, ResponseError>

  /** The notification that tells the server a document was opened. */
  function DidOpenNotification(item: TextDocumentItem): Notification
  {
    Notification(DidOpenTextDocumentType, DidOpenTextDocumentParams(item))
  }

  /** The notification that tells the server a document was closed; it carries only the uri. */
  function DidCloseNotification(uri: string): Notification
  {
    Notification(DidCloseTextDocumentType, DidCloseTextDocumentParams(TextDocumentIdentifier(uri)))
  }
}
