/**
 * The text-document lifecycle features (didOpen and didClose). Each one
 * keeps the selectors of its active registrations, remembers the document
 * of the last environment snapshot it saw, and, on each new snapshot,
 * tells the server about the document that became or stopped being
 * active when that document matches a registered selector.
 */
module TextDocument {
  import opened Protocol
  import opened DocumentSelectors
  import opened Capabilities
  import opened ClientChannel
  import Registration

  /** The two concrete lifecycle features; each shares the same bookkeeping. */
  datatype LifecycleKind = DidOpen | DidClose

  /** The `messages` constant of a lifecycle feature. */
  function MessagesOf(kind: LifecycleKind): string
  {
    match kind
    case DidOpen => DidOpenTextDocumentType
    case DidClose => DidCloseTextDocumentType
  }

  /** Both snapshots hold a document and it is the same one (same uri). */
  predicate SameDocument(previous: Option<TextDocumentItem>, next: Option<TextDocumentItem>)
  {
    previous.Some? && next.Some? && previous.value.uri == next.value.uri
  }

  /**
   * What the didOpen feature sends when the active document goes from
   * `previous` to `next`: one open, with the full document, when a new
   * document became active and matches a registered selector.
   */
  function OpenNotifications(selectors: map<string, DocumentSelector>,
                             previous: Option<TextDocumentItem>, next: Option<TextDocumentItem>)
    : (r: seq<Notification>)
    ensures |r| <= 1
    ensures r != [] <==> next.Some? && !SameDocument(previous, next) && MatchesAny(selectors, next.value)
    ensures r != [] ==> r[0] == DidOpenNotification(next.value)
  {
    if next.Some? && !SameDocument(previous, next) && MatchesAny(selectors, next.value)
    then [DidOpenNotification(next.value)]
    else []
  }

  /**
   * What the didClose feature sends when the active document goes from
   * `previous` to `next`: one close, carrying only the uri of the previous
   * document, when that document stopped being active and matches a
   * registered selector.
   */
  function CloseNotifications(selectors: map<string, DocumentSelector>,
                              previous: Option<TextDocumentItem>, next: Option<TextDocumentItem>)
    : (r: seq<Notification>)
    ensures |r| <= 1
    ensures r != [] <==> previous.Some? && !SameDocument(previous, next) && MatchesAny(selectors, previous.value)
    ensures r != [] ==> r[0] == DidCloseNotification(previous.value.uri)
  {
    if previous.Some? && !SameDocument(previous, next) && MatchesAny(selectors, previous.value)
    then [DidCloseNotification(previous.value.uri)]
    else []
  }

  function Transition(kind: LifecycleKind, selectors: map<string, DocumentSelector>,
                      previous: Option<TextDocumentItem>, next: Option<TextDocumentItem>)
    : seq<Notification>
  {
    match kind
    case DidOpen => OpenNotifications(selectors, previous, next)
    case DidClose => CloseNotifications(selectors, previous, next)
  }

  /**
   * What registering `selector` sends: the didOpen feature opens the active
   * document at once when the new selector matches it and no earlier
   * selector did (so the server never sees it opened twice); the didClose
   * feature sends nothing.
   */
  function RegistrationNotifications(kind: LifecycleKind, selectors: map<string, DocumentSelector>,
                                     active: Option<TextDocumentItem>, selector: DocumentSelector)
    : (r: seq<Notification>)
    ensures |r| <= 1
    ensures r != [] <==>
      kind.DidOpen? && active.Some? && Matches(selector, active.value) && !MatchesAny(selectors, active.value)
    ensures r != [] ==> r[0] == DidOpenNotification(active.value)
  {
    if kind.DidOpen? && active.Some? && Matches(selector, active.value) && !MatchesAny(selectors, active.value)
    then [DidOpenNotification(active.value)]
    else []
  }

  class TextDocumentNotificationFeature {
    const kind: LifecycleKind
    /** The protocol message this feature handles. */
    const messages: string
    const client: Client
    /** Registration id to document selector, one entry per active registration. */
    var selectors: map<string, DocumentSelector>
    /** The document of the last environment snapshot seen (None: no document). */
    var active: Option<TextDocumentItem>

    /** A feature observing an environment whose current snapshot holds `environment`. */
    constructor (kind: LifecycleKind, client: Client, environment: Option<TextDocumentItem>)
      ensures this.kind == kind && this.client == client && messages == MessagesOf(kind)
      ensures selectors == map[] && active == environment
    {
      this.kind := kind;
      this.client := client;
      messages := MessagesOf(kind);
      selectors := map[];
      active := environment;
    }

    /** Advertises dynamic registration for text document synchronization. */
    method FillClientCapabilities(capabilities: ClientCapabilities)
      modifies capabilities
      ensures capabilities.textDocument == Some(WithSynchronizationDynamicRegistration(old(capabilities.textDocument)))
      ensures capabilities.workspace == old(capabilities.workspace)
    {
      var textDocument := EnsureTextDocument(capabilities.textDocument);
      var synchronization := EnsureSynchronization(textDocument.synchronization);
      synchronization := synchronization.(dynamicRegistration := Some(true));
      capabilities.textDocument := Some(textDocument.(synchronization := Some(synchronization)));
    }

    /**
     * Adds a registration. A duplicate id is refused with nothing changed
     * and nothing sent.
     */
    method Register(id: string, registerOptions: TextDocumentRegistrationOptions)
      returns (error: Option<Registration.RegistrationError>)
      modifies this, client
      ensures error.Some? <==> id in old(selectors)
      ensures error.Some? ==>
        && Registration.Register(old(selectors), id, registerOptions.documentSelector) == Failure(error.value)
        && selectors == old(selectors)
        && client.notifications == old(client.notifications)
      ensures error.None? ==>
        && Registration.Register(old(selectors), id, registerOptions.documentSelector) == Success(selectors)
        && client.notifications == old(client.notifications)
             + RegistrationNotifications(kind, old(selectors), active, registerOptions.documentSelector)
      ensures active == old(active) && client.requests == old(client.requests)
    {
      if id in selectors {
        return Some(Registration.DuplicateRegistration(id));
      }
      var selector := registerOptions.documentSelector;
      var alreadyMatched := active.Some? && MatchesAny(selectors, active.value);
      selectors := selectors[id := selector];
      error := None;
      if kind.DidOpen? && active.Some? && Matches(selector, active.value) && !alreadyMatched {
        client.SendNotification(DidOpenNotification(active.value));
      }
    }

    /**
     * Removes a registration; an unknown id is refused with nothing
     * changed. Nothing is sent either way.
     */
    method Unregister(id: string) returns (error: Option<Registration.RegistrationError>)
      modifies this
      ensures error.Some? <==> id !in old(selectors)
      ensures error.Some? ==>
        Registration.Unregister(old(selectors), id) == Failure(error.value) && selectors == old(selectors)
      ensures error.None? ==> Registration.Unregister(old(selectors), id) == Success(selectors)
      ensures active == old(active)
    {
      if id !in selectors {
        return Some(Registration.UnknownRegistration(id));
      }
      selectors := selectors - {id};
      error := None;
    }

    /** Observes the next environment snapshot, whose active document is `next`. */
    method OnSnapshot(next: Option<TextDocumentItem>)
      modifies this, client
      ensures client.notifications == old(client.notifications) + Transition(kind, selectors, old(active), next)
      ensures client.requests == old(client.requests)
      ensures active == next && selectors == old(selectors)
    {
      if kind.DidOpen? {
        if next.Some? && !SameDocument(active, next) && MatchesAny(selectors, next.value) {
          client.SendNotification(DidOpenNotification(next.value));
        }
      } else {
        if active.Some? && !SameDocument(active, next) && MatchesAny(selectors, active.value) {
          client.SendNotification(DidCloseNotification(active.value.uri));
        }
      }
      active := next;
    }
  }
}
