/**
 * The client capabilities descriptor sent during the handshake: a nested
 * record of optional sub-records that features fill in place.
 */
module Capabilities {
  import opened Protocol

  datatype SynchronizationCapabilities = SynchronizationCapabilities(
    dynamicRegistration: Option<bool>,
    willSave: Option<bool>,
    willSaveWaitUntil: Option<bool>,
    didSave: Option<bool>)

  datatype HoverCapabilities = HoverCapabilities(
    dynamicRegistration: Option<bool>,
    contentFormat: Option<seq<MarkupKind>>)

  datatype TextDocumentClientCapabilities = TextDocumentClientCapabilities(
    synchronization: Option<SynchronizationCapabilities>,
    hover: Option<HoverCapabilities>)

  datatype WorkspaceClientCapabilities = WorkspaceClientCapabilities(applyEdit: Option<bool>)

  /** The descriptor object that features mutate before it is sent. */
  class ClientCapabilities {
    var workspace: Option<WorkspaceClientCapabilities>
    var textDocument: Option<TextDocumentClientCapabilities>

    /** The empty descriptor `{}`. */
    constructor ()
      ensures workspace == None && textDocument == None
    {
      workspace := None;
      textDocument := None;
    }
  }

  const EmptyTextDocument := TextDocumentClientCapabilities(None, None)
  const EmptySynchronization := SynchronizationCapabilities(None, None, None, None)
  const EmptyHover := HoverCapabilities(None, None)

  /** `ensure(capabilities, 'textDocument')`: the sub-record, created empty when absent. */
  function EnsureTextDocument(o: Option<TextDocumentClientCapabilities>): TextDocumentClientCapabilities
  {
    if o.Some? then o.value else EmptyTextDocument
  }

  /** `ensure(textDocument, 'synchronization')`. */
  function EnsureSynchronization(o: Option<SynchronizationCapabilities>): SynchronizationCapabilities
  {
    if o.Some? then o.value else EmptySynchronization
  }

  /** `ensure(textDocument, 'hover')`. */
  function EnsureHover(o: Option<HoverCapabilities>): HoverCapabilities
  {
    if o.Some? then o.value else EmptyHover
  }

  /**
   * The `textDocument` record after a lifecycle feature advertised dynamic
   * registration for synchronization: that one flag is set, every other
   * entry already present is kept.
   */
  function WithSynchronizationDynamicRegistration(textDocument: Option<TextDocumentClientCapabilities>)
    : (r: TextDocumentClientCapabilities)
    ensures r.synchronization.Some? && r.synchronization.value.dynamicRegistration == Some(true)
    ensures textDocument.Some? && textDocument.value.synchronization.Some? ==>
      var old_ := textDocument.value.synchronization.value;
      var new_ := r.synchronization.value;
      new_.willSave == old_.willSave && new_.willSaveWaitUntil == old_.willSaveWaitUntil && new_.didSave == old_.didSave
    ensures (textDocument.None? || textDocument.value.synchronization.None?) ==>
      r.synchronization == Some(SynchronizationCapabilities(Some(true), None, None, None))
    ensures r.hover == (if textDocument.Some? then textDocument.value.hover else None)
  {
    var td := EnsureTextDocument(textDocument);
    var sync := EnsureSynchronization(td.synchronization);
    td.(synchronization := Some(sync.(dynamicRegistration := Some(true))))
  }

  /**
   * The `textDocument` record after the hover feature advertised itself:
   * dynamic registration and the content formats, Markdown preferred over
   * plain text; the synchronization entry is kept.
   */
  function WithHoverCapabilities(textDocument: Option<TextDocumentClientCapabilities>)
    : (r: TextDocumentClientCapabilities)
    ensures r.hover.Some? && r.hover.value.dynamicRegistration == Some(true)
    ensures r.hover.value.contentFormat == Some([Markdown, PlainText])
    ensures r.synchronization == (if textDocument.Some? then textDocument.value.synchronization else None)
  {
    var td := EnsureTextDocument(textDocument);
    var hover := EnsureHover(td.hover);
    td.(hover := Some(hover.(dynamicRegistration := Some(true), contentFormat := Some([Markdown, PlainText]))))
  }

  /** On the empty descriptor the lifecycle features produce exactly `{synchronization: {dynamicRegistration: true}}`. */
  lemma SynchronizationFillOnEmpty()
    ensures WithSynchronizationDynamicRegistration(None)
         == TextDocumentClientCapabilities(Some(SynchronizationCapabilities(Some(true), None, None, None)), None)
  {
  }

  /** Filling synchronization twice is filling it once. */
  lemma SynchronizationFillIdempotent(textDocument: Option<TextDocumentClientCapabilities>)
    ensures WithSynchronizationDynamicRegistration(Some(WithSynchronizationDynamicRegistration(textDocument)))
         == WithSynchronizationDynamicRegistration(textDocument)
  {
  }

  /** Filling hover twice is filling it once: both writes are plain assignments. */
  lemma HoverFillIdempotent(textDocument: Option<TextDocumentClientCapabilities>)
    ensures WithHoverCapabilities(Some(WithHoverCapabilities(textDocument))) == WithHoverCapabilities(textDocument)
  {
  }
}
