/**
 * The feature test scenarios, stated against the feature classes on fresh
 * objects. Each method's postcondition is the exact outcome the tests assert.
 */
module FeatureScenarios {
  import opened Protocol
  import opened DocumentSelectors
  import opened Capabilities
  import opened ClientChannel
  import opened Registration
  import opened TextDocument
  import HoverFeature

  const File := TextDocumentItem("file:///f", "l", "")
  const OtherFile := TextDocumentItem("file:///f2", "l", "")
  const AnyDocument := TextDocumentRegistrationOptions([Wildcard])
  const LanguageL := TextDocumentRegistrationOptions(["l"])

  function NoAnswer(request: Request): Response { Success(None) }

  /** Register 'a', unregister 'a'; register 'a' and 'b', unregister 'b' then 'a': no error. */
  method DynamicRegistrationScenario(kind: LifecycleKind) returns (errors: seq<Option<RegistrationError>>)
    ensures errors == [None, None, None, None, None, None]
  {
    var client := new Client(NoAnswer);
    var feature := new TextDocumentNotificationFeature(kind, client, None);
    var e1 := feature.Register("a", AnyDocument);
    var e2 := feature.Unregister("a");
    feature := new TextDocumentNotificationFeature(kind, client, None);
    var e3 := feature.Register("a", AnyDocument);
    var e4 := feature.Register("b", AnyDocument);
    var e5 := feature.Unregister("b");
    var e6 := feature.Unregister("a");
    errors := [e1, e2, e3, e4, e5, e6];
  }

  /** A second registration under 'a' fails; unregistering 'a' on a fresh feature fails. */
  method RegistrationErrorScenario(kind: LifecycleKind) returns (errors: seq<Option<RegistrationError>>)
    ensures errors == [None, Some(DuplicateRegistration("a")), Some(UnknownRegistration("a"))]
  {
    var client := new Client(NoAnswer);
    var feature := new TextDocumentNotificationFeature(kind, client, None);
    var e1 := feature.Register("a", AnyDocument);
    var e2 := feature.Register("a", AnyDocument);
    feature := new TextDocumentNotificationFeature(kind, client, None);
    var e3 := feature.Unregister("a");
    errors := [e1, e2, e3];
  }

  /** Filling `{}` gives exactly `{textDocument: {synchronization: {dynamicRegistration: true}}}`. */
  method LifecycleCapabilitiesScenario(kind: LifecycleKind)
    returns (workspace: Option<WorkspaceClientCapabilities>, textDocument: Option<TextDocumentClientCapabilities>)
    ensures workspace == None
    ensures textDocument == Some(TextDocumentClientCapabilities(Some(SynchronizationCapabilities(Some(true), None, None, None)), None))
  {
    var client := new Client(NoAnswer);
    var feature := new TextDocumentNotificationFeature(kind, client, None);
    var capabilities := new ClientCapabilities();
    feature.FillClientCapabilities(capabilities);
    workspace, textDocument := capabilities.workspace, capabilities.textDocument;
  }

  /** With ['l'] registered, a document of language 'l' becoming active sends one didOpen with the whole document. */
  method DidOpenScenario() returns (sent: seq<Notification>)
    ensures sent == [Notification("textDocument/didOpen", DidOpenTextDocumentParams(TextDocumentItem("file:///f", "l", "")))]
  {
    var client := new Client(NoAnswer);
    var feature := new TextDocumentNotificationFeature(DidOpen, client, None);
    var _ := feature.Register("a", LanguageL);
    assert Matches(["l"], File);
    feature.OnSnapshot(Some(File));
    sent := client.notifications;
  }

  /**
   * With ['l'] registered: open f, set no document, reopen f, switch to f2.
   * The didClose feature sends, snapshot by snapshot: nothing, a close of
   * f with only its uri, nothing, a close of f.
   */
  method DidCloseScenario() returns (batches: seq<seq<Notification>>)
    ensures batches == [
      [],
      [Notification("textDocument/didClose", DidCloseTextDocumentParams(TextDocumentIdentifier("file:///f")))],
      [],
      [Notification("textDocument/didClose", DidCloseTextDocumentParams(TextDocumentIdentifier("file:///f")))]]
  {
    var client := new Client(NoAnswer);
    var feature := new TextDocumentNotificationFeature(DidClose, client, None);
    var _ := feature.Register("a", LanguageL);
    assert feature.selectors == map["a" := ["l"]];
    assert Matches(["l"], File);
    var before := client.notifications;
    feature.OnSnapshot(Some(File));
    var b1 := client.notifications[|before|..];
    before := client.notifications;
    feature.OnSnapshot(None);
    var b2 := client.notifications[|before|..];
    before := client.notifications;
    feature.OnSnapshot(Some(File));
    var b3 := client.notifications[|before|..];
    before := client.notifications;
    feature.OnSnapshot(Some(OtherFile));
    var b4 := client.notifications[|before|..];
    batches := [b1, b2, b3, b4];
  }

  /**
   * The hover feature advertises itself on `{}`, registers one provider
   * for 'a', and that provider sends the params to the server unchanged
   * and returns its answer.
   */
  method HoverScenario(params: TextDocumentPositionParams, answer: Hover)
    returns (workspace: Option<WorkspaceClientCapabilities>, textDocument: Option<TextDocumentClientCapabilities>,
             requests: seq<Request>, response: Response)
    ensures workspace == None
    ensures textDocument == Some(TextDocumentClientCapabilities(None, Some(HoverCapabilities(Some(true), Some([Markdown, PlainText])))))
    ensures requests == [Request("textDocument/hover", params)]
    ensures response == Success(Some(answer))
  {
    var client := new Client((request: Request) => Success(Some(answer)));
    var registry := new HoverFeature.FeatureProviderRegistry();
    var feature := new HoverFeature.TextDocumentHoverFeature(client, registry);
    var capabilities := new ClientCapabilities();
    feature.FillClientCapabilities(capabilities);
    workspace, textDocument := capabilities.workspace, capabilities.textDocument;
    var _ := feature.Register("a", LanguageL);
    var entry := registry.entries[0];
    response := HoverFeature.Provide(entry.provider, params);
    requests := client.requests;
  }
}
