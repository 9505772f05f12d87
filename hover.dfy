/**
 * The hover request feature. It advertises hover support in the client
 * capabilities and, for each registration, hands the provider registry a
 * provider that forwards hover requests to the server.
 */
module HoverFeature {
  import opened Protocol
  import opened DocumentSelectors
  import opened Capabilities
  import opened ClientChannel
  import Registration

  /** What the registry returns for a provider; disposing it removes the provider. */
  datatype Disposer = Disposer(handle: nat)

  /**
   * The provider closure `params => client.sendRequest(HoverRequest.type, params)`,
   * kept as the client it forwards to.
   */
  datatype HoverProvider = ForwardHoverRequest(client: Client)

  /** Calls the provider: the params go to the server unchanged and its answer comes back unchanged. */
  method Provide(provider: HoverProvider, params: TextDocumentPositionParams) returns (response: Response)
    modifies provider.client
    ensures provider.client.requests == old(provider.client.requests) + [Request(HoverRequestType, params)]
    ensures response == provider.client.server(Request(HoverRequestType, params))
    ensures provider.client.notifications == old(provider.client.notifications)
  {
    response := provider.client.SendRequest(Request(HoverRequestType, params));
  }

  datatype ProviderEntry = ProviderEntry(options: TextDocumentRegistrationOptions, provider: HoverProvider)

  /**
   * The provider registry the feature registers with. Only its effect is
   * kept: the list of every registerProvider call, whose position is the
   * handle of the disposer it returned, and the handles disposed since.
   */
  class FeatureProviderRegistry {
    var entries: seq<ProviderEntry>
    var disposed: set<nat>

    constructor ()
      ensures entries == [] && disposed == {}
    {
      entries := [];
      disposed := {};
    }

    method RegisterProvider(options: TextDocumentRegistrationOptions, provider: HoverProvider)
      returns (disposer: Disposer)
      modifies this
      ensures entries == old(entries) + [ProviderEntry(options, provider)]
      ensures disposer == Disposer(|old(entries)|)
      ensures disposed == old(disposed)
    {
      disposer := Disposer(|entries|);
      entries := entries + [ProviderEntry(options, provider)];
    }

    method Unsubscribe(disposer: Disposer)
      modifies this
      ensures disposed == old(disposed) + {disposer.handle}
      ensures entries == old(entries)
    {
      disposed := disposed + {disposer.handle};
    }
  }

  class TextDocumentHoverFeature {
    const client: Client
    const registry: FeatureProviderRegistry
    /** The protocol message this feature handles. */
    const messages: string
    /** Registration id to the disposer of the provider registered for it. */
    var registrations: map<string, Disposer>

    constructor (client: Client, registry: FeatureProviderRegistry)
      ensures this.client == client && this.registry == registry
      ensures messages == HoverRequestType && registrations == map[]
    {
      this.client := client;
      this.registry := registry;
      messages := HoverRequestType;
      registrations := map[];
    }

    /** Advertises dynamic registration and the accepted hover formats, Markdown first. */
    method FillClientCapabilities(capabilities: ClientCapabilities)
      modifies capabilities
      ensures capabilities.textDocument == Some(WithHoverCapabilities(old(capabilities.textDocument)))
      ensures capabilities.workspace == old(capabilities.workspace)
    {
      var textDocument := EnsureTextDocument(capabilities.textDocument);
      var hoverCapability := EnsureHover(textDocument.hover);
      hoverCapability := hoverCapability.(dynamicRegistration := Some(true));
      hoverCapability := hoverCapability.(contentFormat := Some([Markdown, PlainText]));
      capabilities.textDocument := Some(textDocument.(hover := Some(hoverCapability)));
    }

    /**
     * Registers, once and with the options unchanged, a provider forwarding
     * to this feature's client, and returns the registry's own disposer.
     */
    method RegisterProvider(options: TextDocumentRegistrationOptions) returns (disposer: Disposer)
      modifies registry
      ensures registry.entries == old(registry.entries) + [ProviderEntry(options, ForwardHoverRequest(client))]
      ensures disposer == Disposer(|old(registry.entries)|)
      ensures registry.disposed == old(registry.disposed)
    {
      disposer := registry.RegisterProvider(options, ForwardHoverRequest(client));
    }

    /**
     * Adds a registration and its provider. A duplicate id is refused
     * before the registry is touched.
     */
    method Register(id: string, registerOptions: TextDocumentRegistrationOptions)
      returns (error: Option<Registration.RegistrationError>)
      modifies this, registry
      ensures error.Some? <==> id in old(registrations)
      ensures error.Some? ==>
        && Registration.Register(old(registrations), id, Disposer(|old(registry.entries)|)) == Failure(error.value)
        && registrations == old(registrations)
        && registry.entries == old(registry.entries)
      ensures error.None? ==>
        && Registration.Register(old(registrations), id, Disposer(|old(registry.entries)|)) == Success(registrations)
        && registry.entries == old(registry.entries) + [ProviderEntry(registerOptions, ForwardHoverRequest(client))]
      ensures registry.disposed == old(registry.disposed)
    {
      if id in registrations {
        return Some(Registration.DuplicateRegistration(id));
      }
      var disposer := RegisterProvider(registerOptions);
      registrations := registrations[id := disposer];
      error := None;
    }

    /** Removes a registration and disposes its provider; an unknown id is refused with nothing changed. */
    method Unregister(id: string) returns (error: Option<Registration.RegistrationError>)
      modifies this, registry
      ensures error.Some? <==> id !in old(registrations)
      ensures error.Some? ==>
        && Registration.Unregister(old(registrations), id) == Failure(error.value)
        && registrations == old(registrations)
        && registry.disposed == old(registry.disposed)
      ensures error.None? ==>
        && Registration.Unregister(old(registrations), id) == Success(registrations)
        && registry.disposed == old(registry.disposed) + {old(registrations)[id].handle}
      ensures registry.entries == old(registry.entries)
    {
      if id !in registrations {
        return Some(Registration.UnknownRegistration(id));
      }
      registry.Unsubscribe(registrations[id]);
      registrations := registrations - {id};
      error := None;
    }
  }
}
