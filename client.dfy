/**
 * The client channel the features talk through. The transport is not
 * modelled: the client records every notification and request in order,
 * and the server's answer to a request is a fixed function of the request.
 */
module ClientChannel {
  import opened Protocol

  class Client {
    /** Every `sendNotification` call so far, in order. */
    var notifications: seq<Notification>
    /** Every `sendRequest` call so far, in order. */
    var requests: seq<Request>
    /** How the server answers a request. */
    const server: Request -> Response

    constructor (server: Request -> Response)
      ensures notifications == [] && requests == [] && this.server == server
    {
      notifications := [];
      requests := [];
      this.server := server;
    }

    method SendNotification(notification: Notification)
      modifies this
      ensures notifications == old(notifications) + [notification]
      ensures requests == old(requests)
    {
      notifications := notifications + [notification];
    }

    method SendRequest(request: Request) returns (response: Response)
      modifies this
      ensures requests == old(requests) + [request]
      ensures response == server(request)
      ensures notifications == old(notifications)
    {
      requests := requests + [request];
      response := server(request);
    }
  }
}
