/**
 * Properties of the lifecycle features over whole streams of environment
 * snapshots. A stream is a sequence of active documents; the trace of a
 * feature is what it sends while observing the stream with fixed
 * registrations. The server's view of open documents is replayed from
 * the notifications it receives: an open is only valid when nothing is
 * open, a close only for the document that is open.
 */
module DocumentSync {
  import opened Protocol
  import opened DocumentSelectors
  import opened TextDocument

  /** The notifications one feature sends while observing `snapshots`, starting after `previous`. */
  function Trace(kind: LifecycleKind, selectors: map<string, DocumentSelector>,
                 previous: Option<TextDocumentItem>, snapshots: seq<Option<TextDocumentItem>>)
    : seq<Notification>
    decreases |snapshots|
  {
    if snapshots == [] then []
    else Transition(kind, selectors, previous, snapshots[0]) + Trace(kind, selectors, snapshots[0], snapshots[1..])
  }

  /**
   * What the server receives from a didClose and a didOpen feature with the
   * same registrations, the close of the old document before the open of
   * the new one.
   */
  function PairTransition(selectors: map<string, DocumentSelector>,
                          previous: Option<TextDocumentItem>, next: Option<TextDocumentItem>)
    : seq<Notification>
  {
    CloseNotifications(selectors, previous, next) + OpenNotifications(selectors, previous, next)
  }

  function PairTrace(selectors: map<string, DocumentSelector>,
                     previous: Option<TextDocumentItem>, snapshots: seq<Option<TextDocumentItem>>)
    : seq<Notification>
    decreases |snapshots|
  {
    if snapshots == [] then []
    else PairTransition(selectors, previous, snapshots[0]) + PairTrace(selectors, snapshots[0], snapshots[1..])
  }

  /** The uri the server should consider open while `active` is the active document. */
  function View(selectors: map<string, DocumentSelector>, active: Option<TextDocumentItem>): Option<string>
  {
    if active.Some? && MatchesAny(selectors, active.value) then Some(active.value.uri) else None
  }

  /** The server's open document after `n`, or None when `n` is not valid in `open`. */
  function Apply(open: Option<string>, n: Notification): Option<Option<string>>
  {
    match n.params
    case DidOpenTextDocumentParams(item) =>
      if n.messageType == DidOpenTextDocumentType && open.None? then Some(Some(item.uri)) else None
    case DidCloseTextDocumentParams(identifier) =>
      if n.messageType == DidCloseTextDocumentType && open == Some(identifier.uri) then Some(None) else None
  }

  /** Replays `ns` on the server's view; None as soon as one notification is not valid. */
  function Replay(open: Option<string>, ns: seq<Notification>): Option<Option<string>>
    decreases |ns|
  {
    if ns == [] then Some(open)
    else match Apply(open, ns[0])
      case None => None
      case Some(after) => Replay(after, ns[1..])
  }

  /** The document the last snapshot holds. */
  function Last(previous: Option<TextDocumentItem>, snapshots: seq<Option<TextDocumentItem>>): Option<TextDocumentItem>
  {
    if snapshots == [] then previous else snapshots[|snapshots| - 1]
  }

  /** A document keeps its language id while it stays active. */
  predicate LanguageStable(previous: Option<TextDocumentItem>, snapshots: seq<Option<TextDocumentItem>>)
    decreases |snapshots|
  {
    snapshots == [] ||
    ((SameDocument(previous, snapshots[0]) ==> previous.value.languageId == snapshots[0].value.languageId)
     && LanguageStable(snapshots[0], snapshots[1..]))
  }

  /** Replaying two batches is replaying the first, then the second from where the first left the server. */
  lemma {:induction false} ReplayAppend(open: Option<string>, a: seq<Notification>, b: seq<Notification>, mid: Option<string>)
    requires Replay(open, a) == Some(mid)
    ensures Replay(open, a + b) == Replay(mid, b)
    decreases |a|
  {
    if a == [] {
      assert a + b == b;
    } else {
      assert (a + b)[0] == a[0] && (a + b)[1..] == a[1..] + b;
      ReplayAppend(Apply(open, a[0]).value, a[1..], b, mid);
    }
  }

  /** One snapshot: the pair's notifications move the server's view from the old document to the new one. */
  lemma PairTransitionKeepsServerInSync(selectors: map<string, DocumentSelector>,
                                        previous: Option<TextDocumentItem>, next: Option<TextDocumentItem>)
    requires SameDocument(previous, next) ==> previous.value.languageId == next.value.languageId
    ensures Replay(View(selectors, previous), PairTransition(selectors, previous, next)) == Some(View(selectors, next))
  {
    var closes := CloseNotifications(selectors, previous, next);
    var opens := OpenNotifications(selectors, previous, next);
    if SameDocument(previous, next) {
      assert MatchesAny(selectors, previous.value) == MatchesAny(selectors, next.value) by {
        forall id | id in selectors ensures Matches(selectors[id], previous.value) == Matches(selectors[id], next.value) {
          assert forall c :: ClauseMatches(c, previous.value) == ClauseMatches(c, next.value);
        }
      }
      assert closes == [] && opens == [];
    } else {
      assert Replay(View(selectors, previous), closes) == Some(None);
      ReplayAppend(View(selectors, previous), closes, opens, None);
    }
  }

  /**
   * A didClose and a didOpen feature with the same registrations keep the
   * server's view in step with the environment over any stream: every
   * notification is valid where it arrives, and after the stream the
   * server holds open exactly the last document, if it matches.
   */
  lemma {:induction false} PairTraceKeepsServerInSync(selectors: map<string, DocumentSelector>,
                                                      previous: Option<TextDocumentItem>,
                                                      snapshots: seq<Option<TextDocumentItem>>)
    requires LanguageStable(previous, snapshots)
    ensures Replay(View(selectors, previous), PairTrace(selectors, previous, snapshots))
         == Some(View(selectors, Last(previous, snapshots)))
    decreases |snapshots|
  {
    if snapshots != [] {
      var next, later := snapshots[0], snapshots[1..];
      var step := PairTransition(selectors, previous, next);
      var rest := PairTrace(selectors, next, later);
      assert PairTrace(selectors, previous, snapshots) == step + rest;
      assert LanguageStable(next, later);
      assert Last(next, later) == Last(previous, snapshots);
      var before, middle := View(selectors, previous), View(selectors, next);
      PairTransitionKeepsServerInSync(selectors, previous, next);
      assert Replay(before, step) == Some(middle);
      PairTraceKeepsServerInSync(selectors, next, later);
      ReplayAppend(before, step, rest, middle);
    }
  }

  lemma MatchesAnyAfterRegister(selectors: map<string, DocumentSelector>, id: string,
                                selector: DocumentSelector, document: TextDocumentItem)
    requires id !in selectors
    ensures MatchesAny(selectors[id := selector], document) <==> MatchesAny(selectors, document) || Matches(selector, document)
  {
    if MatchesAny(selectors, document) {
      var other :| other in selectors && Matches(selectors[other], document);
      assert selectors[id := selector][other] == selectors[other];
    }
    if Matches(selector, document) {
      assert selectors[id := selector][id] == selector;
    }
  }

  /**
   * Registering the same selector with both features keeps the server's
   * view in step: the open that registration may send is valid, and it
   * leaves open exactly what the new registrations make relevant.
   */
  lemma RegistrationKeepsServerInSync(selectors: map<string, DocumentSelector>, id: string,
                                      selector: DocumentSelector, active: Option<TextDocumentItem>)
    requires id !in selectors
    ensures Replay(View(selectors, active),
                   RegistrationNotifications(DidClose, selectors, active, selector)
                   + RegistrationNotifications(DidOpen, selectors, active, selector))
         == Some(View(selectors[id := selector], active))
  {
    if active.Some? {
      MatchesAnyAfterRegister(selectors, id, selector, active.value);
    }
    assert RegistrationNotifications(DidClose, selectors, active, selector) == [];
  }

  /** A document that stays active (same uri, whatever else changes) makes a feature send nothing. */
  lemma {:induction false} SameDocumentIsSilent(kind: LifecycleKind, selectors: map<string, DocumentSelector>,
                                                previous: Option<TextDocumentItem>,
                                                snapshots: seq<Option<TextDocumentItem>>)
    requires previous.Some?
    requires forall i :: 0 <= i < |snapshots| ==> snapshots[i].Some? && snapshots[i].value.uri == previous.value.uri
    ensures Trace(kind, selectors, previous, snapshots) == []
    decreases |snapshots|
  {
    if snapshots != [] {
      assert SameDocument(previous, snapshots[0]);
      SameDocumentIsSilent(kind, selectors, snapshots[0], snapshots[1..]);
    }
  }

  /** With no registration, a feature sends nothing whatever the environment does. */
  lemma {:induction false} NoRegistrationIsSilent(kind: LifecycleKind, previous: Option<TextDocumentItem>,
                                                  snapshots: seq<Option<TextDocumentItem>>)
    ensures Trace(kind, map[], previous, snapshots) == []
    decreases |snapshots|
  {
    if snapshots != [] {
      NoRegistrationIsSilent(kind, snapshots[0], snapshots[1..]);
    }
  }

  /** Each snapshot makes a feature send at most one notification (no batching). */
  lemma {:induction false} AtMostOnePerSnapshot(kind: LifecycleKind, selectors: map<string, DocumentSelector>,
                                                previous: Option<TextDocumentItem>,
                                                snapshots: seq<Option<TextDocumentItem>>)
    ensures |Trace(kind, selectors, previous, snapshots)| <= |snapshots|
    decreases |snapshots|
  {
    if snapshots != [] {
      AtMostOnePerSnapshot(kind, selectors, snapshots[0], snapshots[1..]);
    }
  }

  /** Every open the didOpen feature sends carries a document of the stream that matches a registration. */
  lemma {:induction false} OpensAreForMatchingDocuments(selectors: map<string, DocumentSelector>,
                                                        previous: Option<TextDocumentItem>,
                                                        snapshots: seq<Option<TextDocumentItem>>)
    ensures forall n :: n in Trace(DidOpen, selectors, previous, snapshots) ==>
      && n.messageType == DidOpenTextDocumentType && n.params.DidOpenTextDocumentParams?
      && Some(n.params.item) in snapshots && MatchesAny(selectors, n.params.item)
    decreases |snapshots|
  {
    if snapshots != [] {
      OpensAreForMatchingDocuments(selectors, snapshots[0], snapshots[1..]);
    }
  }

  const F := TextDocumentItem("file:///f", "l", "")
  const F2 := TextDocumentItem("file:///f2", "l", "")
  const Registered: map<string, DocumentSelector> := map["a" := ["l"]]

  /** The notifications of `step` applied to each consecutive pair of snapshots. */
  function Steps(step: (Option<TextDocumentItem>, Option<TextDocumentItem>) -> seq<Notification>,
                 previous: Option<TextDocumentItem>, snapshots: seq<Option<TextDocumentItem>>)
    : seq<Notification>
    decreases |snapshots|
  {
    if snapshots == [] then []
    else step(previous, snapshots[0]) + Steps(step, snapshots[0], snapshots[1..])
  }

  /** Extending the stream by one snapshot extends the notifications by that snapshot's step. */
  lemma {:induction false} StepsSnoc(step: (Option<TextDocumentItem>, Option<TextDocumentItem>) -> seq<Notification>,
                                     previous: Option<TextDocumentItem>,
                                     snapshots: seq<Option<TextDocumentItem>>, next: Option<TextDocumentItem>)
    ensures Steps(step, previous, snapshots + [next])
         == Steps(step, previous, snapshots) + step(Last(previous, snapshots), next)
    decreases |snapshots|
  {
    if snapshots == [] {
      assert snapshots + [next] == [next];
    } else {
      var first, later := snapshots[0], snapshots[1..];
      assert (snapshots + [next])[0] == first && (snapshots + [next])[1..] == later + [next];
      StepsSnoc(step, first, later, next);
      assert Last(first, later) == Last(previous, snapshots);
    }
  }

  /** The pair's trace is the pair's transition applied snapshot by snapshot. */
  lemma {:induction false} PairTraceIsSteps(selectors: map<string, DocumentSelector>, previous: Option<TextDocumentItem>,
                                            snapshots: seq<Option<TextDocumentItem>>)
    ensures PairTrace(selectors, previous, snapshots)
         == Steps((p, n) => PairTransition(selectors, p, n), previous, snapshots)
    decreases |snapshots|
  {
    if snapshots != [] {
      PairTraceIsSteps(selectors, snapshots[0], snapshots[1..]);
    }
  }

  /**
   * One environment snapshot delivered to a didClose and a didOpen feature
   * that share a client and have the same registrations: the didClose
   * feature sees it first, so the server receives the pair's transition.
   */
  method NotifyPair(closer: TextDocumentNotificationFeature, opener: TextDocumentNotificationFeature,
                    next: Option<TextDocumentItem>)
    requires closer.kind.DidClose? && opener.kind.DidOpen? && closer.client == opener.client
    requires closer.selectors == opener.selectors && closer.active == opener.active
    modifies closer, opener, closer.client
    ensures closer.client.notifications
         == old(closer.client.notifications) + PairTransition(old(closer.selectors), old(closer.active), next)
    ensures closer.selectors == opener.selectors == old(closer.selectors)
    ensures closer.active == opener.active == next
  {
    closer.OnSnapshot(next);
    opener.OnSnapshot(next);
  }

  /**
   * A whole stream of snapshots delivered to the pair: the server receives
   * the pair's trace, and when a document keeps its language id while it
   * stays active, the server's view ends on the last matching document.
   */
  method ObserveStream(closer: TextDocumentNotificationFeature, opener: TextDocumentNotificationFeature,
                       snapshots: seq<Option<TextDocumentItem>>)
    requires closer.kind.DidClose? && opener.kind.DidOpen? && closer.client == opener.client
    requires closer.selectors == opener.selectors && closer.active == opener.active
    modifies closer, opener, closer.client
    ensures closer.client.notifications
         == old(closer.client.notifications) + PairTrace(old(closer.selectors), old(closer.active), snapshots)
    ensures closer.selectors == opener.selectors == old(closer.selectors)
    ensures closer.active == opener.active == Last(old(closer.active), snapshots)
    ensures LanguageStable(old(closer.active), snapshots) ==>
      Replay(View(old(closer.selectors), old(closer.active)),
             closer.client.notifications[|old(closer.client.notifications)|..])
      == Some(View(old(closer.selectors), Last(old(closer.active), snapshots)))
  {
    ghost var selectors, start, sent := closer.selectors, closer.active, closer.client.notifications;
    ghost var step := (p, n) => PairTransition(selectors, p, n);
    for i := 0 to |snapshots|
      invariant closer.selectors == opener.selectors == selectors
      invariant closer.active == opener.active == Last(start, snapshots[..i])
      invariant closer.client.notifications == sent + Steps(step, start, snapshots[..i])
    {
      ghost var before := closer.client.notifications;
      NotifyPair(closer, opener, snapshots[i]);
      assert closer.client.notifications == before + step(Last(start, snapshots[..i]), snapshots[i]);
      StepsExtend(step, start, snapshots, i, sent, before, closer.client.notifications);
    }
    assert snapshots[..|snapshots|] == snapshots;
    PairTraceIsSteps(selectors, start, snapshots);
    StreamKeepsServerInSync(selectors, start, snapshots, sent, closer.client.notifications);
  }

  /** One more snapshot of the stream appends its step to the log of the ones before it. */
  lemma StepsExtend(step: (Option<TextDocumentItem>, Option<TextDocumentItem>) -> seq<Notification>,
                    start: Option<TextDocumentItem>, snapshots: seq<Option<TextDocumentItem>>, i: nat,
                    sent: seq<Notification>, before: seq<Notification>, after: seq<Notification>)
    requires i < |snapshots|
    requires before == sent + Steps(step, start, snapshots[..i])
    requires after == before + step(Last(start, snapshots[..i]), snapshots[i])
    ensures after == sent + Steps(step, start, snapshots[..i + 1])
    ensures Last(start, snapshots[..i + 1]) == snapshots[i]
  {
    var done, x := snapshots[..i], snapshots[i];
    assert snapshots[..i + 1] == done + [x];
    StepsSnoc(step, start, done, x);
  }

  /** What a stream appended to the client's log keeps the server's view in step. */
  lemma StreamKeepsServerInSync(selectors: map<string, DocumentSelector>, start: Option<TextDocumentItem>,
                                snapshots: seq<Option<TextDocumentItem>>, sent: seq<Notification>, log: seq<Notification>)
    requires log == sent + PairTrace(selectors, start, snapshots)
    ensures log[|sent|..] == PairTrace(selectors, start, snapshots)
    ensures LanguageStable(start, snapshots) ==>
      Replay(View(selectors, start), log[|sent|..]) == Some(View(selectors, Last(start, snapshots)))
  {
    assert log[|sent|..] == PairTrace(selectors, start, snapshots);
    if LanguageStable(start, snapshots) {
      PairTraceKeepsServerInSync(selectors, start, snapshots);
    }
  }

  /** Switching from f to f2 closes f and then opens f2, in that order. */
  lemma SwitchClosesThenOpens()
    ensures PairTransition(Registered, Some(F), Some(F2)) == [DidCloseNotification(F.uri), DidOpenNotification(F2)]
  {
    assert Matches(Registered["a"], F) && Matches(Registered["a"], F2);
    assert F.uri != F2.uri;
  }
}
