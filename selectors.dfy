/**
 * Document selectors: an ordered list of clauses, each a language id or
 * the wildcard "*". A document matches when some clause matches it.
 */
module DocumentSelectors {
  import opened Protocol

  type DocumentSelector = seq<string>

  const Wildcard: string := "*"

  datatype TextDocumentRegistrationOptions =
    TextDocumentRegistrationOptions(documentSelector: DocumentSelector)

  predicate ClauseMatches(clause: string, document: TextDocumentItem)
  {
    clause == Wildcard || clause == document.languageId
  }

  /** Whether `document` matches `selector`: clauses are tried left to right. */
  function Matches(selector: DocumentSelector, document: TextDocumentItem): (r: bool)
    ensures r <==> exists i :: 0 <= i < |selector| && ClauseMatches(selector[i], document)
  {
    if selector == [] then false
    else if ClauseMatches(selector[0], document) then true
    else
      var rest := Matches(selector[1..], document);
      assert forall i :: 1 <= i < |selector| ==> selector[i] == selector[1..][i - 1];
      rest
  }

  /** Whether `document` matches the selector of some registration. */
  predicate MatchesAny(selectors: map<string, DocumentSelector>, document: TextDocumentItem)
  {
    exists id :: id in selectors && Matches(selectors[id], document)
  }

  /** The wildcard clause matches every document, wherever it stands in the selector. */
  lemma WildcardMatchesEveryDocument(selector: DocumentSelector, document: TextDocumentItem)
    requires Wildcard in selector
    ensures Matches(selector, document)
  {
    var i :| 0 <= i < |selector| && selector[i] == Wildcard;
    assert ClauseMatches(selector[i], document);
  }

  /** A selector naming one language does not match a document of another language. */
  lemma LanguageSelectorRejectsOtherLanguages(languageId: string, document: TextDocumentItem)
    requires languageId != Wildcard && document.languageId != languageId
    ensures !Matches([languageId], document)
  {
  }
}
