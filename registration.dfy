/**
 * Dynamic registration bookkeeping shared by every feature: a map from
 * registration id to what the registration holds (a document selector
 * for the lifecycle features, a provider disposer for the hover feature).
 * Registering a present id and unregistering an absent one are errors and
 * leave the map as it was.
 */
module Registration {
  import opened Protocol

  datatype RegistrationError = DuplicateRegistration(id: string) | UnknownRegistration(id: string)

  /** `register`: add `id`, unless it is already registered. */
  function Register<V>(registrations: map<string, V>, id: string, value: V)
    : (r: Result<map<string, V>, RegistrationError>)
    ensures r.Failure? <==> id in registrations
    ensures r.Failure? ==> r.error == DuplicateRegistration(id)
    ensures r.Success? ==> r.value.Keys == registrations.Keys + {id} && r.value[id] == value
    ensures r.Success? ==> forall k :: k in registrations ==> r.value[k] == registrations[k]
  {
    if id in registrations then Failure(DuplicateRegistration(id))
    else Success(registrations[id := value])
  }

  /** `unregister`: remove `id`, which must be registered. */
  function Unregister<V>(registrations: map<string, V>, id: string)
    : (r: Result<map<string, V>, RegistrationError>)
    ensures r.Failure? <==> id !in registrations
    ensures r.Failure? ==> r.error == UnknownRegistration(id)
    ensures r.Success? ==> r.value.Keys == registrations.Keys - {id}
    ensures r.Success? ==> forall k :: k in r.value ==> r.value[k] == registrations[k]
  {
    if id !in registrations then Failure(UnknownRegistration(id))
    else Success(registrations - {id})
  }

  /** Registers each (id, value) in turn; stops at the first error. */
  function RegisterAll<V>(registrations: map<string, V>, entries: seq<(string, V)>)
    : Result<map<string, V>, RegistrationError>
    decreases |entries|
  {
    if entries == [] then Success(registrations)
    else match Register(registrations, entries[0].0, entries[0].1)
      case Failure(e) => Failure(e)
      case Success(next) => RegisterAll(next, entries[1..])
  }

  /** Unregisters each id in turn; stops at the first error. */
  function UnregisterAll<V>(registrations: map<string, V>, ids: seq<string>)
    : Result<map<string, V>, RegistrationError>
    decreases |ids|
  {
    if ids == [] then Success(registrations)
    else match Unregister(registrations, ids[0])
      case Failure(e) => Failure(e)
      case Success(next) => UnregisterAll(next, ids[1..])
  }

  function IdsOf<V>(entries: seq<(string, V)>): (ids: seq<string>)
    ensures |ids| == |entries| && forall i :: 0 <= i < |entries| ==> ids[i] == entries[i].0
  {
    if entries == [] then [] else [entries[0].0] + IdsOf(entries[1..])
  }

  function Elements(ids: seq<string>): set<string>
  {
    set id | id in ids
  }

  predicate Distinct(ids: seq<string>)
  {
    forall i, j :: 0 <= i < j < |ids| ==> ids[i] != ids[j]
  }

  /** Registering distinct fresh ids succeeds, adds exactly those ids and keeps the others. */
  lemma {:induction false} RegisterAllFresh<V>(registrations: map<string, V>, entries: seq<(string, V)>)
    requires Distinct(IdsOf(entries))
    requires forall i :: 0 <= i < |entries| ==> entries[i].0 !in registrations
    ensures RegisterAll(registrations, entries).Success?
    ensures RegisterAll(registrations, entries).value.Keys == registrations.Keys + Elements(IdsOf(entries))
    ensures forall k :: k in registrations ==> RegisterAll(registrations, entries).value[k] == registrations[k]
    decreases |entries|
  {
    if entries != [] {
      var next := registrations[entries[0].0 := entries[0].1];
      assert Register(registrations, entries[0].0, entries[0].1) == Success(next);
      var rest := entries[1..];
      assert IdsOf(rest) == IdsOf(entries)[1..];
      forall i | 0 <= i < |rest| ensures rest[i].0 !in next {
        assert rest[i] == entries[i + 1];
        assert IdsOf(entries)[0] != IdsOf(entries)[i + 1];
      }
      RegisterAllFresh(next, rest);
      assert IdsOf(entries) == [entries[0].0] + IdsOf(rest);
      assert Elements(IdsOf(entries)) == {entries[0].0} + Elements(IdsOf(rest));
    }
  }

  /** Unregistering distinct registered ids, in any order, succeeds and removes exactly those ids. */
  lemma {:induction false} UnregisterAllPresent<V>(registrations: map<string, V>, ids: seq<string>)
    requires Distinct(ids)
    requires forall i :: 0 <= i < |ids| ==> ids[i] in registrations
    ensures UnregisterAll(registrations, ids) == Success(registrations - Elements(ids))
    decreases |ids|
  {
    if ids == [] {
      assert registrations - Elements(ids) == registrations;
    } else {
      var next := registrations - {ids[0]};
      assert Unregister(registrations, ids[0]) == Success(next);
      var rest := ids[1..];
      forall i | 0 <= i < |rest| ensures rest[i] in next {
        assert rest[i] == ids[i + 1] && ids[0] != ids[i + 1];
      }
      UnregisterAllPresent(next, rest);
      assert ids == [ids[0]] + rest;
      assert Elements(ids) == {ids[0]} + Elements(rest);
      assert next - Elements(rest) == registrations - Elements(ids);
    }
  }

  /**
   * Registering several distinct fresh ids and then unregistering the same
   * ids, in any order, gives back the original registrations.
   */
  lemma RegisterThenUnregisterAnyOrder<V>(registrations: map<string, V>, entries: seq<(string, V)>, ids: seq<string>)
    requires Distinct(IdsOf(entries))
    requires forall i :: 0 <= i < |entries| ==> entries[i].0 !in registrations
    requires Distinct(ids) && multiset(ids) == multiset(IdsOf(entries))
    ensures RegisterAll(registrations, entries).Success?
    ensures UnregisterAll(RegisterAll(registrations, entries).value, ids) == Success(registrations)
  {
    RegisterAllFresh(registrations, entries);
    var registered := RegisterAll(registrations, entries).value;
    assert Elements(ids) == Elements(IdsOf(entries)) by {
      forall x ensures x in ids <==> x in IdsOf(entries) {
        assert x in ids <==> x in multiset(ids);
        assert x in IdsOf(entries) <==> x in multiset(IdsOf(entries));
      }
    }
    forall i | 0 <= i < |ids| ensures ids[i] in registered {
      assert ids[i] in Elements(ids);
    }
    UnregisterAllPresent(registered, ids);
    assert registered - Elements(ids) == registrations;
  }

  /** A duplicate id is refused and the map is unchanged, so the first registration stays. */
  lemma DuplicateRegistrationRefused<V>(registrations: map<string, V>, id: string, first: V, second: V)
    requires id !in registrations
    ensures Register(registrations[id := first], id, second) == Failure(DuplicateRegistration(id))
  {
  }

  /** With nothing registered, unregistering any id fails. */
  lemma UnregisterOnEmptyFails<V>(registrations: map<string, V>, id: string)
    requires registrations == map[]
    ensures Unregister(registrations, id) == Failure(UnknownRegistration(id))
  {
  }
}
