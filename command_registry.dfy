// The command registry: a table from request-type tag to a factory that
// builds the command for a request. Registration updates the table in place
// and overwrites; creation is a read-only lookup followed by a factory call.
module Registry {
  import opened Models
  import opened Commands

  /** `CommandFactory`: builds the command for a request, or throws. */
  type Factory = Request -> Outcome<Command>

  /** The registry's contents. */
  type FactoryTable = map<RequestType, Factory>

  const NoCommandRegistered: string := "No command registered for the given RequestType"

  /** `create` on a given table: an absent tag throws `out_of_range`; a
      present one hands the caller's request, unchanged, to its factory. */
  function Lookup(factories: FactoryTable, request: Request): (r: Outcome<Command>)
    ensures request.requestType in factories ==> r == factories[request.requestType](request)
    ensures request.requestType !in factories ==> r == Threw(OutOfRange(NoCommandRegistered))
  {
    if request.requestType in factories then factories[request.requestType](request)
    else Threw(OutOfRange(NoCommandRegistered))
  }

  class CommandRegistry {
    var factories: FactoryTable

    constructor ()
      ensures factories == map[]
    {
      factories := map[];
    }

    /** `registerCommand`: `m_factories[type] = factory`. */
    method RegisterCommand(requestType: RequestType, factory: Factory)
      modifies this
      ensures factories == old(factories)[requestType := factory]
    {
      factories := factories[requestType := factory];
    }

    /** `create`: a const member, so it changes nothing. */
    method Create(request: Request) returns (r: Outcome<Command>)
      ensures r == Lookup(factories, request)
    {
      var requestType := request.requestType;
      if requestType !in factories {
        return Threw(OutOfRange(NoCommandRegistered));
      }
      var factory := factories[requestType];
      r := factory(request);
    }
  }

  /** After registering `f` for a tag, creating a command for a request of
      that tag is `f` applied to that request. */
  lemma CreateAfterRegister(factories: FactoryTable, requestType: RequestType, f: Factory, request: Request)
    requires request.requestType == requestType
    ensures Lookup(factories[requestType := f], request) == f(request)
  {
  }

  /** Registering the same tag twice keeps only the latest factory. */
  lemma RegisterOverwrites(factories: FactoryTable, requestType: RequestType, f1: Factory, f2: Factory)
    ensures factories[requestType := f1][requestType := f2] == factories[requestType := f2]
  {
  }

  /** Registering one tag leaves what every other tag creates unchanged. */
  lemma RegisterLeavesOtherTypes(factories: FactoryTable, requestType: RequestType, f: Factory, request: Request)
    requires request.requestType != requestType
    ensures Lookup(factories[requestType := f], request) == Lookup(factories, request)
  {
  }

  /** One `registerCommand` call: the tag and the factory it installs. */
  datatype Registration = Registration(requestType: RequestType, factory: Factory)

  /** The table after a series of `registerCommand` calls, in order. */
  function RegisterAll(factories: FactoryTable, registrations: seq<Registration>): (table: FactoryTable)
    ensures factories.Keys <= table.Keys
    ensures forall i :: 0 <= i < |registrations| ==> registrations[i].requestType in table
    decreases |registrations|
  {
    if registrations == [] then factories
    else RegisterAll(factories[registrations[0].requestType := registrations[0].factory], registrations[1..])
  }

  /** A tag no call registers creates what it created before the series. */
  lemma {:induction false} RegisterAllLeavesOtherTypes(factories: FactoryTable, registrations: seq<Registration>,
                                                      request: Request)
    requires forall j :: 0 <= j < |registrations| ==> registrations[j].requestType != request.requestType
    ensures Lookup(RegisterAll(factories, registrations), request) == Lookup(factories, request)
    decreases |registrations|
  {
    if registrations != [] {
      var first := registrations[0];
      RegisterLeavesOtherTypes(factories, first.requestType, first.factory, request);
      RegisterAllLeavesOtherTypes(factories[first.requestType := first.factory], registrations[1..], request);
    }
  }

  /** Over any series of registrations, the last one for a tag decides what
      that tag creates. */
  lemma {:induction false} LastRegistrationWins(factories: FactoryTable, registrations: seq<Registration>, i: nat,
                                               request: Request)
    requires i < |registrations| && registrations[i].requestType == request.requestType
    requires forall j :: i < j < |registrations| ==> registrations[j].requestType != request.requestType
    ensures Lookup(RegisterAll(factories, registrations), request) == registrations[i].factory(request)
    decreases |registrations|
  {
    var first := registrations[0];
    var updated := factories[first.requestType := first.factory];
    if i == 0 {
      RegisterAllLeavesOtherTypes(updated, registrations[1..], request);
      CreateAfterRegister(factories, first.requestType, first.factory, request);
    } else {
      LastRegistrationWins(updated, registrations[1..], i - 1, request);
    }
  }

  /** A fresh registry fails for every tag with `out_of_range`. */
  lemma EmptyRegistryFails(request: Request)
    ensures Lookup(map[], request) == Threw(OutOfRange(NoCommandRegistered))
  {
  }

  /** Creation throws exactly for the tags never registered, provided the
      factory for the request's tag, if there is one, does not throw. */
  lemma CreateFailsIffUnregistered(factories: FactoryTable, request: Request)
    requires request.requestType in factories ==> !factories[request.requestType](request).Threw?
    ensures Lookup(factories, request).Threw? <==> request.requestType !in factories
  {
  }

  /** Once all four defined tags are registered with factories that do not
      throw, creation succeeds for each of them. */
  lemma AllDefinedTypesRegistered(factories: FactoryTable, request: Request)
    requires DefinedRequestTypes <= factories.Keys
    requires forall t | t in DefinedRequestTypes :: factories[t](request).Returned?
    requires request.requestType in DefinedRequestTypes
    ensures Lookup(factories, request).Returned?
  {
  }
}
