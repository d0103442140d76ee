/**
 * The services a provider offers (backend/controllers/serviceController.js):
 * a table of service documents keyed by id, in which every read, update and
 * delete is filtered by the calling provider and every create is stamped
 * with it. A store failure (an id that cannot be cast, a validator that
 * rejects the data) is passed in as `failure` and goes through the
 * handler's catch.
 */
module ServiceController {
  import opened Wrappers
  import opened Js

  /** The `provider` field of a service names its owner. */
  predicate OwnedBy(service: Doc, caller: string) {
    Get(service, "provider") == Str(caller)
  }

  /** `find({ provider: caller })`: the caller's services and no others. */
  function Scope(table: map<string, Doc>, caller: string): (r: map<string, Doc>)
    ensures forall id :: id in r <==> id in table && OwnedBy(table[id], caller)
    ensures forall id :: id in r ==> r[id] == table[id]
  {
    map id | id in table && OwnedBy(table[id], caller) :: table[id]
  }

  /** The owner filter `{ _id: id, provider: caller }`. */
  predicate Matches(table: map<string, Doc>, id: string, caller: string) {
    id in table && OwnedBy(table[id], caller)
  }

  /**
   * The table after `findOneAndUpdate(filter, body)`: when the filter
   * matches, the request's fields overwrite the service's (including
   * `provider`, which the request may change); otherwise nothing.
   */
  function AfterUpdate(table: map<string, Doc>, id: string, caller: string, body: Doc): (r: map<string, Doc>)
    ensures !Matches(table, id, caller) ==> r == table
    ensures r.Keys == table.Keys
    ensures Matches(table, id, caller) ==>
      forall k :: Get(r[id], k) == if k in body then body[k] else Get(table[id], k)
    ensures forall x :: x in table && x != id ==> r[x] == table[x]
  {
    if Matches(table, id, caller) then table[id := table[id] + body] else table
  }

  /** The table after `findOneAndDelete(filter)`. */
  function AfterDelete(table: map<string, Doc>, id: string, caller: string): (r: map<string, Doc>)
    ensures !Matches(table, id, caller) ==> r == table
    ensures Matches(table, id, caller) ==> id !in r && r.Keys == table.Keys - {id}
    ensures forall x :: x in table && x != id ==> x in r && r[x] == table[x]
  {
    if Matches(table, id, caller) then table - {id} else table
  }

  /** An update by one provider leaves every service it does not own exactly as it was. */
  lemma UpdateLeavesOthersAlone(table: map<string, Doc>, id: string, caller: string, body: Doc, other: string)
    requires other in table && !OwnedBy(table[other], caller)
    ensures AfterUpdate(table, id, caller, body)[other] == table[other]
  {
  }

  /** A delete by one provider removes none of the services it does not own. */
  lemma DeleteLeavesOthersAlone(table: map<string, Doc>, id: string, caller: string, other: string)
    requires other in table && !OwnedBy(table[other], caller)
    ensures other in AfterDelete(table, id, caller) && AfterDelete(table, id, caller)[other] == table[other]
  {
  }

  /** What another provider sees is the same before and after an update or delete by the caller. */
  lemma OthersScopeUnchanged(table: map<string, Doc>, id: string, caller: string, body: Doc, viewer: string)
    requires viewer != caller
    requires forall x :: x in body ==> x != "provider"
    ensures Scope(AfterDelete(table, id, caller), viewer) == Scope(table, viewer)
    ensures Scope(AfterUpdate(table, id, caller, body), viewer) == Scope(table, viewer)
  {
    var u := AfterUpdate(table, id, caller, body);
    if Matches(table, id, caller) {
      assert Get(u[id], "provider") == Get(table[id], "provider");
    }
  }

  datatype ServiceBody =
    | Fail(message: string)                               // status 'fail'
    | Listing(results: nat, services: map<string, Doc>)  // status 'success', results and services
    | One(service: Doc)                                   // status 'success', one service
    | NoData                                              // status 'success', data null

  datatype ServiceReply = ServiceReply(status: int, body: ServiceBody)

  const IdRequired: ServiceReply := ServiceReply(400, Fail("Service ID is required"))
  const ServiceNotFound: ServiceReply := ServiceReply(404, Fail("Service not found"))

  class ServiceTable {
    var services: map<string, Doc>

    constructor ()
      ensures services == map[]
    {
      services := map[];
    }

    /** `getAllServices`: exactly the caller's services, with `results` their count. */
    method GetAllServices(caller: string, failure: Option<string>) returns (reply: ServiceReply)
      ensures failure.Some? ==> reply == ServiceReply(404, Fail(failure.value))
      ensures failure.None? ==>
        && reply.status == 200 && reply.body.Listing?
        && (forall id :: id in reply.body.services <==> id in services && OwnedBy(services[id], caller))
        && (forall id :: id in reply.body.services ==> reply.body.services[id] == services[id])
        && reply.body.results == |reply.body.services|
    {
      if failure.Some? {
        return ServiceReply(404, Fail(failure.value));
      }
      var found := Scope(services, caller);
      reply := ServiceReply(200, Listing(|found|, found));
    }

    /** `getService`: 400 without an id; 404 unless the caller owns a service with that id. */
    method GetService(id: string, caller: string, failure: Option<string>) returns (reply: ServiceReply)
      ensures id == "" ==> reply == IdRequired
      ensures id != "" && failure.Some? ==> reply == ServiceReply(404, Fail(failure.value))
      ensures id != "" && failure.None? ==>
        (if Matches(services, id, caller) then reply == ServiceReply(200, One(services[id])) else reply == ServiceNotFound)
    {
      if id == "" {
        return IdRequired;
      }
      if failure.Some? {
        return ServiceReply(404, Fail(failure.value));
      }
      if !Matches(services, id, caller) {
        return ServiceNotFound;
      }
      reply := ServiceReply(200, One(services[id]));
    }

    /**
     * `createService`: the request's fields with `provider` forced to the
     * caller, whatever the request said, stored under a fresh id.
     */
    method CreateService(caller: string, body: Doc, newId: string, failure: Option<string>) returns (reply: ServiceReply)
      requires newId !in services
      modifies this
      ensures failure.Some? ==> reply == ServiceReply(400, Fail(failure.value)) && services == old(services)
      ensures failure.None? ==>
        && services == old(services)[newId := body["provider" := Str(caller)]]
        && OwnedBy(services[newId], caller)
        && reply == ServiceReply(201, One(services[newId]))
    {
      if failure.Some? {
        return ServiceReply(400, Fail(failure.value));
      }
      var newService := body["provider" := Str(caller)];
      services := services[newId := newService];
      reply := ServiceReply(201, One(newService));
    }

    /** `updateService`: only the caller's service with that id changes; otherwise a 404 and no change. */
    method UpdateService(id: string, caller: string, body: Doc, failure: Option<string>) returns (reply: ServiceReply)
      modifies this
      ensures id == "" ==> reply == IdRequired && services == old(services)
      ensures id != "" && failure.Some? ==> reply == ServiceReply(400, Fail(failure.value)) && services == old(services)
      ensures id != "" && failure.None? ==>
        && services == AfterUpdate(old(services), id, caller, body)
        && (if Matches(old(services), id, caller) then reply == ServiceReply(200, One(services[id]))
            else reply == ServiceNotFound)
    {
      if id == "" {
        return IdRequired;
      }
      if failure.Some? {
        return ServiceReply(400, Fail(failure.value));
      }
      if !Matches(services, id, caller) {
        return ServiceNotFound;
      }
      services := services[id := services[id] + body];
      reply := ServiceReply(200, One(services[id]));
    }

    /** `deleteService`: only the caller's service with that id goes, with a 204; otherwise a 404. */
    method DeleteService(id: string, caller: string, failure: Option<string>) returns (reply: ServiceReply)
      modifies this
      ensures id == "" ==> reply == IdRequired && services == old(services)
      ensures id != "" && failure.Some? ==> reply == ServiceReply(400, Fail(failure.value)) && services == old(services)
      ensures id != "" && failure.None? ==>
        && services == AfterDelete(old(services), id, caller)
        && (if Matches(old(services), id, caller) then reply == ServiceReply(204, NoData) else reply == ServiceNotFound)
    {
      if id == "" {
        return IdRequired;
      }
      if failure.Some? {
        return ServiceReply(400, Fail(failure.value));
      }
      if !Matches(services, id, caller) {
        return ServiceNotFound;
      }
      services := services - {id};
      reply := ServiceReply(204, NoData);
    }
  }
}
