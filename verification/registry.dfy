/** The process-wide service list and the four HTTP endpoints that read and
    change it, as methods of one registry object. */
module Endpoints {
  import opened Services

  class Registry {
    /** The registered services, in insertion order. */
    var services: seq<Service>

    /** The list starts empty, like the nil slice before startup seeding. */
    constructor ()
      ensures services == []
    {
      services := [];
    }

    /** Startup seeding: three records appended one after another. */
    method Seed()
      modifies this
      ensures services == old(services) + SeedRecords()
    {
      var seed := SeedRecords();
      services := services + [seed[0]];
      services := services + [seed[1]];
      services := services + [seed[2]];
    }

    /** GET /services: the whole list, as it is; nothing changes. */
    method List() returns (all: seq<Service>)
      ensures all == services
    {
      all := services;
    }

    /** GET /services/service/{id}: a linear scan that answers with the first
        record whose id matches, or 404; nothing changes. */
    method Get(id: string) returns (reply: Reply)
      ensures reply == Lookup(services, id)
      ensures reply.Found? ==> exists i :: FirstMatch(services, id, i) && reply.record == services[i]
      ensures reply.NotFound? <==> !Has(services, id)
    {
      var i := 0;
      while i < |services|
        invariant 0 <= i <= |services|
        invariant forall j :: 0 <= j < i ==> services[j].id != id
      {
        if services[i].id == id {
          FirstMatchIsIndexOf(services, id, i);
          return Found(services[i]);
        }
        i := i + 1;
      }
      return NotFound("");
    }

    /** POST /services/service/{id}: the decoded body (the zero value when
        decoding failed) gets the path id and is appended unconditionally,
        even when a record with that id is already present. */
    method Create(id: string, body: Option<Service>) returns (created: Service)
      modifies this
      ensures created == Decoded(body, id)
      ensures services == old(services) + [created]
    {
      var service := match body case Some(v) => v case None => ZeroService;
      service := service.(id := id);
      services := services + [service];
      created := service;
    }

    /** DELETE /services/service/{id}: a linear scan that splices out the first
        record whose id matches and answers with it, or answers 404 with the
        text "<id> Not found" and leaves the list alone. */
    method Delete(id: string) returns (reply: Reply)
      modifies this
      ensures services == Removed(old(services), id)
      ensures reply.Found? <==> Has(old(services), id)
      ensures reply.Found? ==> reply == Lookup(old(services), id)
      ensures reply.NotFound? ==> reply.body == NotFoundMessage(id)
    {
      var i := 0;
      while i < |services|
        invariant 0 <= i <= |services|
        invariant services == old(services)
        invariant forall j :: 0 <= j < i ==> services[j].id != id
      {
        if services[i].id == id {
          FirstMatchIsIndexOf(services, id, i);
          reply := Found(services[i]);
          services := services[..i] + services[i + 1..];
          return;
        }
        i := i + 1;
      }
      reply := NotFound(NotFoundMessage(id));
    }
  }
}
