/** `routes/service.routes.ts`: the active services by name, and lookup by id. */
module ServiceRoutes {
  import opened Wrappers
  import opened Seqs
  import opened Text
  import opened Records
  import Server

  function ByName(): (Service, Service) -> bool
  {
    (a: Service, b: Service) => StrLe(a.name, b.name)
  }

  /** Ordering by name is total and transitive, so sorting by it yields a sorted list. */
  lemma ByNameTotalPreorder()
    ensures TotalPreorder(ByName())
  {
    forall a: Service, b: Service ensures ByName()(a, b) || ByName()(b, a) {
      StrLeTotal(a.name, b.name);
    }
    forall a: Service, b: Service, c: Service | ByName()(a, b) && ByName()(b, c) ensures ByName()(a, c) {
      StrLeTransitive(a.name, b.name, c.name);
    }
  }

  /** `GET /`: the services with `isActive` set, ordered by name, each exactly as often as stored. */
  function ListActive(services: seq<Service>): (r: seq<Service>)
    ensures forall s :: s in r <==> s in services && s.isActive
    ensures multiset(r) == multiset(Server.ActiveServices(services))
    ensures forall i, j :: 0 <= i < j < |r| ==> StrLe(r[i].name, r[j].name)
  {
    var active := Server.ActiveServices(services);
    ByNameTotalPreorder();
    SortBySorted(active, ByName());
    SameMembers(SortBy(active, ByName()), active);
    SortBy(active, ByName())
  }

  /** `GET /:id`: the service with that id, active or not, or 404. */
  function GetById(services: seq<Service>, id: string): (r: Reply<Service>)
    ensures r.Reply? <==> exists s :: s in services && s.id == id
    ensures r.Reply? ==> r.code == 200 && r.body in services && r.body.id == id
    ensures r.Error? ==> r == Error(404, "Service not found")
  {
    match FindService(services, id)
    case None => Error(404, "Service not found")
    case Some(s) => Reply(200, s)
  }

  /** A retired service is left out of the list but still found by its id. */
  lemma RetiredServiceStillFound(services: seq<Service>, s: Service)
    requires s in services && !s.isActive
    ensures s !in ListActive(services)
    ensures GetById(services, s.id).Reply?
  {
  }
}
