/** The records held by the service registry and the value-level meaning of
    its four operations: first-match lookup, append, and remove-first. */
module Services {

  datatype Option<+T> = None | Some(value: T)

  /** Type-specific details; an empty string is a field the JSON output omits. */
  datatype ServiceDetails = ServiceDetails(vlan: string, remoteIP: string)

  /** A service record. `details` is None where the record holds a nil pointer. */
  datatype Service = Service(serviceType: string, id: string, details: Option<ServiceDetails>)

  /** The zero value of a service record: every string empty, no details. */
  const ZeroService: Service := Service("", "", None)

  /** What an endpoint answers: the record it found, or a 404 with a text body. */
  datatype Reply = Found(record: Service) | NotFound(body: string)

  /** Index i holds the first record of `s` whose id is `id`. */
  ghost predicate FirstMatch(s: seq<Service>, id: string, i: int)
  {
    0 <= i < |s| && s[i].id == id && forall j :: 0 <= j < i ==> s[j].id != id
  }

  /** Some record of `s` has id `id`. */
  ghost predicate Has(s: seq<Service>, id: string)
  {
    exists i :: 0 <= i < |s| && s[i].id == id
  }

  /** Position of the first record with id `id`, scanning in insertion order. */
  function IndexOf(s: seq<Service>, id: string): (r: Option<nat>)
    ensures r.Some? ==> FirstMatch(s, id, r.value)
    ensures r.None? ==> forall i :: 0 <= i < |s| ==> s[i].id != id
  {
    if s == [] then None
    else if s[0].id == id then Some(0)
    else match IndexOf(s[1..], id)
      case None => None
      case Some(i) => assert s[1..][i] == s[i + 1]; Some(i + 1)
  }

  /** A first match is unique, so a scan that stops at the first hit finds IndexOf. */
  lemma FirstMatchIsIndexOf(s: seq<Service>, id: string, i: int)
    requires FirstMatch(s, id, i)
    ensures IndexOf(s, id) == Some(i)
  {
    var r := IndexOf(s, id);
    assert r.Some? by { assert s[i].id == id; }
    assert !(r.value < i);
    assert !(i < r.value);
  }

  /** What the get-by-id endpoint answers for registry contents `s`. */
  function Lookup(s: seq<Service>, id: string): (r: Reply)
    ensures r.Found? <==> Has(s, id)
    ensures r.Found? ==> r.record.id == id && exists i :: FirstMatch(s, id, i) && r.record == s[i]
    ensures r.NotFound? ==> r.body == ""
  {
    match IndexOf(s, id)
    case Some(i) => Found(s[i])
    case None => NotFound("")
  }

  /** The 404 body the delete endpoint writes for a missing id. */
  function NotFoundMessage(id: string): (m: string)
    ensures |m| == |id| + 10 && m[..|id|] == id && m[|id|..] == " Not found"
  {
    id + " Not found"
  }

  /** Registry contents after deleting `id` from `s`: the first matching record
      is spliced out and every other record keeps its relative order. */
  function Removed(s: seq<Service>, id: string): (r: seq<Service>)
    ensures !Has(s, id) ==> r == s
    ensures Has(s, id) ==> |r| == |s| - 1
    ensures forall i :: FirstMatch(s, id, i) ==>
              (forall k :: 0 <= k < i ==> r[k] == s[k]) &&
              (forall k :: i <= k < |r| ==> r[k] == s[k + 1])
  {
    match IndexOf(s, id)
    case Some(i) => s[..i] + s[i + 1..]
    case None => s
  }

  /** Number of records of `s` whose id is `id`. */
  function Count(s: seq<Service>, id: string): (n: nat)
    ensures n <= |s|
    ensures n == 0 <==> !Has(s, id)
  {
    if s == [] then 0
    else
      assert forall i :: 1 <= i < |s| ==> s[i] == s[1..][i - 1];
      (if s[0].id == id then 1 else 0) + Count(s[1..], id)
  }

  /** The record the create endpoint stores: what the body decoded to (the zero
      value when decoding left nothing), with its id forced to the path id. */
  function Decoded(body: Option<Service>, id: string): (r: Service)
    ensures r.id == id
    ensures body.None? ==> r == Service("", id, None)
    ensures body.Some? ==> r.serviceType == body.value.serviceType && r.details == body.value.details
  {
    var service := match body case Some(v) => v case None => ZeroService;
    service.(id := id)
  }

  /** The three records the process seeds at startup, in order. */
  function SeedRecords(): (s: seq<Service>)
    ensures |s| == 3
    ensures forall i :: 0 <= i < 3 ==> s[i].serviceType == "lan2lan"
    ensures s[0].id == "customer1" && s[0].details == None
    ensures s[1].id == "customer2" && s[1].details == None
    ensures s[2].id == "customer3" && s[2].details == Some(ServiceDetails("100", "1.1.1.1"))
  {
    [ Service("lan2lan", "customer1", None),
      Service("lan2lan", "customer2", None),
      Service("lan2lan", "customer3", Some(ServiceDetails("100", "1.1.1.1"))) ]
  }
}
