/** Properties that relate the registry operations to one another: what a
    lookup sees after a create or a delete, how many records of an id there
    are, and which records a delete can touch. */
module Properties {
  import opened Services

  /** Appending a record never changes where the first match of an id is;
      it only supplies one when there was none. */
  lemma {:induction false} IndexOfAppend(s: seq<Service>, r: Service, q: string)
    ensures IndexOf(s + [r], q) ==
              if IndexOf(s, q).Some? then IndexOf(s, q)
              else if r.id == q then Some(|s|)
              else None
  {
    var t := s + [r];
    match IndexOf(s, q)
    case Some(i) =>
      assert FirstMatch(t, q, i) by {
        assert forall j :: 0 <= j <= i ==> t[j] == s[j];
      }
      FirstMatchIsIndexOf(t, q, i);
    case None =>
      if r.id == q {
        assert FirstMatch(t, q, |s|) by {
          assert forall j :: 0 <= j < |s| ==> t[j] == s[j];
        }
        FirstMatchIsIndexOf(t, q, |s|);
      } else {
        assert forall j :: 0 <= j < |t| ==> t[j].id != q by {
          assert forall j :: 0 <= j < |s| ==> t[j] == s[j];
        }
      }
  }

  /** First match, not last write: after a create, a get for the created id
      answers with the created record only when no earlier record has that id;
      gets for every other id answer as before. */
  lemma LookupAfterCreate(s: seq<Service>, id: string, body: Option<Service>, q: string)
    ensures Lookup(s + [Decoded(body, id)], q) ==
              if q == id && !Has(s, id) then Found(Decoded(body, id)) else Lookup(s, q)
  {
    IndexOfAppend(s, Decoded(body, id), q);
  }

  /** Round trip: creating a fresh id and then getting it answers with the
      path id and exactly the fields the body carried. */
  lemma CreateThenGet(s: seq<Service>, id: string, fields: Service)
    requires !Has(s, id)
    ensures Lookup(s + [Decoded(Some(fields), id)], id) ==
              Found(Service(fields.serviceType, id, fields.details))
  {
    LookupAfterCreate(s, id, Some(fields), id);
  }

  /** Counting splits over concatenation. */
  lemma {:induction false} CountConcat(a: seq<Service>, b: seq<Service>, q: string)
    ensures Count(a + b, q) == Count(a, q) + Count(b, q)
  {
    if a == [] {
      assert a + b == b;
    } else {
      assert (a + b)[1..] == a[1..] + b;
      CountConcat(a[1..], b, q);
    }
  }

  /** Create neither replaces nor rejects: the records with the created id grow
      by exactly one, so duplicates accumulate, and no other id's count moves. */
  lemma CreateAccumulates(s: seq<Service>, id: string, body: Option<Service>, q: string)
    ensures Count(s + [Decoded(body, id)], q) == Count(s, q) + (if q == id then 1 else 0)
  {
    CountConcat(s, [Decoded(body, id)], q);
    assert [Decoded(body, id)][1..] == [];
  }

  /** Delete undoes a create of an id the registry did not hold. */
  lemma DeleteAfterCreate(s: seq<Service>, id: string, body: Option<Service>)
    requires !Has(s, id)
    ensures Removed(s + [Decoded(body, id)], id) == s
  {
    var t := s + [Decoded(body, id)];
    IndexOfAppend(s, Decoded(body, id), id);
    assert t[..|s|] == s;
    assert t[|s| + 1..] == [];
  }

  /** Delete removes at most one record: exactly the first match when the id
      is present, nothing otherwise. */
  lemma RemovedTakesOne(s: seq<Service>, id: string)
    ensures !Has(s, id) ==> multiset(Removed(s, id)) == multiset(s)
    ensures Has(s, id) ==>
              exists i :: FirstMatch(s, id, i) && multiset(Removed(s, id)) + multiset{s[i]} == multiset(s)
  {
    var r := IndexOf(s, id);
    if r.Some? {
      var i := r.value;
      assert s == s[..i] + [s[i]] + s[i + 1..];
      assert Removed(s, id) == s[..i] + s[i + 1..];
    }
  }

  /** The count of the deleted id drops by one when it was present; the counts
      of all other ids stay as they were. */
  lemma RemovedCount(s: seq<Service>, id: string, q: string)
    ensures Count(Removed(s, id), q) ==
              if q == id && Has(s, id) then Count(s, q) - 1 else Count(s, q)
  {
    match IndexOf(s, id)
    case None =>
    case Some(i) =>
      assert s == s[..i] + ([s[i]] + s[i + 1..]);
      CountConcat(s[..i], [s[i]] + s[i + 1..], q);
      CountConcat([s[i]], s[i + 1..], q);
      CountConcat(s[..i], s[i + 1..], q);
      assert [s[i]][1..] == [];
  }

  /** Delete touches only the first match of its own id: gets for every other
      id answer exactly as before. */
  lemma LookupAfterDelete(s: seq<Service>, id: string, q: string)
    requires q != id
    ensures Lookup(Removed(s, id), q) == Lookup(s, q)
  {
    var t := Removed(s, id);
    match IndexOf(s, id)
    case None =>
    case Some(i) =>
      assert forall k :: 0 <= k < |t| ==> t[k] == s[if k < i then k else k + 1];
      match IndexOf(s, q)
      case None =>
        assert forall k :: 0 <= k < |t| ==> t[k].id != q;
      case Some(m) =>
        assert m != i;
        var n := if m < i then m else m - 1;
        assert FirstMatch(t, q, n);
        FirstMatchIsIndexOf(t, q, n);
  }

  /** After a delete of a duplicated id, a get for it answers with the
      record that had been its second match. */
  lemma LookupAfterDeleteDuplicate(s: seq<Service>, id: string, i: nat, k: nat)
    requires FirstMatch(s, id, i)
    requires i < k < |s| && s[k].id == id
    requires forall j :: i < j < k ==> s[j].id != id
    ensures Lookup(Removed(s, id), id) == Found(s[k])
  {
    var t := Removed(s, id);
    assert FirstMatch(t, id, k - 1);
    FirstMatchIsIndexOf(t, id, k - 1);
  }

  /** Startup contents: three records ending with customer3 and its details;
      a get for an id nobody has is a 404 and a delete of it changes nothing. */
  lemma SeedScenario()
    ensures Lookup(SeedRecords(), "customer3") ==
              Found(Service("lan2lan", "customer3", Some(ServiceDetails("100", "1.1.1.1"))))
    ensures Lookup(SeedRecords(), "unknown") == NotFound("")
    ensures Removed(SeedRecords(), "unknown") == SeedRecords()
  {
    FirstMatchIsIndexOf(SeedRecords(), "customer3", 2);
  }
}
