/**
 * The hub's service directory as the bridge sees it: descriptors, the
 * filter `loadServices` applies to the cached list, and lookup by id.
 */
module ServiceDirectory {
  import opened Wrappers
  import opened Truthiness
  import opened Subsequence

  /** Fields requested for each service. */
  const ServiceFields: string := "id,name,applicationName,homeUrl,version"

  /** Hub-relative path of the service list. */
  const ServicesPath: string := "api/rest/services?fields=" + ServiceFields

  datatype Service = Service(
    id: string,
    name: string,
    applicationName: Option<string>,
    homeUrl: Option<string>,
    version: string)

  /** A service can be addressed only when its home URL is truthy. */
  predicate Reachable(s: Service) {
    TruthyString(s.homeUrl)
  }

  /** A falsy application-name filter matches every service. */
  predicate MatchesApplication(s: Service, app: Option<string>) {
    !TruthyString(app) || s.applicationName == app
  }

  /** The condition `loadServices(app)` keeps a cached service under. */
  predicate Selected(s: Service, app: Option<string>) {
    MatchesApplication(s, app) && Reachable(s)
  }

  /** The filter `loadServices(app)` applies to the cached list. */
  function Select(services: seq<Service>, app: Option<string>): (r: seq<Service>)
    ensures IsSubsequence(r, services)
    ensures forall i :: 0 <= i < |r| ==> Selected(r[i], app)
    decreases |services|
  {
    if services == [] then []
    else
      var rest := Select(services[1..], app);
      if Selected(services[0], app) then
        assert ([services[0]] + rest)[1..] == rest;
        [services[0]] + rest
      else
        rest
  }

  /**
   * Nothing that passes the filter is lost: each service occurs in the
   * result as often as in the cache when it passes, and not at all otherwise.
   */
  lemma {:induction false} SelectCounts(services: seq<Service>, app: Option<string>, s: Service)
    ensures multiset(Select(services, app))[s] == if Selected(s, app) then multiset(services)[s] else 0
    decreases |services|
  {
    if services != [] {
      SelectCounts(services[1..], app, s);
      assert services == [services[0]] + services[1..];
    }
  }

  /** A service is in the filtered list exactly when it is cached and passes the filter. */
  lemma SelectMembership(services: seq<Service>, app: Option<string>, s: Service)
    ensures s in Select(services, app) <==> s in services && Selected(s, app)
  {
    SelectCounts(services, app, s);
  }

  /** A list whose every element passes the filter is kept whole. */
  lemma {:induction false} SelectKeepsSelected(services: seq<Service>, app: Option<string>)
    requires forall i :: 0 <= i < |services| ==> Selected(services[i], app)
    ensures Select(services, app) == services
    decreases |services|
  {
    if services != [] {
      var tail := services[1..];
      forall i | 0 <= i < |tail|
        ensures Selected(tail[i], app)
      {
        assert tail[i] == services[i + 1];
      }
      SelectKeepsSelected(tail, app);
      assert Selected(services[0], app);
      assert services == [services[0]] + tail;
    }
  }

  /** Filtering twice with the same application name is filtering once. */
  lemma SelectIdempotent(services: seq<Service>, app: Option<string>)
    ensures Select(Select(services, app), app) == Select(services, app)
  {
    SelectKeepsSelected(Select(services, app), app);
  }

  /**
   * Filtering by application name is filtering the unfiltered result: the
   * reachable services form the universe every filtered call chooses from.
   */
  lemma {:induction false} SelectRefinesUnfiltered(services: seq<Service>, app: Option<string>)
    ensures Select(Select(services, None), app) == Select(services, app)
    decreases |services|
  {
    if services != [] {
      SelectRefinesUnfiltered(services[1..], app);
      var s := services[0];
      var rest := Select(services[1..], None);
      if Reachable(s) {
        assert Select(services, None) == [s] + rest;
        assert ([s] + rest)[1..] == rest;
      }
    }
  }

  /**
   * Three services: two of application `A`, one of them with an empty home
   * URL, and one of application `B`. Filtering by `A` keeps only the `A`
   * service that has a home URL.
   */
  lemma SelectExample()
    ensures
      var a := Service("1", "One", Some("A"), Some("u1"), "1.0");
      var b := Service("2", "Two", Some("A"), Some(""), "1.0");
      var c := Service("3", "Three", Some("B"), Some("u3"), "1.0");
      Select([a, b, c], Some("A")) == [a]
  {
    var a := Service("1", "One", Some("A"), Some("u1"), "1.0");
    var b := Service("2", "Two", Some("A"), Some(""), "1.0");
    var c := Service("3", "Three", Some("B"), Some("u3"), "1.0");
    assert [a, b, c][1..] == [b, c];
    assert [b, c][1..] == [c];
    assert [c][1..] == [];
    assert Select([c], Some("A")) == [];
    assert Select([b, c], Some("A")) == [];
  }

  /** The services of a list whose id is `id`, in list order. */
  function WithId(services: seq<Service>, id: string): (r: seq<Service>)
    ensures IsSubsequence(r, services)
    ensures forall i :: 0 <= i < |r| ==> r[i].id == id
    decreases |services|
  {
    if services == [] then []
    else
      var rest := WithId(services[1..], id);
      if services[0].id == id then
        assert ([services[0]] + rest)[1..] == rest;
        [services[0]] + rest
      else
        rest
  }

  /**
   * The id filter keeps every service with the id, as often as it occurs in
   * the list, and nothing else.
   */
  lemma {:induction false} WithIdCounts(services: seq<Service>, id: string, s: Service)
    ensures multiset(WithId(services, id))[s] == if s.id == id then multiset(services)[s] else 0
    decreases |services|
  {
    if services != [] {
      WithIdCounts(services[1..], id, s);
      assert services == [services[0]] + services[1..];
    }
  }

  /** A service is kept by the id filter exactly when it is in the list and has the id. */
  lemma WithIdMembership(services: seq<Service>, id: string, s: Service)
    ensures s in WithId(services, id) <==> s in services && s.id == id
  {
    WithIdCounts(services, id, s);
  }

  /** `s` is a service that a request for `id` may be proxied to. */
  predicate Serves(s: Service, id: string) {
    s.id == id && Reachable(s)
  }

  /** Index of the first reachable service with id `id`, if any. */
  function FirstServing(services: seq<Service>, id: string): (r: Option<nat>)
    ensures r.Some? ==> r.value < |services| && Serves(services[r.value], id)
    ensures r.Some? ==> forall j :: 0 <= j < r.value ==> !Serves(services[j], id)
    ensures r.None? <==> forall j :: 0 <= j < |services| ==> !Serves(services[j], id)
    decreases |services|
  {
    if services == [] then None
    else if Serves(services[0], id) then Some(0)
    else
      match FirstServing(services[1..], id)
      case None => None
      case Some(k) => Some(k + 1)
  }

  /**
   * The bridge's lookup, the first element of the unfiltered `loadServices`
   * result restricted to `id`, finds exactly the first reachable service
   * with that id; a service without a home URL is never found.
   */
  lemma {:induction false} LookupFindsFirstServing(services: seq<Service>, id: string)
    ensures WithId(Select(services, None), id) == [] <==> FirstServing(services, id).None?
    ensures WithId(Select(services, None), id) != [] ==>
      WithId(Select(services, None), id)[0] == services[FirstServing(services, id).value]
    decreases |services|
  {
    if services != [] {
      LookupFindsFirstServing(services[1..], id);
      var s := services[0];
      var rest := Select(services[1..], None);
      var tail := WithId(rest, id);
      if Reachable(s) {
        assert Select(services, None) == [s] + rest;
        assert ([s] + rest)[1..] == rest;
        if s.id == id {
          assert WithId([s] + rest, id) == [s] + tail;
        } else {
          assert WithId([s] + rest, id) == tail;
          FirstServingShift(services, id);
        }
      } else {
        assert Select(services, None) == rest;
        FirstServingShift(services, id);
      }
    }
  }

  /** Past a first element that does not serve `id`, the search continues in the tail. */
  lemma FirstServingShift(services: seq<Service>, id: string)
    requires services != [] && !Serves(services[0], id)
    ensures FirstServing(services, id).None? <==> FirstServing(services[1..], id).None?
    ensures FirstServing(services, id).Some? ==>
      services[FirstServing(services, id).value] == services[1..][FirstServing(services[1..], id).value]
  {
  }
}
