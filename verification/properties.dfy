/**
  Properties that relate several requests: what one request leaves behind
  for the next, the store invariant over any run of requests, and the
  discrepancy between POST /hero_powers as written and as intended.
 */
module Properties {
  import opened Models
  import opened Handlers
  import Keys

  /** One request to the service, by route. */
  datatype Request =
    | ListHeroes
    | ShowHero(id: int)
    | ListPowers
    | ShowPower(id: int)
    | PatchPower(id: int, payload: Payload)
    | PostHeroPower(payload: Payload)

  /** Serve one request with the handler its route names, POST by the corrected handler. */
  function Handle(s: Store, req: Request): Reply {
    match req
    case ListHeroes => GetHeroes(s)
    case ShowHero(id) => GetHero(s, id)
    case ListPowers => GetPowers(s)
    case ShowPower(id) => GetPower(s, id)
    case PatchPower(id, payload) => UpdatePower(s, id, payload)
    case PostHeroPower(payload) => CreateHeroPower(s, payload)
  }

  /** The store after serving `reqs` one after another. */
  function Run(s: Store, reqs: seq<Request>): Store
    decreases |reqs|
  {
    if |reqs| == 0 then s else Run(Handle(s, reqs[0]).store, reqs[1..])
  }

  /**
    In the corrected service (POST handled by CreateHeroPower), no run of
    requests, however it mixes successes and failures, can store a short
    description, a strength outside the three ratings, or a link to a
    missing hero or power.
   */
  lemma {:induction false} RunPreservesValid(s: Store, reqs: seq<Request>)
    requires Valid(s)
    ensures Valid(Run(s, reqs))
    decreases |reqs|
  {
    if |reqs| > 0 {
      var next := Handle(s, reqs[0]).store;
      assert Valid(next);
      RunPreservesValid(next, reqs[1..]);
    }
  }

  /** The requests the as-written POST handler is modelled for: no text ids. */
  predicate IdsNotTextIn(req: Request) {
    req.PostHeroPower? ==> IdsNotText(req.payload)
  }

  /** Serve one request as the code is written: POST keeps a dangling link. */
  function HandleAsWritten(s: Store, req: Request): Reply
    requires IdsNotTextIn(req)
  {
    match req
    case PostHeroPower(payload) => CreateHeroPowerAsWritten(s, payload)
    case _ => Handle(s, req)
  }

  /** The store after the service as written serves `reqs` one after another. */
  function RunAsWritten(s: Store, reqs: seq<Request>): Store
    requires forall i :: 0 <= i < |reqs| ==> IdsNotTextIn(reqs[i])
    decreases |reqs|
  {
    if |reqs| == 0 then s else RunAsWritten(HandleAsWritten(s, reqs[0]).store, reqs[1..])
  }

  /**
    The service as written can lose referential integrity (see
    DanglingLinkOutlivesRejection), but no run of requests can store a short
    description or a strength outside the three ratings.
   */
  lemma {:induction false} RunAsWrittenKeepsFields(s: Store, reqs: seq<Request>)
    requires forall i :: 0 <= i < |reqs| ==> IdsNotTextIn(reqs[i])
    requires DescriptionsValid(s) && StrengthsValid(s)
    ensures DescriptionsValid(RunAsWritten(s, reqs)) && StrengthsValid(RunAsWritten(s, reqs))
    decreases |reqs|
  {
    if |reqs| > 0 {
      RunAsWrittenKeepsFields(HandleAsWritten(s, reqs[0]).store, reqs[1..]);
    }
  }

  /** Read-only requests never change the store. */
  lemma {:induction false} ReadsLeaveStore(s: Store, reqs: seq<Request>)
    requires forall i :: 0 <= i < |reqs| ==> !reqs[i].PatchPower? && !reqs[i].PostHeroPower?
    ensures Run(s, reqs) == s
    decreases |reqs|
  {
    if |reqs| > 0 {
      assert Handle(s, reqs[0]).store == s;
      ReadsLeaveStore(s, reqs[1..]);
    }
  }

  /** After a successful PATCH, GET /powers/<id> shows the new description. */
  lemma UpdateThenGetPower(s: Store, id: int, payload: Payload)
    requires UpdatePower(s, id, payload).status == StatusOk
    ensures
      var after := UpdatePower(s, id, payload).store;
      GetPower(after, id) == Reply(StatusOk, UpdatePower(s, id, payload).body, after)
    ensures GetPower(UpdatePower(s, id, payload).store, id).body.power.description == payload["description"].s
  {
  }

  /** Sending the same successful PATCH twice leaves what sending it once left. */
  lemma UpdatePowerIdempotent(s: Store, id: int, payload: Payload)
    requires UpdatePower(s, id, payload).status == StatusOk
    ensures
      var once := UpdatePower(s, id, payload);
      UpdatePower(once.store, id, payload) == once
  {
  }

  /** Every link of a hero whose page loads is on that page. */
  lemma LinkOnHeroPage(t: Store, h: int, k: int)
    requires Keys.IsInt64(h) && h in t.heroes && !HasDanglingPower(t, h)
    requires k in LinksOfHero(t, h)
    ensures k in t.heroPowers && t.heroPowers[k].powerId in t.powers
    ensures exists i :: 0 <= i < |GetHero(t, h).body.links| && GetHero(t, h).body.links[i] == ViewLink(t, k)
  {
    var links := GetHero(t, h).body.links;
    var i :| 0 <= i < |links| && links[i].id == k;
  }

  /**
    A link created by POST /hero_powers appears on its hero's page, next to
    the links the hero already had, each shown as before, with the linked
    power nested.
   */
  lemma CreatedLinkShownOnHeroPage(s: Store, payload: Payload)
    requires Valid(s)
    requires CreateHeroPower(s, payload).status == StatusOk
    ensures
      var created := CreateHeroPower(s, payload);
      var page := GetHero(created.store, created.body.link.heroId);
      && page.status == StatusOk
      && |page.body.links| == |LinksOfHero(s, created.body.link.heroId)| + 1
      && (exists i :: 0 <= i < |page.body.links| &&
           page.body.links[i] == LinkView(
             created.body.link.id, created.body.link.heroId, created.body.link.powerId,
             created.body.link.strength, created.body.link.power))
      && forall k :: k in LinksOfHero(s, created.body.link.heroId) ==>
           exists i :: 0 <= i < |page.body.links| && page.body.links[i] == ViewLink(s, k)
  {
    var created := CreateHeroPower(s, payload);
    var link := created.body.link;
    var after := created.store;
    var h := link.heroId;
    assert LinksOfHero(after, h) == LinksOfHero(s, h) + {link.id};
    LinkOnHeroPage(after, h, link.id);
    assert ViewLink(after, link.id) == LinkView(link.id, h, link.powerId, link.strength, link.power);
    forall k | k in LinksOfHero(s, h)
      ensures exists i :: 0 <= i < |GetHero(after, h).body.links| && GetHero(after, h).body.links[i] == ViewLink(s, k)
    {
      LinkOnHeroPage(after, h, k);
      assert ViewLink(after, k) == ViewLink(s, k);
    }
  }

  /**
    Once the cascade has removed a power and its links, every remaining
    hero's page still loads, unless its key is one the driver cannot bind,
    and no longer mentions that power.
   */
  lemma DeletedPowerGoneFromHeroPages(s: Store, p: int, h: int)
    requires Valid(s) && h in s.heroes
    ensures
      var page := GetHero(DeletePower(s, p), h);
      && (page.status == StatusOk <==> Keys.IsInt64(h))
      && (page.status == StatusOk ==>
            forall i :: 0 <= i < |page.body.links| ==> page.body.links[i].powerId != p)
  {
  }

  /**
    POST /hero_powers as written and as intended answer every request the
    same way except those naming a missing hero or power.
   */
  lemma AsWrittenDiffersOnlyWhenDangling(s: Store, payload: Payload)
    requires IdsNotText(payload)
    ensures CreateHeroPowerAsWritten(s, payload) == CreateHeroPower(s, payload) <==> !Dangling(s, payload)
  {
  }

  /**
    The discrepancy on a concrete request: hero 1 exists, power 7 does not.
    The as-written handler answers 400 yet keeps the link, breaking the
    invariant; the hero's page then fails with 500. The intended handler
    answers 400 and keeps nothing.
   */
  lemma DanglingLinkOutlivesRejection()
    ensures
      var s := Store(map[1 := Hero("Kamala Khan", "Ms. Marvel")], map[], map[]);
      var payload := map["strength" := Text("Strong"), "power_id" := Integer(7), "hero_id" := Integer(1)];
      var asWritten := CreateHeroPowerAsWritten(s, payload);
      var intended := CreateHeroPower(s, payload);
      && Valid(s)
      && asWritten.status == StatusBadRequest
      && asWritten.store != s
      && !Valid(asWritten.store)
      && GetHero(asWritten.store, 1).status == StatusServerError
      && intended == Reply(StatusBadRequest, Errors([PowerNotFound]), s)
  {
  }

  /**
    An id one past the 64-bit range, which JSON and the `<int:id>` converter
    both admit: POST is rolled back when the commit cannot bind it, so both
    handlers answer 400 and store nothing, and GET of that hero fails with
    500 rather than 404.
   */
  lemma OutOfRangeIdRejected()
    ensures
      var s := Store(map[1 := Hero("Kamala Khan", "Ms. Marvel")], map[], map[]);
      var payload := map["strength" := Text("Strong"), "power_id" := Integer(Keys.MaxInt64 + 1), "hero_id" := Integer(1)];
      && CreateHeroPowerAsWritten(s, payload) == Reply(StatusBadRequest, Errors([TooLarge]), s)
      && CreateHeroPower(s, payload) == CreateHeroPowerAsWritten(s, payload)
      && GetHero(s, Keys.MaxInt64 + 1) == Reply(StatusServerError, InternalError, s)
  {
  }
}
