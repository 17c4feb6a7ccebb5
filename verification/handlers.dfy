/**
  The six request handlers of server/app.py as pure functions from a store
  and the request's id and body to a reply: a status, a response body and the
  store as it stands after the request. A handler that rolls back returns
  the store it was given.

  Rows are listed in ascending key order, the order in which SQLite scans an
  integer primary key; the handlers themselves ask for no order.
 */
module Handlers {
  import Keys
  import opened Models

  const StatusOk: int := 200
  const StatusBadRequest: int := 400
  const StatusNotFound: int := 404
  const StatusServerError: int := 500

  /** A JSON request body: field name to value. */
  type Payload = map<string, Value>

  /** Everything a handler can report in an `error` or `errors` field. */
  datatype Problem =
    | HeroNotFound
    | PowerNotFound
    | DescriptionRequired
    | FieldsRequired
    | Invalid(error: ValidationError)
    | NotNull(column: string)  // the database refused a null foreign key
    | NoneHasNoId              // a lookup found nothing and its `.id` was read
    | TooLarge                 // the driver could not bind an id outside 64 bits

  /** The text each problem puts into the response. */
  function Text(p: Problem): string {
    match p
    case HeroNotFound => "Hero not found"
    case PowerNotFound => "Power not found"
    case DescriptionRequired => "description is required"
    case FieldsRequired => "strength, power_id, and hero_id are required"
    case Invalid(e) => Message(e)
    case NotNull(column) => "NOT NULL constraint failed: " + column
    case NoneHasNoId => "'NoneType' object has no attribute 'id'"
    case TooLarge => "Python int too large to convert to SQLite INTEGER"
  }

  datatype HeroSummary = HeroSummary(id: int, name: string, superName: string)

  datatype PowerSummary = PowerSummary(id: int, name: string, description: string)

  /** One entry of a hero's `hero_powers`, with the linked power nested. */
  datatype LinkView = LinkView(id: int, heroId: int, powerId: int, strength: string, power: PowerSummary)

  /** The body of a created link, with both ends nested. */
  datatype CreatedLink = CreatedLink(
    id: int, heroId: int, powerId: int, strength: string,
    hero: HeroSummary, power: PowerSummary)

  datatype Body =
    | HeroList(heroes: seq<HeroSummary>)
    | PowerList(powers: seq<PowerSummary>)
    | HeroDetail(hero: HeroSummary, links: seq<LinkView>)
    | PowerDetail(power: PowerSummary)
    | LinkCreated(link: CreatedLink)
    | Error(problem: Problem)           // {"error": ...}
    | Errors(problems: seq<Problem>)    // {"errors": [...]}
    | InternalError                     // the framework's page for an uncaught exception

  datatype Reply = Reply(status: int, body: Body, store: Store)

  function SummarizeHero(s: Store, id: int): HeroSummary
    requires id in s.heroes
  {
    HeroSummary(id, s.heroes[id].name, s.heroes[id].superName)
  }

  function SummarizePower(s: Store, id: int): PowerSummary
    requires id in s.powers
  {
    PowerSummary(id, s.powers[id].name, s.powers[id].description)
  }

  function ViewLink(s: Store, k: int): LinkView
    requires k in s.heroPowers && s.heroPowers[k].powerId in s.powers
  {
    var hp := s.heroPowers[k];
    LinkView(k, hp.heroId, hp.powerId, hp.strength, SummarizePower(s, hp.powerId))
  }

  /** Some link of hero `h` names a power that is not stored. */
  predicate HasDanglingPower(s: Store, h: int) {
    exists k :: k in LinksOfHero(s, h) && s.heroPowers[k].powerId !in s.powers
  }

  function HeroIds(list: seq<HeroSummary>): seq<int> {
    seq(|list|, i requires 0 <= i < |list| => list[i].id)
  }

  function PowerIds(list: seq<PowerSummary>): seq<int> {
    seq(|list|, i requires 0 <= i < |list| => list[i].id)
  }

  function LinkIds(list: seq<LinkView>): seq<int> {
    seq(|list|, i requires 0 <= i < |list| => list[i].id)
  }

  /** The summaries of the heroes stored under `ids`, in that order. */
  function SummarizeHeroes(s: Store, ids: seq<int>): (r: seq<HeroSummary>)
    requires forall i :: 0 <= i < |ids| ==> ids[i] in s.heroes
    ensures |r| == |ids|
    ensures forall i :: 0 <= i < |r| ==> r[i].id == ids[i] && r[i] == SummarizeHero(s, r[i].id)
    ensures HeroIds(r) == ids
  {
    if |ids| == 0 then [] else [SummarizeHero(s, ids[0])] + SummarizeHeroes(s, ids[1..])
  }

  /** The summaries of the powers stored under `ids`, in that order. */
  function SummarizePowers(s: Store, ids: seq<int>): (r: seq<PowerSummary>)
    requires forall i :: 0 <= i < |ids| ==> ids[i] in s.powers
    ensures |r| == |ids|
    ensures forall i :: 0 <= i < |r| ==> r[i].id == ids[i] && r[i] == SummarizePower(s, r[i].id)
    ensures PowerIds(r) == ids
  {
    if |ids| == 0 then [] else [SummarizePower(s, ids[0])] + SummarizePowers(s, ids[1..])
  }

  /** The entries of the links stored under `ks`, in that order. */
  function ViewLinks(s: Store, ks: seq<int>): (r: seq<LinkView>)
    requires forall i :: 0 <= i < |ks| ==> ks[i] in s.heroPowers && s.heroPowers[ks[i]].powerId in s.powers
    ensures |r| == |ks|
    ensures forall i :: 0 <= i < |r| ==> r[i].id == ks[i] && r[i] == ViewLink(s, r[i].id)
    ensures LinkIds(r) == ks
  {
    if |ks| == 0 then [] else [ViewLink(s, ks[0])] + ViewLinks(s, ks[1..])
  }

  /** GET /heroes: one summary per stored hero, each hero once. */
  function GetHeroes(s: Store): (r: Reply)
    ensures r.status == StatusOk && r.store == s && r.body.HeroList?
    ensures Keys.Enumerates(HeroIds(r.body.heroes), s.heroes.Keys)
    ensures forall i :: 0 <= i < |r.body.heroes| ==>
      r.body.heroes[i].id in s.heroes && r.body.heroes[i] == SummarizeHero(s, r.body.heroes[i].id)
  {
    var ids := Keys.SortedKeys(s.heroes.Keys);
    var list := SummarizeHeroes(s, ids);
    Reply(StatusOk, HeroList(list), s)
  }

  /** A hero's `hero_powers` entries, when every one of them resolves. */
  function HeroLinks(s: Store, id: int): (links: seq<LinkView>)
    requires !HasDanglingPower(s, id)
    ensures Keys.Enumerates(LinkIds(links), LinksOfHero(s, id))
    ensures forall i :: 0 <= i < |links| ==>
      && links[i].id in s.heroPowers
      && s.heroPowers[links[i].id].heroId == id
      && s.heroPowers[links[i].id].powerId in s.powers
      && links[i] == ViewLink(s, links[i].id)
  {
    ViewLinks(s, Keys.SortedKeys(LinksOfHero(s, id)))
  }

  /**
    GET /heroes/<id>: 404 for an unknown hero; otherwise the hero with one
    entry per link it owns, each carrying the linked power. A link whose power
    is gone makes `hp.power.id` raise, which nothing catches: 500. So does an
    id the driver cannot bind, which the route's `<int:id>` lets through.
   */
  function GetHero(s: Store, id: int): (r: Reply)
    ensures r.store == s
    ensures !Keys.IsInt64(id) ==> r == Reply(StatusServerError, InternalError, s)
    ensures Keys.IsInt64(id) && id !in s.heroes ==> r.status == StatusNotFound && r.body == Error(HeroNotFound)
    ensures Keys.IsInt64(id) && id in s.heroes ==>
      (r.status == StatusOk <==> !HasDanglingPower(s, id)) &&
      (r.status != StatusOk ==> r.status == StatusServerError && r.body == InternalError)
    ensures r.status == StatusOk ==>
      && Keys.IsInt64(id)
      && id in s.heroes
      && r.body.HeroDetail?
      && r.body.hero == SummarizeHero(s, id)
      && Keys.Enumerates(LinkIds(r.body.links), LinksOfHero(s, id))
      && forall i :: 0 <= i < |r.body.links| ==>
           && r.body.links[i].id in s.heroPowers
           && s.heroPowers[r.body.links[i].id].heroId == id
           && s.heroPowers[r.body.links[i].id].powerId in s.powers
           && r.body.links[i] == ViewLink(s, r.body.links[i].id)
    ensures Valid(s) && Keys.IsInt64(id) && id in s.heroes ==> r.status == StatusOk
  {
    if !Keys.IsInt64(id) then Reply(StatusServerError, InternalError, s)
    else if id !in s.heroes then Reply(StatusNotFound, Error(HeroNotFound), s)
    else if HasDanglingPower(s, id) then
      Reply(StatusServerError, InternalError, s)
    else
      Reply(StatusOk, HeroDetail(SummarizeHero(s, id), HeroLinks(s, id)), s)
  }

  /** GET /powers: one summary per stored power, each power once. */
  function GetPowers(s: Store): (r: Reply)
    ensures r.status == StatusOk && r.store == s && r.body.PowerList?
    ensures Keys.Enumerates(PowerIds(r.body.powers), s.powers.Keys)
    ensures forall i :: 0 <= i < |r.body.powers| ==>
      r.body.powers[i].id in s.powers && r.body.powers[i] == SummarizePower(s, r.body.powers[i].id)
  {
    var ids := Keys.SortedKeys(s.powers.Keys);
    var list := SummarizePowers(s, ids);
    Reply(StatusOk, PowerList(list), s)
  }

  /**
    GET /powers/<id>: 404 for an unknown power, otherwise the stored power;
    500 for an id the driver cannot bind.
   */
  function GetPower(s: Store, id: int): (r: Reply)
    ensures r.store == s
    ensures r.status == StatusOk <==> Keys.IsInt64(id) && id in s.powers
    ensures !Keys.IsInt64(id) ==> r == Reply(StatusServerError, InternalError, s)
    ensures Keys.IsInt64(id) && id !in s.powers ==> r.status == StatusNotFound && r.body == Error(PowerNotFound)
    ensures Keys.IsInt64(id) && id in s.powers ==> r.body == PowerDetail(SummarizePower(s, id))
  {
    if !Keys.IsInt64(id) then Reply(StatusServerError, InternalError, s)
    else if id !in s.powers then Reply(StatusNotFound, Error(PowerNotFound), s)
    else Reply(StatusOk, PowerDetail(SummarizePower(s, id)), s)
  }

  /** The request carries a description the validator accepts. */
  predicate AcceptableDescription(payload: Payload) {
    "description" in payload && payload["description"].Text? && DescriptionOk(payload["description"].s)
  }

  /**
    PATCH /powers/<id>: the power is looked up before the body is read, so an
    unknown id is 404 whatever the body holds. A missing or rejected
    description is 400 with the store rolled back; an accepted one replaces
    that power's description and nothing else. An id the driver cannot bind
    makes the lookup raise outside the `try`: 500.
   */
  function UpdatePower(s: Store, id: int, payload: Payload): (r: Reply)
    ensures !Keys.IsInt64(id) ==> r == Reply(StatusServerError, InternalError, s)
    ensures Keys.IsInt64(id) && id !in s.powers ==> r == Reply(StatusNotFound, Error(PowerNotFound), s)
    ensures Keys.IsInt64(id) && id in s.powers && "description" !in payload ==>
      r == Reply(StatusBadRequest, Errors([DescriptionRequired]), s)
    ensures Keys.IsInt64(id) && id in s.powers && "description" in payload && !AcceptableDescription(payload) ==>
      && r.status == StatusBadRequest && r.store == s
      && r.body == Errors([Invalid(ValidateDescriptionValue(payload["description"]).error)])
    ensures r.status == StatusOk <==> Keys.IsInt64(id) && id in s.powers && AcceptableDescription(payload)
    ensures r.status != StatusOk ==> r.store == s
    ensures r.status == StatusOk ==>
      && r.store.heroes == s.heroes
      && r.store.heroPowers == s.heroPowers
      && r.store.powers.Keys == s.powers.Keys
      && (forall k :: k in s.powers && k != id ==> r.store.powers[k] == s.powers[k])
      && r.store.powers[id] == Power(s.powers[id].name, payload["description"].s)
      && r.body == PowerDetail(PowerSummary(id, s.powers[id].name, payload["description"].s))
    ensures Valid(s) ==> Valid(r.store)
  {
    if !Keys.IsInt64(id) then Reply(StatusServerError, InternalError, s)
    else if id !in s.powers then Reply(StatusNotFound, Error(PowerNotFound), s)
    else if "description" !in payload then Reply(StatusBadRequest, Errors([DescriptionRequired]), s)
    else
      match ValidateDescriptionValue(payload["description"])
      case Rejected(e) => Reply(StatusBadRequest, Errors([Invalid(e)]), s)
      case Accepted(d) =>
        var updated := s.powers[id].(description := d);
        Reply(StatusOk, PowerDetail(PowerSummary(id, updated.name, d)), s.(powers := s.powers[id := updated]))
  }

  /** The three fields POST /hero_powers demands are all present. */
  predicate HasLinkFields(payload: Payload) {
    "strength" in payload && "power_id" in payload && "hero_id" in payload
  }

  /** An id field holds an integer the driver cannot bind. */
  predicate OutOfRange(v: Value) {
    v.Integer? && !Keys.IsInt64(v.n)
  }

  /** The request would pass every check the code makes before its commit. */
  predicate InsertableLink(payload: Payload) {
    && HasLinkFields(payload)
    && payload["strength"].Text? && StrengthOk(payload["strength"].s)
    && payload["hero_id"].Integer? && Keys.IsInt64(payload["hero_id"].n)
    && payload["power_id"].Integer? && Keys.IsInt64(payload["power_id"].n)
  }

  /** An insertable link whose hero or power is not stored. */
  predicate Dangling(s: Store, payload: Payload) {
    InsertableLink(payload) &&
    (payload["hero_id"].n !in s.heroes || payload["power_id"].n !in s.powers)
  }

  /** The id fields, when present, are integers or null, never strings. */
  predicate IdsNotText(payload: Payload) {
    ("hero_id" in payload ==> !payload["hero_id"].Text?) &&
    ("power_id" in payload ==> !payload["power_id"].Text?)
  }

  /**
    POST /hero_powers as the code is written: the link is committed before
    its hero and power are fetched. SQLite does not enforce foreign keys
    unless a connection asks it to, and nothing in app.py or models.py does,
    so a link to a missing hero or power is stored; the lookup then yields
    None, reading its `.id` raises, and the handler answers 400 after a
    rollback that has nothing left to undo. An id outside 64 bits fails
    earlier, when the commit binds it, and that rollback does undo the link.
   */
  function CreateHeroPowerAsWritten(s: Store, payload: Payload): (r: Reply)
    requires IdsNotText(payload)
    ensures !HasLinkFields(payload) ==> r == Reply(StatusBadRequest, Errors([FieldsRequired]), s)
    ensures HasLinkFields(payload) && !(payload["strength"].Text? && StrengthOk(payload["strength"].s)) ==>
      r == Reply(StatusBadRequest, Errors([Invalid(StrengthNotAllowed)]), s)
    ensures HasLinkFields(payload) && (payload["hero_id"].Null? || payload["power_id"].Null?) ==>
      r.status == StatusBadRequest && r.store == s
    ensures
      (&& HasLinkFields(payload)
       && payload["strength"].Text? && StrengthOk(payload["strength"].s)
       && (OutOfRange(payload["hero_id"]) || OutOfRange(payload["power_id"]))) ==>
      r == Reply(StatusBadRequest, Errors([TooLarge]), s)
    ensures Dangling(s, payload) ==>
      && r == Reply(StatusBadRequest, Errors([NoneHasNoId]), r.store)
      && r.store.heroes == s.heroes && r.store.powers == s.powers
      && |r.store.heroPowers| == |s.heroPowers| + 1
      && r.store.heroPowers == s.heroPowers[Keys.FreshId(s.heroPowers.Keys) :=
           HeroPower(payload["strength"].s, payload["hero_id"].n, payload["power_id"].n)]
      && !LinksResolve(r.store)
    ensures r.status == StatusOk <==> InsertableLink(payload) && !Dangling(s, payload)
    ensures r.status == StatusOk ==>
      && r.body.LinkCreated?
      && r.body.link.id !in s.heroPowers
      && r.store.heroes == s.heroes && r.store.powers == s.powers
      && r.store.heroPowers == s.heroPowers[r.body.link.id :=
           HeroPower(payload["strength"].s, payload["hero_id"].n, payload["power_id"].n)]
      && r.body.link.hero == SummarizeHero(s, payload["hero_id"].n)
      && r.body.link.power == SummarizePower(s, payload["power_id"].n)
    ensures DescriptionsValid(s) && StrengthsValid(s) ==>
      DescriptionsValid(r.store) && StrengthsValid(r.store)
  {
    if !HasLinkFields(payload) then Reply(StatusBadRequest, Errors([FieldsRequired]), s)
    else
      match ValidateStrengthValue(payload["strength"])
      case Rejected(e) => Reply(StatusBadRequest, Errors([Invalid(e)]), s)
      case Accepted(strength) =>
        if OutOfRange(payload["hero_id"]) || OutOfRange(payload["power_id"]) then
          Reply(StatusBadRequest, Errors([TooLarge]), s)
        else if payload["hero_id"].Null? then Reply(StatusBadRequest, Errors([NotNull("hero_powers.hero_id")]), s)
        else if payload["power_id"].Null? then Reply(StatusBadRequest, Errors([NotNull("hero_powers.power_id")]), s)
        else
          var h := payload["hero_id"].n;
          var p := payload["power_id"].n;
          var k := Keys.FreshId(s.heroPowers.Keys);
          var committed := s.(heroPowers := s.heroPowers[k := HeroPower(strength, h, p)]);
          if h !in s.heroes || p !in s.powers then
            assert k in committed.heroPowers && committed.heroPowers[k].heroId == h;
            Reply(StatusBadRequest, Errors([NoneHasNoId]), committed)
          else
            Reply(StatusOk, LinkCreated(CreatedLink(k, h, p, strength, SummarizeHero(committed, h), SummarizePower(committed, p))), committed)
  }

  /**
    POST /hero_powers as evidently intended: every check, the foreign keys
    included, runs before anything is written, so any 400 leaves the store
    as it was. On success exactly one link is added, and the response nests
    the stored hero and power it points at.
   */
  function CreateHeroPower(s: Store, payload: Payload): (r: Reply)
    ensures !HasLinkFields(payload) ==> r == Reply(StatusBadRequest, Errors([FieldsRequired]), s)
    ensures HasLinkFields(payload) && !(payload["strength"].Text? && StrengthOk(payload["strength"].s)) ==>
      r == Reply(StatusBadRequest, Errors([Invalid(StrengthNotAllowed)]), s)
    ensures
      (&& HasLinkFields(payload)
       && payload["strength"].Text? && StrengthOk(payload["strength"].s)
       && (OutOfRange(payload["hero_id"]) || OutOfRange(payload["power_id"]))) ==>
      r == Reply(StatusBadRequest, Errors([TooLarge]), s)
    ensures r.status != StatusOk ==> r.status == StatusBadRequest && r.store == s
    ensures r.status == StatusOk <==>
      && InsertableLink(payload)
      && payload["hero_id"].n in s.heroes
      && payload["power_id"].n in s.powers
    ensures r.status == StatusOk ==> r.body.LinkCreated?
    ensures r.status == StatusOk ==>
      var link := r.body.link;
      && link.id !in s.heroPowers
      && link.strength == payload["strength"].s
      && link.heroId == payload["hero_id"].n
      && link.powerId == payload["power_id"].n
      && r.store.heroes == s.heroes && r.store.powers == s.powers
      && r.store.heroPowers.Keys == s.heroPowers.Keys + {link.id}
      && r.store.heroPowers[link.id] == HeroPower(link.strength, link.heroId, link.powerId)
      && (forall k :: k in s.heroPowers ==> r.store.heroPowers[k] == s.heroPowers[k])
      && link.hero == SummarizeHero(s, link.heroId)
      && link.power == SummarizePower(s, link.powerId)
    ensures Valid(s) ==> Valid(r.store)
  {
    if !HasLinkFields(payload) then Reply(StatusBadRequest, Errors([FieldsRequired]), s)
    else
      match ValidateStrengthValue(payload["strength"])
      case Rejected(e) => Reply(StatusBadRequest, Errors([Invalid(e)]), s)
      case Accepted(strength) =>
        if OutOfRange(payload["hero_id"]) || OutOfRange(payload["power_id"]) then
          Reply(StatusBadRequest, Errors([TooLarge]), s)
        else match (payload["hero_id"], payload["power_id"])
        case (Null, _) => Reply(StatusBadRequest, Errors([NotNull("hero_powers.hero_id")]), s)
        case (_, Null) => Reply(StatusBadRequest, Errors([NotNull("hero_powers.power_id")]), s)
        case (Integer(h), Integer(p)) =>
          if h !in s.heroes then Reply(StatusBadRequest, Errors([HeroNotFound]), s)
          else if p !in s.powers then Reply(StatusBadRequest, Errors([PowerNotFound]), s)
          else
            var k := Keys.FreshId(s.heroPowers.Keys);
            var stored := s.(heroPowers := s.heroPowers[k := HeroPower(strength, h, p)]);
            Reply(StatusOk, LinkCreated(CreatedLink(k, h, p, strength, SummarizeHero(stored, h), SummarizePower(stored, p))), stored)
        case (Text(_), _) => Reply(StatusBadRequest, Errors([HeroNotFound]), s)
        case (_, Text(_)) => Reply(StatusBadRequest, Errors([PowerNotFound]), s)
  }
}
