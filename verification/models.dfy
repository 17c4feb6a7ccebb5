/**
  The three entities of the service, their field validators and the rules the
  relationships declare (server/models.py).

  A Hero and a Power each own the HeroPower links that point at them; a link
  names exactly one hero and one power and carries a strength rating. The
  database is modelled as a record of three maps from primary key to row.
  Rows do not repeat their own key: the map key is the row's `id`.
 */
module Models {
  import Keys

  /** A Python value as it arrives from a JSON request body. */
  datatype Value = Text(s: string) | Integer(n: int) | Null

  datatype Hero = Hero(name: string, superName: string)

  datatype Power = Power(name: string, description: string)

  datatype HeroPower = HeroPower(strength: string, heroId: int, powerId: int)

  datatype Store = Store(
    heroes: map<int, Hero>,
    powers: map<int, Power>,
    heroPowers: map<int, HeroPower>)

  const MinDescriptionLength: nat := 20

  /** The allowed strength ratings, in the order the error message lists them. */
  const ValidStrengths: seq<string> := ["Strong", "Weak", "Average"]

  /** The strength a link gets when it is created through `Hero.powers`. */
  const DefaultStrength: string := "Average"

  /** The exceptions the validators raise. */
  datatype ValidationError =
    | DescriptionEmpty
    | DescriptionTooShort
    | DescriptionHasNoLength  // a non-zero integer has no len()
    | StrengthNotAllowed

  /** The text `str(e)` gives for each validation failure. */
  function Message(e: ValidationError): string {
    match e
    case DescriptionEmpty => "Description cannot be empty"
    case DescriptionTooShort => "Description must be at least 20 characters long"
    case DescriptionHasNoLength => "object of type 'int' has no len()"
    case StrengthNotAllowed => "Strength must be one of: Strong, Weak, Average"
  }

  /** What a validator does with a value: hands it back, or raises. */
  datatype Checked<T> = Accepted(value: T) | Rejected(error: ValidationError)

  /** The description rule on its own terms: at least 20 characters. */
  predicate DescriptionOk(d: string) {
    |d| >= MinDescriptionLength
  }

  /** The strength rule on its own terms: one of three exact, case-sensitive words. */
  predicate StrengthOk(s: string) {
    s == "Strong" || s == "Weak" || s == "Average"
  }

  /**
    `Power.validate_description` on a string: the emptiness test comes first,
    then the length test; a description that passes both is stored as given.
   */
  function ValidateDescription(d: string): (r: Checked<string>)
    ensures r.Accepted? <==> DescriptionOk(d)
    ensures r.Accepted? ==> r.value == d
    ensures |d| == 0 ==> r == Rejected(DescriptionEmpty)
    ensures 0 < |d| && !DescriptionOk(d) ==> r == Rejected(DescriptionTooShort)
  {
    if |d| == 0 then Rejected(DescriptionEmpty)
    else if |d| < MinDescriptionLength then Rejected(DescriptionTooShort)
    else Accepted(d)
  }

  /**
    `Power.validate_description` on whatever the request body held. `None` and
    `0` are falsy and fail the emptiness test; any other integer fails in
    `len()`.
   */
  function ValidateDescriptionValue(v: Value): (r: Checked<string>)
    ensures r.Accepted? <==> v.Text? && DescriptionOk(v.s)
    ensures r.Accepted? ==> r.value == v.s
    ensures v.Null? ==> r == Rejected(DescriptionEmpty)
  {
    match v
    case Text(d) => ValidateDescription(d)
    case Null => Rejected(DescriptionEmpty)
    case Integer(n) => if n == 0 then Rejected(DescriptionEmpty) else Rejected(DescriptionHasNoLength)
  }

  /** `HeroPower.validate_strength` on a string: membership in the allowed list. */
  function ValidateStrength(s: string): (r: Checked<string>)
    ensures r.Accepted? <==> StrengthOk(s)
    ensures r.Accepted? ==> r.value == s
    ensures r.Rejected? ==> r.error == StrengthNotAllowed
  {
    if s in ValidStrengths then Accepted(s) else Rejected(StrengthNotAllowed)
  }

  /** `HeroPower.validate_strength` on whatever the request body held: no
      non-string is in the allowed list. */
  function ValidateStrengthValue(v: Value): (r: Checked<string>)
    ensures r.Accepted? <==> v.Text? && StrengthOk(v.s)
    ensures r.Accepted? ==> r.value == v.s
    ensures r.Rejected? ==> r.error == StrengthNotAllowed
  {
    match v
    case Text(s) => ValidateStrength(s)
    case _ => Rejected(StrengthNotAllowed)
  }

  /** Every stored description passed the description validator. */
  predicate DescriptionsValid(s: Store) {
    forall k :: k in s.powers ==> DescriptionOk(s.powers[k].description)
  }

  /** Every stored strength passed the strength validator. */
  predicate StrengthsValid(s: Store) {
    forall k :: k in s.heroPowers ==> StrengthOk(s.heroPowers[k].strength)
  }

  /** Every link names a stored hero and a stored power. */
  predicate LinksResolve(s: Store) {
    forall k :: k in s.heroPowers ==>
      s.heroPowers[k].heroId in s.heroes && s.heroPowers[k].powerId in s.powers
  }

  /** The store invariant the validators and foreign keys together promise. */
  predicate Valid(s: Store) {
    DescriptionsValid(s) && StrengthsValid(s) && LinksResolve(s)
  }

  /** The keys of the links that belong to hero `h` (`hero.hero_powers`). */
  function LinksOfHero(s: Store, h: int): set<int> {
    set k | k in s.heroPowers && s.heroPowers[k].heroId == h
  }

  /** The keys of the links that belong to power `p` (`power.hero_powers`). */
  function LinksOfPower(s: Store, p: int): set<int> {
    set k | k in s.heroPowers && s.heroPowers[k].powerId == p
  }

  /**
    Deleting a hero: the `all, delete-orphan` cascade removes the hero's links
    with it and nothing else.
   */
  function DeleteHero(s: Store, h: int): (r: Store)
    ensures h !in r.heroes
    ensures r.heroes.Keys == s.heroes.Keys - {h}
    ensures forall k :: k in r.heroes ==> r.heroes[k] == s.heroes[k]
    ensures r.powers == s.powers
    ensures forall k :: k in r.heroPowers <==> k in s.heroPowers && k !in LinksOfHero(s, h)
    ensures forall k :: k in r.heroPowers ==> r.heroPowers[k] == s.heroPowers[k]
    ensures Valid(s) ==> Valid(r)
  {
    Store(
      s.heroes - {h},
      s.powers,
      map k | k in s.heroPowers && s.heroPowers[k].heroId != h :: s.heroPowers[k])
  }

  /**
    Deleting a power: the `all, delete-orphan` cascade removes the power's
    links with it and nothing else.
   */
  function DeletePower(s: Store, p: int): (r: Store)
    ensures p !in r.powers
    ensures r.powers.Keys == s.powers.Keys - {p}
    ensures forall k :: k in r.powers ==> r.powers[k] == s.powers[k]
    ensures r.heroes == s.heroes
    ensures forall k :: k in r.heroPowers <==> k in s.heroPowers && k !in LinksOfPower(s, p)
    ensures forall k :: k in r.heroPowers ==> r.heroPowers[k] == s.heroPowers[k]
    ensures Valid(s) ==> Valid(r)
  {
    Store(
      s.heroes,
      s.powers - {p},
      map k | k in s.heroPowers && s.heroPowers[k].powerId != p :: s.heroPowers[k])
  }

  /**
    `hero.powers.append(power)`: the association proxy's creator wraps the
    power in a new link rated "Average", which the strength validator accepts.
   */
  function AppendPower(s: Store, h: int, p: int): (r: Store)
    requires h in s.heroes && p in s.powers
    ensures r.heroes == s.heroes && r.powers == s.powers
    ensures s.heroPowers.Keys < r.heroPowers.Keys
    ensures |r.heroPowers| == |s.heroPowers| + 1
    ensures forall k :: k in s.heroPowers ==> r.heroPowers[k] == s.heroPowers[k]
    ensures forall k :: k in r.heroPowers && k !in s.heroPowers ==>
      && r.heroPowers[k] == HeroPower(DefaultStrength, h, p)
      && ValidateStrength(r.heroPowers[k].strength) == Accepted(r.heroPowers[k].strength)
    ensures Valid(s) ==> Valid(r)
  {
    var k := Keys.FreshId(s.heroPowers.Keys);
    s.(heroPowers := s.heroPowers[k := HeroPower(DefaultStrength, h, p)])
  }
}
