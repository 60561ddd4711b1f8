/** Users (`UserModel`), the city list (`City`) and the per-user car lookup. */
module Users {
  import opened Wrappers
  import opened Seqs

  /** The supported cities. */
  datatype City = Ufa | Yekaterinburg {
    function RawValue(): string {
      match this
      case Ufa => "ufa"
      case Yekaterinburg => "yekaterinburg"
    }

    function Id(): (s: string)
      ensures s == RawValue()
    {
      RawValue()
    }

    /** The Russian name shown to the user. */
    function DisplayName(): (name: string)
      ensures this == Ufa ==> name == "Уфа"
      ensures this == Yekaterinburg ==> name == "Екатеринбург"
    {
      match this
      case Ufa => "Уфа"
      case Yekaterinburg => "Екатеринбург"
    }
  }

  /** Cities are told apart by their ids and by their display names. */
  lemma CityNamesDistinct(a: City, b: City)
    ensures a.Id() == b.Id() <==> a == b
    ensures a.DisplayName() == b.DisplayName() <==> a == b
  {
    if a != b {
      assert a.Id()[0] != b.Id()[0];
      assert a.DisplayName()[0] != b.DisplayName()[0];
    }
  }

  /** A user profile; dates are seconds on the reference clock. */
  datatype User = User(
    userId: string,
    dateCreated: Option<int>,
    didCompleteOnboarding: Option<bool>,
    fullName: string,
    emailAddress: string,
    city: City,
    phoneNumber: Option<string>,
    userImage: Option<string>)
  {
    function Id(): (s: string)
      ensures s == userId
    {
      userId
    }
  }

  /** `x ?? fallback`. */
  function OrElse<T>(x: Option<T>, fallback: T): T {
    if x.Some? then x.value else fallback
  }

  /** `Optional ?? Optional`: the first value present, if any. */
  function FirstOf<T>(x: Option<T>, y: Option<T>): (r: Option<T>)
    ensures x.Some? ==> r == x
    ensures x.None? ==> r == y
  {
    if x.Some? then x else y
  }

  /** `updating(...)`: a copy with every supplied field replaced; `userId` and `dateCreated` are kept. */
  function Updating(u: User, fullName: Option<string>, emailAddress: Option<string>, city: Option<City>,
                    phoneNumber: Option<string>, userImage: Option<string>, didCompleteOnboarding: Option<bool>): (r: User)
    ensures r.userId == u.userId && r.dateCreated == u.dateCreated
    ensures fullName.Some? ==> r.fullName == fullName.value
    ensures fullName.None? ==> r.fullName == u.fullName
    ensures emailAddress.Some? ==> r.emailAddress == emailAddress.value
    ensures emailAddress.None? ==> r.emailAddress == u.emailAddress
    ensures city.Some? ==> r.city == city.value
    ensures city.None? ==> r.city == u.city
    ensures phoneNumber.Some? ==> r.phoneNumber == phoneNumber
    ensures phoneNumber.None? ==> r.phoneNumber == u.phoneNumber
    ensures userImage.Some? ==> r.userImage == userImage
    ensures userImage.None? ==> r.userImage == u.userImage
    ensures didCompleteOnboarding.Some? ==> r.didCompleteOnboarding == didCompleteOnboarding
    ensures didCompleteOnboarding.None? ==> r.didCompleteOnboarding == u.didCompleteOnboarding
  {
    User(u.userId, u.dateCreated, FirstOf(didCompleteOnboarding, u.didCompleteOnboarding),
         OrElse(fullName, u.fullName), OrElse(emailAddress, u.emailAddress), OrElse(city, u.city),
         FirstOf(phoneNumber, u.phoneNumber), FirstOf(userImage, u.userImage))
  }

  /** `updating()` with no arguments is the identity. */
  lemma UpdatingNothing(u: User)
    ensures Updating(u, None, None, None, None, None, None) == u
  {
  }

  /** An optional field that is set stays set: `updating` has no way to clear it. */
  lemma UpdatingNeverClears(u: User, fullName: Option<string>, emailAddress: Option<string>, city: Option<City>,
                            phoneNumber: Option<string>, userImage: Option<string>, didCompleteOnboarding: Option<bool>)
    ensures var r := Updating(u, fullName, emailAddress, city, phoneNumber, userImage, didCompleteOnboarding);
      && (u.phoneNumber.Some? ==> r.phoneNumber.Some?)
      && (u.userImage.Some? ==> r.userImage.Some?)
      && (u.didCompleteOnboarding.Some? ==> r.didCompleteOnboarding.Some?)
  {
  }

  /** Two updates in a row are one update where the later arguments win. */
  lemma UpdatingCompose(u: User,
                        f1: Option<string>, e1: Option<string>, c1: Option<City>, p1: Option<string>, i1: Option<string>, d1: Option<bool>,
                        f2: Option<string>, e2: Option<string>, c2: Option<City>, p2: Option<string>, i2: Option<string>, d2: Option<bool>)
    ensures Updating(Updating(u, f1, e1, c1, p1, i1, d1), f2, e2, c2, p2, i2, d2)
         == Updating(u, FirstOf(f2, f1), FirstOf(e2, e1), FirstOf(c2, c1), FirstOf(p2, p1), FirstOf(i2, i1), FirstOf(d2, d1))
  {
  }

  /** `UserModel.mocks`, with `Date()` supplied as `now`. */
  function Mocks(now: int): (r: seq<User>)
    ensures |r| == 3
    ensures forall i, j :: 0 <= i < j < |r| ==> r[i].Id() != r[j].Id()
  {
    [ User("user_01", Some(now), Some(true), "Benji Loya", "benjiloya@example.com", Yekaterinburg,
           Some("+971 50 123 4567"), Some("https://picsum.photos/200/200")),
      User("user_02", Some(now - 86400 * 3), Some(true), "Emily Johnson", "emily.j@example.com", Yekaterinburg,
           Some("+971 52 654 3210"), Some("https://picsum.photos/200/210")),
      User("user_03", Some(now - 76400 * 7), Some(true), "Michael Brown", "michael.brown@example.com", Ufa,
           Some("+971 55 876 5432"), Some("https://picsum.photos/200/220")) ]
  }

  /** `UserModel.mock`. */
  function Mock(now: int): (u: User)
    ensures u == Mocks(now)[1] && u.userId == "user_02"
  {
    Mocks(now)[1]
  }

  /** The part of a car record the lookup reads. */
  datatype Car = Car(id: string, userId: string, brand: string, model: string, year: int)

  function OwnedBy(userId: string): Car -> bool {
    (c: Car) => c.userId == userId
  }

  /** `cars(for:)` over a given car list: exactly the user's cars, in list order. */
  function CarsFor(cars: seq<Car>, userId: string): (r: seq<Car>)
    ensures forall c :: c in r <==> c in cars && c.userId == userId
    ensures IsSubsequence(r, cars)
  {
    Filter(cars, OwnedBy(userId))
  }
}
