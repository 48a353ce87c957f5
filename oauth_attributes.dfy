/** The mapping from an OAuth2 provider's user-info attributes to the
    application's user (domain/user/dto/OAuthAttributes.java). Attribute maps
    are JSON-like: a value is a string, a nested map, or anything else. */
module OAuth {
  import opened Base
  import opened Users

  /** A value of the provider's attribute map (Map<String, Object>). */
  datatype AttrValue =
    | Text(text: string)
    | Nested(entries: map<string, AttrValue>)
    | Other                                   // a number, a boolean, a list, ...

  type Attributes = map<string, AttrValue>

  datatype OAuthAttributes = OAuthAttributes(
    attributes: Attributes,
    nameAttributeKey: Option<string>,
    name: Option<string>,
    email: Option<string>,
    picture: Option<string>)

  /** The supported providers, in declaration order. */
  datatype SocialType = GOOGLE | NAVER

  function RegistrationId(t: SocialType): string
  {
    match t
    case GOOGLE => "google"
    case NAVER => "naver"
  }

  /** SocialType.find: the first provider whose registration id equals the
      argument; any other id throws IllegalArgumentException. */
  function Find(registrationId: string): (r: Result<SocialType>)
    ensures r == Ok(GOOGLE) <==> registrationId == "google"
    ensures r == Ok(NAVER) <==> registrationId == "naver"
    ensures r.Throw? <==> registrationId != "google" && registrationId != "naver"
    ensures r.Throw? ==> r.error == IllegalArgument
  {
    if RegistrationId(GOOGLE) == registrationId then Ok(GOOGLE)
    else if RegistrationId(NAVER) == registrationId then Ok(NAVER)
    else Throw(IllegalArgument)
  }

  /** Every provider is found again from its own registration id. */
  lemma FindRegistrationId(t: SocialType)
    ensures Find(RegistrationId(t)) == Ok(t)
  {
  }

  /** (String) attributes.get(key): null when absent, the string when it is
      one, ClassCastException otherwise. */
  function GetString(attributes: Attributes, key: string): (r: Result<Option<string>>)
    ensures key !in attributes ==> r == Ok(None)
    ensures key in attributes && attributes[key].Text? ==> r == Ok(Some(attributes[key].text))
    ensures r.Throw? <==> key in attributes && !attributes[key].Text?
    ensures r.Throw? ==> r.error == ClassCast
  {
    if key !in attributes then Ok(None)
    else match attributes[key]
      case Text(s) => Ok(Some(s))
      case _ => Throw(ClassCast)
  }

  /** The builder chain name(..).email(..).picture(..).attributes(..): the
      three casts in that order, the first failing one throws. */
  function Build(source: Attributes, nameKey: string, emailKey: string, pictureKey: string, attributes: Attributes)
    : (r: Result<OAuthAttributes>)
    ensures r.Ok? <==> GetString(source, nameKey).Ok? && GetString(source, emailKey).Ok? && GetString(source, pictureKey).Ok?
    ensures r.Ok? ==> r.value == OAuthAttributes(attributes, None, GetString(source, nameKey).value,
                                                 GetString(source, emailKey).value, GetString(source, pictureKey).value)
    ensures r.Throw? ==> r.error == ClassCast
  {
    match GetString(source, nameKey)
    case Throw(e) => Throw(e)
    case Ok(name) =>
      match GetString(source, emailKey)
      case Throw(e) => Throw(e)
      case Ok(email) =>
        match GetString(source, pictureKey)
        case Throw(e) => Throw(e)
        case Ok(picture) => Ok(OAuthAttributes(attributes, None, name, email, picture))
  }

  /** The provider's `from` mapper. GOOGLE reads name, email and picture at
      the top level and keeps the whole map; NAVER reads name, email and
      profile_image from the nested "response" map and keeps that map. A
      missing "response" dereferences null; a non-map one fails the cast. */
  function From(t: SocialType, attributes: Attributes): (r: Result<OAuthAttributes>)
    ensures t == GOOGLE ==> r == Build(attributes, "name", "email", "picture", attributes)
    ensures t == NAVER && "response" !in attributes ==> r == Throw(NullPointer)
    ensures t == NAVER && "response" in attributes && !attributes["response"].Nested? ==> r == Throw(ClassCast)
    ensures t == NAVER && "response" in attributes && attributes["response"].Nested? ==>
              var response := attributes["response"].entries;
              r == Build(response, "name", "email", "profile_image", response)
  {
    match t
    case GOOGLE => Build(attributes, "name", "email", "picture", attributes)
    case NAVER =>
      if "response" !in attributes then Throw(NullPointer)
      else match attributes["response"]
        case Nested(response) => Build(response, "name", "email", "profile_image", response)
        case _ => Throw(ClassCast)
  }

  /** SocialType.extract: the mapper's result with nameAttributeKey set to the argument. */
  function Extract(t: SocialType, nameAttributeKey: string, attributes: Attributes): (r: Result<OAuthAttributes>)
    ensures r.Ok? <==> From(t, attributes).Ok?
    ensures r.Throw? ==> r.error == From(t, attributes).error
    ensures r.Ok? ==> r.value == From(t, attributes).value.(nameAttributeKey := Some(nameAttributeKey))
  {
    match From(t, attributes)
    case Throw(e) => Throw(e)
    case Ok(extracted) =>
      Ok(OAuthAttributes(extracted.attributes, Some(nameAttributeKey), extracted.name, extracted.email, extracted.picture))
  }

  /** OAuthAttributes.of: find the provider, then extract. */
  function Of(registrationId: string, userNameAttributeName: string, attributes: Attributes): (r: Result<OAuthAttributes>)
    ensures Find(registrationId).Throw? ==> r == Throw(IllegalArgument)
    ensures Find(registrationId).Ok? ==> r == Extract(Find(registrationId).value, userNameAttributeName, attributes)
  {
    match Find(registrationId)
    case Throw(e) => Throw(e)
    case Ok(t) => Extract(t, userNameAttributeName, attributes)
  }

  /** toEntity: a USER with the extracted name, e-mail and picture. */
  function ToEntity(a: OAuthAttributes): (u: User)
    ensures u.name == a.name && u.email == a.email && u.picture == a.picture && u.role == USER
  {
    User(a.name, a.email, a.picture, USER)
  }

  /** A Google login whose name, email and picture are strings yields those
      three, the whole attribute map and the given name key, and the user
      built from it carries the same e-mail. */
  lemma GoogleLogin(nameKey: string, attributes: Attributes, name: string, email: string, picture: string)
    requires "name" in attributes && attributes["name"] == Text(name)
    requires "email" in attributes && attributes["email"] == Text(email)
    requires "picture" in attributes && attributes["picture"] == Text(picture)
    ensures Of("google", nameKey, attributes) ==
              Ok(OAuthAttributes(attributes, Some(nameKey), Some(name), Some(email), Some(picture)))
    ensures ToEntity(Of("google", nameKey, attributes).value) == User(Some(name), Some(email), Some(picture), USER)
  {
  }

  /** A Naver login reads the nested "response" map: its name, email and
      profile_image become the user's, and the nested map, not the outer one,
      is kept as the attributes. */
  lemma NaverLogin(nameKey: string, attributes: Attributes, response: Attributes, name: string, email: string, picture: string)
    requires "response" in attributes && attributes["response"] == Nested(response)
    requires "name" in response && response["name"] == Text(name)
    requires "email" in response && response["email"] == Text(email)
    requires "profile_image" in response && response["profile_image"] == Text(picture)
    ensures Of("naver", nameKey, attributes) ==
              Ok(OAuthAttributes(response, Some(nameKey), Some(name), Some(email), Some(picture)))
    ensures ToEntity(Of("naver", nameKey, attributes).value) == User(Some(name), Some(email), Some(picture), USER)
  {
  }

  /** Missing attributes are not an error: they come through as null. */
  lemma MissingFieldsAreNull(t: SocialType, nameKey: string)
    ensures t == GOOGLE ==> Extract(t, nameKey, map[]) == Ok(OAuthAttributes(map[], Some(nameKey), None, None, None))
    ensures t == NAVER ==> Extract(t, nameKey, map["response" := Nested(map[])]) ==
                             Ok(OAuthAttributes(map[], Some(nameKey), None, None, None))
  {
  }
}
