/** `UserProfile`: the signed-in user, decoded from an object whose name sits in a nested object. */
module UserProfiles {
  import opened Wrappers
  import opened Json

  datatype UserProfile = UserProfile(id: int, email: string, firstName: string, lastName: string)

  /** `init(from:)`: `id` and `email` at top level, the two names inside the nested "name" object. */
  function Decode(v: Value): Result<UserProfile, DecodingError> {
    var c :- KeyedContainer(v);
    var id :- DecodeInt(c, "id");
    var email :- DecodeString(c, "email");
    var name :- NestedContainer(c, "name");
    var firstName :- DecodeString(name, "firstname");
    var lastName :- DecodeString(name, "lastname");
    Ok(UserProfile(id, email, firstName, lastName))
  }

  /** The members a server sends for `u`; the decoder's partner. */
  function Fields(u: UserProfile, extraName: Container): Container {
    map[
      "id" := Number(u.id as real),
      "email" := Str(u.email),
      "name" := Object(extraName + map["firstname" := Str(u.firstName), "lastname" := Str(u.lastName)])]
  }

  /** The names come from `name.firstname` and `name.lastname`, the rest from top-level keys. */
  lemma DecodeReadsKeys(v: Value, u: UserProfile)
    requires Decode(v) == Ok(u)
    ensures v.Object?
    ensures "id" in v.fields && v.fields["id"] == Number(u.id as real)
    ensures "email" in v.fields && v.fields["email"] == Str(u.email)
    ensures "name" in v.fields && v.fields["name"].Object?
    ensures "firstname" in v.fields["name"].fields && v.fields["name"].fields["firstname"] == Str(u.firstName)
    ensures "lastname" in v.fields["name"].fields && v.fields["name"].fields["lastname"] == Str(u.lastName)
  {
    DecodeIntAccepts(v.fields, "id");
  }

  /** Any other members, at either level, are ignored: the object decodes back to `u`. */
  lemma DecodeFields(u: UserProfile, extra: Container, extraName: Container)
    requires IsInt(u.id)
    ensures Decode(Object(extra + Fields(u, extraName))) == Ok(u)
  {
    DecodeIntOfInt(extra + Fields(u, extraName), "id", u.id);
  }

  /** Without a nested "name" object decoding fails, even if the names sit at top level. */
  lemma DecodeNeedsNameObject(fields: Container)
    requires "name" !in fields || !fields["name"].Object?
    ensures Decode(Object(fields)).Err?
  {
  }

  /** A nested object missing either name makes decoding fail. */
  lemma DecodeNeedsBothNames(fields: Container, name: Container)
    requires "name" in fields && fields["name"] == Object(name)
    requires "firstname" !in name || "lastname" !in name
    ensures Decode(Object(fields)).Err?
  {
  }

  /** `UserProfile.sample`. */
  function Sample(): (u: UserProfile)
    ensures u.id == 1 && u.firstName == "Pedro" && u.lastName == "Rojas"
  {
    UserProfile(1, "hello@demo.com", "Pedro", "Rojas")
  }

  /** `UserProfile.default`: the placeholder shown before a profile is fetched. */
  function Default(): (u: UserProfile)
    ensures u.id == 0 && u.email == [] && u.firstName == [] && u.lastName == []
  {
    UserProfile(0, "", "", "")
  }
}
