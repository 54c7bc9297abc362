/** The backend's user payload (UserDTO.java): a mutable object with three
    constructors and one setter per field. */
module UserDtos {
  import opened Common
  import opened BeanValidation

  datatype LocalDate = LocalDate(year: int, month: int, day: int)

  /** The stored user; `authorities` are the strings its granted
      authorities report, in iteration order. */
  datatype UserEntity = UserEntity(
    id: Option<int>,
    name: Option<string>,
    email: Option<string>,
    phone: Option<string>,
    birthDate: Option<LocalDate>,
    authorities: seq<string>)

  /** The state of one UserDto object, field by field. */
  datatype UserFields = UserFields(
    id: Option<int>,
    name: Option<string>,
    email: Option<string>,
    phone: Option<string>,
    birthDate: Option<LocalDate>,
    password: Option<string>,
    roles: seq<string>)

  /** @NotBlank and @Size(2, 80) on the name, @Email on the email; an email
      is checked only when present, by the given well-formedness test. */
  predicate ValidFields(f: UserFields, isEmail: string -> bool)
  {
    NotBlank(f.name) && SizeWithin(f.name, 2, Some(80)) && (f.email.None? || isEmail(f.email.value))
  }

  /** The 6-argument constructor's object: `this.name = name` assigns the
      field to itself, so the name stays null and firstName and lastName
      are never read. */
  function SixArgFields(id: Option<int>, firstName: Option<string>, lastName: Option<string>,
                        email: Option<string>, phone: Option<string>, birthDate: Option<LocalDate>): (f: UserFields)
    ensures f.id == id && f.email == email && f.phone == phone && f.birthDate == birthDate
    ensures f.name.None? && f.password.None? && f.roles == []
  {
    UserFields(id, None, email, phone, birthDate, None, [])
  }

  /** Whatever names are passed, a payload from the 6-argument constructor
      fails @NotBlank on its name. */
  lemma SixArgIsInvalid(id: Option<int>, firstName: Option<string>, lastName: Option<string>,
                        email: Option<string>, phone: Option<string>, birthDate: Option<LocalDate>,
                        isEmail: string -> bool)
    ensures !ValidFields(SixArgFields(id, firstName, lastName, email, phone, birthDate), isEmail)
  {
  }

  /** The entity constructor's object. */
  function EntityFields(entity: UserEntity): (f: UserFields)
    ensures f.id == entity.id && f.name == entity.name && f.email == entity.email
    ensures f.phone == entity.phone && f.birthDate == entity.birthDate
    ensures f.password.None? && f.roles == entity.authorities
  {
    UserFields(entity.id, entity.name, entity.email, entity.phone, entity.birthDate, None, entity.authorities)
  }

  /** A payload copied from an entity is valid exactly when the entity's own
      name and email are. */
  lemma EntityFieldsValidity(entity: UserEntity, isEmail: string -> bool)
    ensures ValidFields(EntityFields(entity), isEmail) <==>
      NotBlank(entity.name) && 2 <= |entity.name.value| <= 80 && (entity.email.None? || isEmail(entity.email.value))
  {
  }

  class UserDto {
    var id: Option<int>
    var name: Option<string>
    var email: Option<string>
    var phone: Option<string>
    var birthDate: Option<LocalDate>
    var password: Option<string>
    var roles: seq<string>

    function Fields(): UserFields
      reads this
    {
      UserFields(id, name, email, phone, birthDate, password, roles)
    }

    predicate Valid(isEmail: string -> bool)
      reads this
    {
      ValidFields(Fields(), isEmail)
    }

    /** `new UserDTO()`: every field null and an empty role list. */
    constructor ()
      ensures Fields() == UserFields(None, None, None, None, None, None, [])
    {
      id, name, email, phone, birthDate, password := None, None, None, None, None, None;
      roles := [];
    }

    constructor WithFields(id: Option<int>, firstName: Option<string>, lastName: Option<string>,
                           email: Option<string>, phone: Option<string>, birthDate: Option<LocalDate>)
      ensures Fields() == SixArgFields(id, firstName, lastName, email, phone, birthDate)
    {
      this.id := id;
      // the name is assigned to itself and keeps its initial null
      this.name := None;
      this.email := email;
      this.phone := phone;
      this.birthDate := birthDate;
      this.password := None;
      this.roles := [];
    }

    /** `new UserDTO(entity)`: the scalar fields, then one role string per
        granted authority, appended in order. */
    constructor FromEntity(entity: UserEntity)
      ensures Fields() == EntityFields(entity)
    {
      id := entity.id;
      name := entity.name;
      email := entity.email;
      phone := entity.phone;
      birthDate := entity.birthDate;
      password := None;
      roles := [];
      new;
      for i := 0 to |entity.authorities|
        invariant roles == entity.authorities[..i]
        invariant id == entity.id && name == entity.name && email == entity.email
        invariant phone == entity.phone && birthDate == entity.birthDate && password.None?
      {
        roles := roles + [entity.authorities[i]];
      }
    }

    method SetId(id: Option<int>)
      modifies this
      ensures Fields() == old(Fields()).(id := id)
    {
      this.id := id;
    }

    method SetName(name: Option<string>)
      modifies this
      ensures Fields() == old(Fields()).(name := name)
    {
      this.name := name;
    }

    method SetEmail(email: Option<string>)
      modifies this
      ensures Fields() == old(Fields()).(email := email)
    {
      this.email := email;
    }

    method SetPhone(phone: Option<string>)
      modifies this
      ensures Fields() == old(Fields()).(phone := phone)
    {
      this.phone := phone;
    }

    method SetBirthDate(birthDate: Option<LocalDate>)
      modifies this
      ensures Fields() == old(Fields()).(birthDate := birthDate)
    {
      this.birthDate := birthDate;
    }

    method SetPassword(password: Option<string>)
      modifies this
      ensures Fields() == old(Fields()).(password := password)
    {
      this.password := password;
    }

    method SetRoles(roles: seq<string>)
      modifies this
      ensures Fields() == old(Fields()).(roles := roles)
    {
      this.roles := roles;
    }
  }
}
