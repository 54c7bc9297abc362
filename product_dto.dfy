/** The backend's product payload (ProductDTO.java): its Bean Validation
    constraints as a predicate and its two constructors. Java's nullable
    references are Options; the Double price is integer cents. */
module ProductDtos {
  import opened Common
  import opened BeanValidation

  datatype CategoryEntity = CategoryEntity(id: int, name: Option<string>)

  datatype ProductEntity = ProductEntity(
    id: Option<int>,
    name: Option<string>,
    description: Option<string>,
    price: Option<int>,
    imgUrl: Option<string>,
    categories: seq<CategoryEntity>)

  /** CategoryDTO carries the category's id and name. */
  datatype CategoryDto = CategoryDto(id: int, name: Option<string>)

  datatype ProductDto = ProductDto(
    id: Option<int>,
    name: Option<string>,
    description: Option<string>,
    price: Option<int>,
    imgUrl: Option<string>,
    categories: seq<CategoryDto>)

  predicate ValidName(name: Option<string>)
  {
    SizeWithin(name, 3, Some(80)) && NotBlank(name)
  }

  predicate ValidDescription(description: Option<string>)
  {
    SizeWithin(description, 10, None) && NotBlank(description)
  }

  /** @NotNull and @Positive. */
  predicate ValidPrice(price: Option<int>)
  {
    price.Some? && price.value > 0
  }

  /** Every constraint on the class; imgUrl and id are unconstrained. */
  predicate Valid(dto: ProductDto)
  {
    ValidName(dto.name) && ValidDescription(dto.description) && ValidPrice(dto.price) && |dto.categories| > 0
  }

  /** What the constraints amount to on present values. */
  lemma ValidMeans(dto: ProductDto)
    ensures Valid(dto) <==>
      dto.name.Some? && 3 <= |dto.name.value| <= 80 && NotBlank(dto.name) &&
      dto.description.Some? && |dto.description.value| >= 10 && NotBlank(dto.description) &&
      dto.price.Some? && dto.price.value > 0 && dto.categories != []
  {
  }

  /** A name of three spaces has the right length but is blank. */
  lemma BlankNameRejected()
    ensures !ValidName(Some("   "))
  {
  }

  /** Control characters are stripped by trim too, so three of them make a
      blank name, while one visible character among them does not. */
  lemma ControlNameRejected()
    ensures !ValidName(Some([1 as char, 1 as char, 1 as char]))
    ensures ValidName(Some([1 as char, 'a', 1 as char]))
  {
    assert [1 as char, 'a', 1 as char][1] == 'a';
  }

  /** The 5-argument constructor: the fields as given, no categories. */
  function WithFields(id: Option<int>, name: Option<string>, description: Option<string>,
                      price: Option<int>, imgUrl: Option<string>): (dto: ProductDto)
    ensures dto.id == id && dto.name == name && dto.description == description
    ensures dto.price == price && dto.imgUrl == imgUrl
    ensures !Valid(dto)
  {
    ProductDto(id, name, description, price, imgUrl, [])
  }

  function CategoryToDto(c: CategoryEntity): CategoryDto
  {
    CategoryDto(c.id, c.name)
  }

  /** The entity constructor's result. */
  function EntityToDto(entity: ProductEntity): (dto: ProductDto)
    ensures dto.id == entity.id && dto.name == entity.name && dto.description == entity.description
    ensures dto.price == entity.price && dto.imgUrl == entity.imgUrl
    ensures |dto.categories| == |entity.categories|
    ensures forall i :: 0 <= i < |dto.categories| ==> dto.categories[i].id == entity.categories[i].id
  {
    ProductDto(entity.id, entity.name, entity.description, entity.price, entity.imgUrl,
               seq(|entity.categories|, i requires 0 <= i < |entity.categories| => CategoryToDto(entity.categories[i])))
  }

  /** `new ProductDTO(entity)`: copies the fields, then appends one category
      payload per entity category. */
  method FromEntity(entity: ProductEntity) returns (dto: ProductDto)
    ensures dto == EntityToDto(entity)
  {
    var categories: seq<CategoryDto> := [];
    for i := 0 to |entity.categories|
      invariant |categories| == i
      invariant forall k :: 0 <= k < i ==> categories[k] == CategoryToDto(entity.categories[k])
    {
      categories := categories + [CategoryToDto(entity.categories[i])];
    }
    dto := ProductDto(entity.id, entity.name, entity.description, entity.price, entity.imgUrl, categories);
  }

  /** A payload built from an entity is valid exactly when the entity's own
      fields would pass the constraints. */
  lemma EntityDtoValidity(entity: ProductEntity)
    ensures Valid(EntityToDto(entity)) <==>
      ValidName(entity.name) && ValidDescription(entity.description) && ValidPrice(entity.price)
      && entity.categories != []
  {
  }
}
