/** ProductService: create, read, update and delete over the product
    repository, which is a map from id to stored entity. Entities are
    values, so a setter on a managed entity becomes a new value stored
    under the same id. */
module ProductCatalog {
  import opened Common
  import opened ProductDtos
  import opened ServiceErrors

  /** copyDtoToEntity: the DTO's name, description, price and imgUrl
      replace the entity's; its id and categories stay. */
  function CopyDtoToEntity(dto: ProductDto, product: ProductEntity): (r: ProductEntity)
    ensures r.name == dto.name && r.description == dto.description
    ensures r.price == dto.price && r.imgUrl == dto.imgUrl
    ensures r.id == product.id && r.categories == product.categories
  {
    product.(name := dto.name, description := dto.description, price := dto.price, imgUrl := dto.imgUrl)
  }

  /** Copying the same DTO twice is copying it once. */
  lemma CopyIdempotent(dto: ProductDto, product: ProductEntity)
    ensures CopyDtoToEntity(dto, CopyDtoToEntity(dto, product)) == CopyDtoToEntity(dto, product)
  {
  }

  /** Copying an entity's own payload back onto it changes nothing. */
  lemma CopyOwnDtoIsIdentity(product: ProductEntity)
    ensures CopyDtoToEntity(EntityToDto(product), product) == product
  {
  }

  /** The entity `insert` saves: a fresh `new Product()` given the DTO's
      four fields, under the id the repository assigns. */
  function NewEntity(dto: ProductDto, id: int): ProductEntity
  {
    CopyDtoToEntity(dto, ProductEntity(Some(id), None, None, None, None, []))
  }

  /** Inserting never stores the DTO's categories, so the payload `insert`
      returns has none and fails the payload's own constraints. */
  lemma InsertDropsCategories(dto: ProductDto, id: int)
    ensures EntityToDto(NewEntity(dto, id)).categories == []
    ensures EntityToDto(NewEntity(dto, id)).id == Some(id)
    ensures !Valid(EntityToDto(NewEntity(dto, id)))
  {
  }

  /** findAll: one payload per result row, in the same order. */
  function FindAll(page: seq<ProductEntity>): (r: seq<ProductDto>)
    ensures |r| == |page|
    ensures forall i :: 0 <= i < |r| ==> r[i] == EntityToDto(page[i])
    ensures forall i :: 0 <= i < |r| ==>
      r[i].id == page[i].id && r[i].name == page[i].name && r[i].description == page[i].description &&
      r[i].price == page[i].price && r[i].imgUrl == page[i].imgUrl
  {
    seq(|page|, i requires 0 <= i < |page| => EntityToDto(page[i]))
  }

  /** Every payload in a page carries the category list of its row. */
  lemma FindAllKeepsCategories(page: seq<ProductEntity>, i: nat)
    requires i < |page|
    ensures |FindAll(page)[i].categories| == |page[i].categories|
  {
  }

  class ProductService {
    var products: map<int, ProductEntity>
    /** The id the repository assigns to the next saved product. */
    var nextId: int

    /** Each product is stored under its own id, and fresh ids are unused. */
    ghost predicate Valid()
      reads this
    {
      (forall id :: id in products ==> products[id].id == Some(id)) &&
      (forall id :: id in products ==> id < nextId)
    }

    constructor ()
      ensures products == map[] && Valid()
    {
      products := map[];
      nextId := 1;
    }

    /** findById: the stored product's payload, or ResourceNotFound. */
    function FindById(id: int): (r: Result<ProductDto, ServiceError>)
      reads this
      ensures r.Ok? <==> id in products
      ensures r.Ok? ==> r.value == EntityToDto(products[id])
      ensures r.Err? ==> r.error == ResourceNotFound(NotFoundFor(id))
    {
      if id in products then Ok(EntityToDto(products[id])) else Err(ResourceNotFound(NotFoundFor(id)))
    }

    /** insert: one new product with the DTO's four fields under a fresh id. */
    method Insert(dto: ProductDto) returns (r: ProductDto)
      requires Valid()
      modifies this
      ensures Valid()
      ensures old(nextId) !in old(products)
      ensures products == old(products)[old(nextId) := NewEntity(dto, old(nextId))]
      ensures r == EntityToDto(NewEntity(dto, old(nextId)))
      ensures FindById(old(nextId)) == Ok(r)
    {
      var product := NewEntity(dto, nextId);
      products := products[nextId := product];
      nextId := nextId + 1;
      r := EntityToDto(product);
    }

    /** update: overwrite the four copied fields of an existing product;
        an unknown id is ResourceNotFound and changes nothing. */
    method Update(id: int, dto: ProductDto) returns (r: Result<ProductDto, ServiceError>)
      requires Valid()
      modifies this
      ensures Valid()
      ensures nextId == old(nextId)
      ensures r.Ok? <==> id in old(products)
      ensures id in old(products) ==>
        products == old(products)[id := CopyDtoToEntity(dto, old(products)[id])]
      ensures id in old(products) ==> r == Ok(EntityToDto(products[id]))
      ensures id !in old(products) ==> products == old(products)
      ensures id !in old(products) ==> r == Err(ResourceNotFound(NotFoundFor(id)))
    {
      if id in products {
        var product := CopyDtoToEntity(dto, products[id]);
        products := products[id := product];
        r := Ok(EntityToDto(product));
      } else {
        r := Err(ResourceNotFound(NotFoundFor(id)));
      }
    }

    /** delete: an unknown id is ResourceNotFound; a referential-integrity
        violation, given as `integrityViolation`, is DatabaseFailure; either
        way nothing changes. Otherwise exactly that product goes. */
    method Delete(id: int, integrityViolation: bool) returns (r: Result<(), ServiceError>)
      requires Valid()
      modifies this
      ensures Valid()
      ensures nextId == old(nextId)
      ensures r.Ok? <==> id in old(products) && !integrityViolation
      ensures r.Ok? ==> products == old(products) - {id}
      ensures r.Err? ==> products == old(products)
      ensures id !in old(products) ==> r == Err(ResourceNotFound(NotFoundFor(id)))
      ensures id in old(products) && integrityViolation ==> r == Err(DatabaseFailure(IntegrityText))
    {
      if id !in products {
        r := Err(ResourceNotFound(NotFoundFor(id)));
      } else if integrityViolation {
        r := Err(DatabaseFailure(IntegrityText));
      } else {
        products := products - {id};
        r := Ok(());
      }
    }
  }
}
