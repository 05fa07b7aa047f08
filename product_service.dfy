/**
 * The product service: find, insert, update and delete over the product
 * table, with the deletion of a product that order items still reference
 * turned into a database error.
 */
module ProductServices {
  import opened Wrappers
  import opened Entities
  import opened ProductDto

  /** The two exceptions the service throws, with their messages. */
  datatype ServiceError = ResourceNotFound(message: string) | DatabaseError(message: string)

  const NotFoundMessage := "Recurso no encontrado"
  const IntegrityMessage := "Falla en la integridad referencial"

  /** The category associations rebuilt from DTO entries: a new category with only its id set. */
  function CategoryRefs(categories: seq<CategoryDTO>): set<Category>
  {
    set i | 0 <= i < |categories| :: Category(categories[i].id, None)
  }

  /** The record the service stores under `id` after copying `dto` onto it. */
  function Written(id: int, dto: ProductDTO): Product
  {
    Product(id, dto.name, dto.description, dto.price, dto.imgUrl, CategoryRefs(dto.categories))
  }

  /**
   * What a stored product promises once the boundary has validated the DTO it
   * was written from: the same constraints as the DTO's.
   */
  ghost predicate WellFormed(p: Product)
  {
    NameValid(p.name) && DescriptionValid(p.description) && PriceValid(p.price) && p.categories != {}
  }

  /**
   * Writing a DTO keeps the id and replaces everything else: the scalars become
   * the DTO's and the categories become exactly the DTO's category ids, with no
   * name resolved; no category of the previous record survives unless the DTO
   * names its id (replace, not merge).
   */
  lemma WrittenRecord(previous: Product, dto: ProductDTO)
    ensures var p := Written(previous.id, dto);
      && p.id == previous.id
      && p.name == dto.name && p.description == dto.description
      && p.price == dto.price && p.imgUrl == dto.imgUrl
      && CategoryIds(p.categories) == CategoryDtoIds(dto.categories)
      && (forall c :: c in p.categories ==> c.name == None)
      && (forall c :: c in previous.categories && c.id !in CategoryDtoIds(dto.categories) ==> c !in p.categories)
  {
    var p := Written(previous.id, dto);
    forall k | k in CategoryDtoIds(dto.categories)
      ensures k in CategoryIds(p.categories)
    {
      var e :| e in dto.categories && e.id == k;
      var i :| 0 <= i < |dto.categories| && dto.categories[i] == e;
      assert Category(k, None) in p.categories;
    }
  }

  /** A DTO that passes validation is written as a well-formed record. */
  lemma ValidDtoWritesWellFormed(id: int, dto: ProductDTO)
    requires IsValid(dto)
    ensures WellFormed(Written(id, dto))
  {
    assert Category(dto.categories[0].id, None) in Written(id, dto).categories;
  }

  /**
   * Reading back a record written from a valid DTO gives a DTO that passes
   * validation again and carries the id it was stored under, the DTO's
   * scalars and the DTO's category ids.
   */
  lemma ReadBackValid(id: int, dto: ProductDTO, d: ProductDTO)
    requires IsValid(dto)
    requires Projects(Written(id, dto), d)
    ensures IsValid(d)
    ensures d.id == Some(id)
    ensures d.name == dto.name && d.description == dto.description
    ensures d.price == dto.price && d.imgUrl == dto.imgUrl
    ensures CategoryDtoIds(d.categories) == CategoryDtoIds(dto.categories)
  {
    ValidDtoWritesWellFormed(id, dto);
    WrittenRecord(Product(id, None, None, None, None, {}), dto);
    ProjectionCategoryIds(Written(id, dto), d);
  }

  class ProductService {
    /** The product table, by id. */
    var products: map<int, Product>
    /** The ids of products that some order item refers to (the foreign key). */
    var referenced: set<int>

    ghost predicate Valid()
      reads this
    {
      && referenced <= products.Keys
      && forall id :: id in products ==> products[id].id == id
    }

    constructor (products: map<int, Product>, referenced: set<int>)
      requires referenced <= products.Keys
      requires forall id :: id in products ==> products[id].id == id
      ensures Valid()
      ensures this.products == products && this.referenced == referenced
    {
      this.products := products;
      this.referenced := referenced;
    }

    /** Looks a product up; an unknown id is a ResourceNotFound. */
    method FindById(id: int) returns (r: Result<ProductDTO, ServiceError>)
      requires Valid()
      ensures r.Success? <==> id in products
      ensures r.Success? ==> Projects(products[id], r.value)
      ensures r.Success? ==> r.value.id == Some(id)
      ensures r.Failure? ==> r.error == ResourceNotFound(NotFoundMessage)
    {
      if id !in products {
        return Failure(ResourceNotFound(NotFoundMessage));
      }
      var d := FromEntity(products[id]);
      return Success(d);
    }

    /**
     * Overwrites the entity's scalar fields with the DTO's, clears its
     * categories and adds one new category, carrying only the id, per DTO entry.
     */
    method CopyDtoToEntity(dto: ProductDTO, entity: Product) returns (e: Product)
      ensures e == Written(entity.id, dto)
    {
      e := entity.(name := dto.name, description := dto.description, price := dto.price, imgUrl := dto.imgUrl);
      e := e.(categories := {});
      for i := 0 to |dto.categories|
        invariant e == Written(entity.id, dto.(categories := dto.categories[..i]))
      {
        assert dto.categories[..i + 1] == dto.categories[..i] + [dto.categories[i]];
        e := e.(categories := e.categories + {Category(dto.categories[i].id, None)});
      }
      assert dto.categories[..|dto.categories|] == dto.categories;
    }

    /** Stores a new product, built from the DTO, under the id the database assigns. */
    method Insert(dto: ProductDTO, newId: int) returns (r: ProductDTO)
      requires Valid()
      requires newId !in products
      modifies this
      ensures Valid()
      ensures products == old(products)[newId := Written(newId, dto)]
      ensures referenced == old(referenced)
      ensures Projects(products[newId], r)
    {
      var entity := Product(newId, None, None, None, None, {});
      entity := CopyDtoToEntity(dto, entity);
      products := products[newId := entity];
      r := FromEntity(entity);
    }

    /** Overwrites an existing product with the DTO; an unknown id is a ResourceNotFound. */
    method Update(id: int, dto: ProductDTO) returns (r: Result<ProductDTO, ServiceError>)
      requires Valid()
      modifies this
      ensures Valid()
      ensures referenced == old(referenced)
      ensures id !in old(products) ==>
        r == Failure(ResourceNotFound(NotFoundMessage)) && products == old(products)
      ensures id in old(products) ==>
        && products == old(products)[id := Written(id, dto)]
        && r.Success? && Projects(products[id], r.value)
    {
      if id !in products {
        return Failure(ResourceNotFound(NotFoundMessage));
      }
      var entity := CopyDtoToEntity(dto, products[id]);
      products := products[id := entity];
      var d := FromEntity(entity);
      return Success(d);
    }

    /**
     * Deletes a product: an unknown id is a ResourceNotFound, a product still
     * referenced by an order item is a DatabaseError; either way nothing changes.
     */
    method Delete(id: int) returns (r: Outcome<ServiceError>)
      requires Valid()
      modifies this
      ensures Valid()
      ensures referenced == old(referenced)
      ensures id !in old(products) ==>
        r == Fail(ResourceNotFound(NotFoundMessage)) && products == old(products)
      ensures id in old(products) && id in old(referenced) ==>
        r == Fail(DatabaseError(IntegrityMessage)) && products == old(products)
      ensures id in old(products) && id !in old(referenced) ==>
        r == Pass && products == old(products) - {id}
    {
      if id !in products {
        return Fail(ResourceNotFound(NotFoundMessage));
      }
      if id in referenced {
        return Fail(DatabaseError(IntegrityMessage));
      }
      products := products - {id};
      return Pass;
    }
  }

  /** Deleting an unreferenced product makes a later lookup of it fail and keeps every other entry. */
  method DeleteThenFind(service: ProductService, id: int, other: int)
    returns (deleted: Outcome<ServiceError>, found: Result<ProductDTO, ServiceError>)
    requires service.Valid()
    requires id in service.products && id !in service.referenced
    requires other != id && other in service.products
    modifies service
    ensures deleted == Pass
    ensures found == Failure(ResourceNotFound(NotFoundMessage))
    ensures other in service.products && service.products[other] == old(service.products[other])
  {
    deleted := service.Delete(id);
    found := service.FindById(id);
  }

  /** Updating a product and reading it back returns the DTO's values under the same id. */
  method UpdateThenFind(service: ProductService, id: int, dto: ProductDTO)
    returns (found: Result<ProductDTO, ServiceError>)
    requires service.Valid()
    requires id in service.products
    requires IsValid(dto)
    modifies service
    ensures found.Success?
    ensures IsValid(found.value) && found.value.id == Some(id)
    ensures found.value.name == dto.name && found.value.price == dto.price
  {
    var updated := service.Update(id, dto);
    found := service.FindById(id);
    ReadBackValid(id, dto, found.value);
  }
}
