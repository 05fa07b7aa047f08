# dscommerce product catalogue, in Dafny

This project models the product catalogue of the dscommerce e-commerce
backend: the `ProductService` operations over the product table and the
`ProductDTO` data-transfer object with its bean-validation constraints and
its construction from a stored product.

- `wrappers.dfy` (module `Wrappers`): `Option` for Java `null`, `Result` and
  `Outcome` for operations that throw.
- `entities.dfy` (module `Entities`): the `Product` and `Category` records as
  values. A category built from a DTO carries only its id (`name == None`),
  as `new Category()` followed by `setId` does; the model's save stores the
  record as written, so the DTOs that `Insert` and `Update` return carry
  these id-only category entries too.
- `product_dto.dfy` (module `ProductDto`): the DTO, the validator
  `Violations` returning the set of (field, message) failures with the
  annotations' own messages, the field-by-field validity predicates it is
  proved against, and `FromEntity`, the loop that builds a DTO from a
  product. `String.trim` is modelled because `@NotBlank` rejects a string
  that is empty after trimming.
- `product_service.dfy` (module `ProductServices`): the class
  `ProductService` with the product table `products: map<int, Product>` and
  the set `referenced` of product ids that order items point to (the foreign
  key that makes a delete fail). Its invariant: every referenced id is in the
  table and every record's id is its key. `Written(id, dto)` is the record the
  service stores after copying a DTO; the lemmas about it state the
  replace-not-merge semantics of the category set and that a validated DTO
  reads back as a valid DTO.

Validation happens at the HTTP boundary, before the service is called; the
service itself accepts any DTO. The model keeps that split: the service
methods take any DTO, and `ValidDtoWritesWellFormed` and `ReadBackValid`
state what validation buys the stored records.

The service's `findAll` takes no name filter; the service does not validate
its input; a failed delete of a referenced product throws `DatabaseException`
with the message "Falla en la integridad referencial".

## Model

| member | source | states |
|---|---|---|
| `ProductServices.ProductService.FindById` | src/main/java/com/devsuperior/dscommerce/services/ProductService.java:31-35 | succeeds exactly when the id is in the table, and then returns a projection of the stored product whose id is the one asked for (same id, name, description, price, imgUrl, one entry per category); otherwise fails with ResourceNotFound("Recurso no encontrado") |
| `ProductServices.ProductService.CopyDtoToEntity` | src/main/java/com/devsuperior/dscommerce/services/ProductService.java:79-90 | the result keeps the entity's id, takes the DTO's name, description, price and imgUrl, and its categories are rebuilt from scratch, one id-only category per DTO entry |
| `ProductServices.ProductService.Insert` | src/main/java/com/devsuperior/dscommerce/services/ProductService.java:44-50 | adds exactly one entry, under the fresh id, written from the DTO; every earlier entry and the referenced set are unchanged; returns the projection of the new record |
| `ProductServices.ProductService.Update` | src/main/java/com/devsuperior/dscommerce/services/ProductService.java:53-64 | an absent id fails with ResourceNotFound("Recurso no encontrado") and leaves the table unchanged; an existing id has only its own entry replaced by the record written from the DTO, and the projection of that record is returned |
| `ProductServices.ProductService.Delete` | src/main/java/com/devsuperior/dscommerce/services/ProductService.java:67-77 | an absent id fails with ResourceNotFound and removes nothing; a referenced id fails with DatabaseError("Falla en la integridad referencial") and the product remains; otherwise succeeds and removes exactly that id; the invariant that referenced ids exist is kept |
| `ProductServices.WrittenRecord` | src/main/java/com/devsuperior/dscommerce/services/ProductService.java:79-90 | writing a DTO keeps the id, copies the four scalar fields, makes the category ids exactly the DTO's category ids with no names resolved, and drops every previous category whose id the DTO does not name (replace, not merge) |
| `ProductServices.ValidDtoWritesWellFormed` | src/main/java/com/devsuperior/dscommerce/services/ProductService.java:79-90 | a record written from a DTO that passes validation has a valid name and description, a positive price and at least one category |
| `ProductServices.ReadBackValid` | src/main/java/com/devsuperior/dscommerce/services/ProductService.java:55-59 | the projection of a record written from a valid DTO passes validation again and carries the stored id, the DTO's scalar fields and the DTO's category ids |
| `ProductServices.DeleteThenFind` | src/main/java/com/devsuperior/dscommerce/services/ProductService.java:67-72 | deleting an existing unreferenced product succeeds, a later lookup of it fails with ResourceNotFound, and any other entry is unchanged |
| `ProductServices.UpdateThenFind` | src/main/java/com/devsuperior/dscommerce/services/ProductService.java:53-59 | after updating an existing product with a valid DTO, looking it up returns a valid DTO with the same id and the DTO's name and price |
| `ProductDto.Blank` | src/main/java/com/devsuperior/dscommerce/dto/ProductDTO.java:24-28 | the no-argument constructor gives every field `None` and an empty category list |
| `ProductDto.WithFields` | src/main/java/com/devsuperior/dscommerce/dto/ProductDTO.java:30-36 | the five-argument constructor keeps the five fields as given and leaves the category list empty |
| `ProductDto.FromEntity` | src/main/java/com/devsuperior/dscommerce/dto/ProductDTO.java:38-47 | copies id, name, description, price and imgUrl unchanged and builds a list with exactly one entry, carrying id and name, per category of the product, without duplicates |
| `ProductDto.ProjectionCategoryIds` | src/main/java/com/devsuperior/dscommerce/dto/ProductDTO.java:44-46 | the ids in a projection's category list are exactly the product's category ids |
| `ProductDto.ProjectionUniqueUpToOrder` | src/main/java/com/devsuperior/dscommerce/dto/ProductDTO.java:38-47 | two projections of the same product agree on every scalar field and on the multiset of category entries; only the iteration order of the set may differ |
| `ProductDto.DistinctCount` | src/main/java/com/devsuperior/dscommerce/dto/ProductDTO.java:44-46 | in a list without duplicates every entry occurs exactly once |
| `ProductDto.UncategorisedProjectionRejected` | src/main/java/com/devsuperior/dscommerce/dto/ProductDTO.java:44-46 | the projection of a product with no categories fails the "Debe tener al menos una categoria" constraint |
| `ProductDto.TrimStart` | src/main/java/com/devsuperior/dscommerce/dto/ProductDTO.java:13 | the result is a suffix of the input starting with a character above the space, and every dropped character is at or below the space |
| `ProductDto.TrimEnd` | src/main/java/com/devsuperior/dscommerce/dto/ProductDTO.java:16 | the result is a prefix of the input ending with a character above the space, and every dropped character is at or below the space |
| `ProductDto.NotBlankIff` | src/main/java/com/devsuperior/dscommerce/dto/ProductDTO.java:12-17 | a string passes `@NotBlank` exactly when it has a character above the space |
| `ProductDto.NameViolations` | src/main/java/com/devsuperior/dscommerce/dto/ProductDTO.java:12-14 | the name can only fail with "3 a 80 caracteres" or "Campo requerido", both on field "name"; the size message appears exactly when a present name is outside 3 to 80 characters, the required message exactly when the name is null or blank |
| `ProductDto.DescriptionViolations` | src/main/java/com/devsuperior/dscommerce/dto/ProductDTO.java:15-17 | the description can only fail with "Minimo 10 caracteres" or "Campo requerido", both on field "description"; the size message appears exactly when a present description is shorter than 10 characters, the required message exactly when it is null or blank |
| `ProductDto.PriceViolations` | src/main/java/com/devsuperior/dscommerce/dto/ProductDTO.java:18-20 | the price can only fail with "Campo requerido" or "El precio debe ser positivo", both on field "price" |
| `ProductDto.CategoriesViolations` | src/main/java/com/devsuperior/dscommerce/dto/ProductDTO.java:23-24 | the category list can only fail with "Debe tener al menos una categoria" |
| `ProductDto.Violations` | src/main/java/com/devsuperior/dscommerce/dto/ProductDTO.java:11-24 | every failure names name, description, price or categories; id and imgUrl are never reported |
| `ProductDto.NameRule` | src/main/java/com/devsuperior/dscommerce/dto/ProductDTO.java:12-14 | the name passes exactly when it is present, non-blank and 3 to 80 characters long |
| `ProductDto.DescriptionRule` | src/main/java/com/devsuperior/dscommerce/dto/ProductDTO.java:15-17 | the description passes exactly when it is present, non-blank and at least 10 characters long |
| `ProductDto.PriceRule` | src/main/java/com/devsuperior/dscommerce/dto/ProductDTO.java:18-20 | the price passes exactly when present and strictly positive; a missing price fails with "Campo requerido" only, zero or a negative price with "El precio debe ser positivo" only |
| `ProductDto.ValidIff` | src/main/java/com/devsuperior/dscommerce/dto/ProductDTO.java:11-24 | the validator reports nothing exactly when name, description, price and categories are all valid |
| `ProductDto.ShortNameRejected` | src/main/java/com/devsuperior/dscommerce/dto/ProductDTO.java:12-14 | the name "ab" fails with "3 a 80 caracteres" and nothing else |
| `ProductDto.IdAndImgUrlIrrelevant` | src/main/java/com/devsuperior/dscommerce/dto/ProductDTO.java:11-21 | changing id or imgUrl never changes the validation result |
| `ProductDto.BlankIsInvalid` | src/main/java/com/devsuperior/dscommerce/dto/ProductDTO.java:24-28 | a default-constructed DTO fails with "Campo requerido" on name, description and price and with the category constraint |
| `ProductDto.WithFieldsIsInvalid` | src/main/java/com/devsuperior/dscommerce/dto/ProductDTO.java:30-36 | a DTO from the five-argument constructor always fails the category constraint |

## Left out

- `findAll`: paging is framework plumbing over a library page; name filtering does not exist in the service.
- Transactions, the lazy reference of `getReferenceById` and the extra `save` inside `copyDtoToEntity`: an update's not-found case is an explicit check, a save is one map update, and rollback is "table unchanged on error".
- ProductServices.ProductService.Insert: the returned category entries carry no names (`None`), because the resolution of id-only category references to stored categories (with their names) when the repository saves the entity is not modelled.
- ProductServices.ProductService.Update: the returned category entries carry no names (`None`), for the same reason: save's resolution of category references is not modelled.
- Fresh-id generation belongs to the database: `Insert` takes the new id as a parameter that is not yet in the table.
- Aliasing of the managed entity: the entity is a value, so the in-place mutation of a JPA-managed object becomes replacing one map entry.
- The category table and its foreign key: a DTO naming an unknown category id, or a null category id, is not modelled; categories are compared as whole values since Category.java is not part of this model.
- The order in which a `Set` is iterated is not modelled: `FromEntity` may emit the entries in any order.
- Order items and orders: `referenced` stands for them, and no operation here adds to it.
- Price is a `real`: Java `Double` rounding, NaN and infinities are not modelled.
- String lengths count Dafny characters, not UTF-16 code units; the `Integer.MAX_VALUE` default upper bound of `@Size` on the description is not modelled.
- HTTP status mapping, authentication, authorization, users and orders are outside this model.
