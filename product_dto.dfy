/**
 * The product data-transfer object: its bean-validation constraints, as a
 * validator returning the set of (field, message) failures, and its
 * construction from a stored product.
 */
module ProductDto {
  import opened Wrappers
  import opened Entities

  datatype CategoryDTO = CategoryDTO(id: int, name: Option<string>)

  datatype ProductDTO = ProductDTO(
    id: Option<int>,
    name: Option<string>,
    description: Option<string>,
    price: Option<real>,
    imgUrl: Option<string>,
    categories: seq<CategoryDTO>)

  /** One field-level validation failure. */
  datatype FieldMessage = FieldMessage(fieldName: string, message: string)

  // ---------------------------------------------------------------------------
  // Constructors
  // ---------------------------------------------------------------------------

  /** The no-argument constructor: every field null, an empty category list. */
  function Blank(): (d: ProductDTO)
    ensures d.id.None? && d.name.None? && d.description.None? && d.price.None? && d.imgUrl.None?
    ensures d.categories == []
  {
    ProductDTO(None, None, None, None, None, [])
  }

  /** The five-argument constructor: the category list keeps its empty initial value. */
  function WithFields(id: Option<int>, name: Option<string>, description: Option<string>,
                      price: Option<real>, imgUrl: Option<string>): (d: ProductDTO)
    ensures d.id == id && d.name == name && d.description == description
    ensures d.price == price && d.imgUrl == imgUrl
    ensures d.categories == []
  {
    ProductDTO(id, name, description, price, imgUrl, [])
  }

  /** The category entry built from a category association: it carries the id and the name. */
  function FromCategory(c: Category): CategoryDTO
  {
    CategoryDTO(c.id, c.name)
  }

  /** The category ids a list of category entries names. */
  function CategoryDtoIds(categories: seq<CategoryDTO>): set<int>
  {
    set e | e in categories :: e.id
  }

  ghost predicate Distinct<T>(s: seq<T>)
  {
    forall i, j :: 0 <= i < j < |s| ==> s[i] != s[j]
  }

  /**
   * `d` is what the entity constructor builds from `p`: the scalar fields are
   * copied and the category list holds exactly one entry per category of `p`,
   * in some iteration order of the set.
   */
  ghost predicate Projects(p: Product, d: ProductDTO)
  {
    && d.id == Some(p.id)
    && d.name == p.name
    && d.description == p.description
    && d.price == p.price
    && d.imgUrl == p.imgUrl
    && |d.categories| == |p.categories|
    && Distinct(d.categories)
    && (forall c :: c in p.categories ==> FromCategory(c) in d.categories)
    && (forall e :: e in d.categories ==> Category(e.id, e.name) in p.categories)
  }

  /** The entity constructor: copy the scalars, then append one entry per category. */
  method FromEntity(p: Product) returns (d: ProductDTO)
    ensures Projects(p, d)
  {
    var categories: seq<CategoryDTO> := [];
    var rest := p.categories;
    while rest != {}
      invariant rest <= p.categories
      invariant |categories| + |rest| == |p.categories|
      invariant Distinct(categories)
      invariant forall c :: c in p.categories ==> (FromCategory(c) in categories <==> c !in rest)
      invariant forall e :: e in categories ==> Category(e.id, e.name) in p.categories
      decreases rest
    {
      var c :| c in rest;
      categories := categories + [FromCategory(c)];
      rest := rest - {c};
    }
    d := ProductDTO(Some(p.id), p.name, p.description, p.price, p.imgUrl, categories);
  }

  /** The projection carries exactly the product's category ids. */
  lemma ProjectionCategoryIds(p: Product, d: ProductDTO)
    requires Projects(p, d)
    ensures CategoryDtoIds(d.categories) == CategoryIds(p.categories)
  {
  }

  lemma {:induction false} DistinctCount<T>(s: seq<T>, x: T)
    requires Distinct(s)
    ensures multiset(s)[x] == if x in s then 1 else 0
  {
    if s != [] {
      assert s == [s[0]] + s[1..];
      assert Distinct(s[1..]);
      DistinctCount(s[1..], x);
      if x == s[0] {
        assert x !in s[1..] by {
          forall k | 0 <= k < |s[1..]| ensures s[1..][k] != x {
            assert s[1..][k] == s[k + 1];
          }
        }
      }
    }
  }

  /** Two projections of one product differ at most in the order of their category entries. */
  lemma ProjectionUniqueUpToOrder(p: Product, d1: ProductDTO, d2: ProductDTO)
    requires Projects(p, d1) && Projects(p, d2)
    ensures d1.(categories := []) == d2.(categories := [])
    ensures multiset(d1.categories) == multiset(d2.categories)
  {
    forall e
      ensures multiset(d1.categories)[e] == multiset(d2.categories)[e]
    {
      DistinctCount(d1.categories, e);
      DistinctCount(d2.categories, e);
      if e in d1.categories {
        assert FromCategory(Category(e.id, e.name)) == e;
      }
      if e in d2.categories {
        assert FromCategory(Category(e.id, e.name)) == e;
      }
    }
  }

  // ---------------------------------------------------------------------------
  // Validation constraints
  // ---------------------------------------------------------------------------

  const RequiredMessage := "Campo requerido"
  const NameSizeMessage := "3 a 80 caracteres"
  const DescriptionSizeMessage := "Minimo 10 caracteres"
  const PositiveMessage := "El precio debe ser positivo"
  const CategoriesMessage := "Debe tener al menos una categoria"

  /** Leading characters at or below the space character dropped, as `String.trim` does. */
  function TrimStart(s: string): (t: string)
    ensures |t| <= |s| && t == s[|s| - |t|..]
    ensures |t| > 0 ==> t[0] > ' '
    ensures forall i :: 0 <= i < |s| - |t| ==> s[i] <= ' '
  {
    if |s| > 0 && s[0] <= ' ' then TrimStart(s[1..]) else s
  }

  /** Trailing characters at or below the space character dropped, as `String.trim` does. */
  function TrimEnd(s: string): (t: string)
    ensures |t| <= |s| && t == s[..|t|]
    ensures |t| > 0 ==> t[|t| - 1] > ' '
    ensures forall i :: |t| <= i < |s| ==> s[i] <= ' '
  {
    if |s| > 0 && s[|s| - 1] <= ' ' then TrimEnd(s[..|s| - 1]) else s
  }

  function Trim(s: string): string
  {
    TrimEnd(TrimStart(s))
  }

  /** `@NotBlank`: not null, and something is left after trimming. */
  predicate NotBlank(s: Option<string>)
  {
    s.Some? && |Trim(s.value)| > 0
  }

  /** `@Size(min, max)`: null passes; otherwise the length lies in [min, max]. */
  predicate SizeBetween(s: Option<string>, min: nat, max: nat)
  {
    s.None? || min <= |s.value| <= max
  }

  /** `@Size(min)`: null passes; otherwise the length is at least min. */
  predicate SizeAtLeast(s: Option<string>, min: nat)
  {
    s.None? || min <= |s.value|
  }

  /** `@Positive`: null passes; otherwise strictly greater than zero. */
  predicate Positive(x: Option<real>)
  {
    x.None? || x.value > 0.0
  }

  function NameViolations(name: Option<string>): (r: set<FieldMessage>)
    ensures r <= {FieldMessage("name", NameSizeMessage), FieldMessage("name", RequiredMessage)}
    ensures FieldMessage("name", NameSizeMessage) in r <==> name.Some? && !(3 <= |name.value| <= 80)
    ensures FieldMessage("name", RequiredMessage) in r <==> !NotBlank(name)
  {
    (if SizeBetween(name, 3, 80) then {} else {FieldMessage("name", NameSizeMessage)})
    + (if NotBlank(name) then {} else {FieldMessage("name", RequiredMessage)})
  }

  function DescriptionViolations(description: Option<string>): (r: set<FieldMessage>)
    ensures r <= {FieldMessage("description", DescriptionSizeMessage), FieldMessage("description", RequiredMessage)}
    ensures FieldMessage("description", DescriptionSizeMessage) in r <==> description.Some? && |description.value| < 10
    ensures FieldMessage("description", RequiredMessage) in r <==> !NotBlank(description)
  {
    (if SizeAtLeast(description, 10) then {} else {FieldMessage("description", DescriptionSizeMessage)})
    + (if NotBlank(description) then {} else {FieldMessage("description", RequiredMessage)})
  }

  function PriceViolations(price: Option<real>): (r: set<FieldMessage>)
    ensures r <= {FieldMessage("price", RequiredMessage), FieldMessage("price", PositiveMessage)}
  {
    (if price.Some? then {} else {FieldMessage("price", RequiredMessage)})
    + (if Positive(price) then {} else {FieldMessage("price", PositiveMessage)})
  }

  /** `@NotEmpty` on the category list. */
  function CategoriesViolations(categories: seq<CategoryDTO>): (r: set<FieldMessage>)
    ensures r <= {FieldMessage("categories", CategoriesMessage)}
  {
    if |categories| > 0 then {} else {FieldMessage("categories", CategoriesMessage)}
  }

  /** Every constraint failure of a DTO; `id` and `imgUrl` carry none. */
  function Violations(d: ProductDTO): (r: set<FieldMessage>)
    ensures forall m :: m in r ==> m.fieldName in {"name", "description", "price", "categories"}
  {
    var name, description := NameViolations(d.name), DescriptionViolations(d.description);
    var price, categories := PriceViolations(d.price), CategoriesViolations(d.categories);
    assert forall m :: m in name ==> m.fieldName == "name";
    assert forall m :: m in description ==> m.fieldName == "description";
    assert forall m :: m in price ==> m.fieldName == "price";
    assert forall m :: m in categories ==> m.fieldName == "categories";
    name + description + price + categories
  }

  // ---------------------------------------------------------------------------
  // The constraints, stated field by field, and their agreement with the validator
  // ---------------------------------------------------------------------------

  ghost predicate HasVisibleChar(s: string)
  {
    exists i :: 0 <= i < |s| && s[i] > ' '
  }

  ghost predicate NameValid(name: Option<string>)
  {
    name.Some? && 3 <= |name.value| <= 80 && HasVisibleChar(name.value)
  }

  ghost predicate DescriptionValid(description: Option<string>)
  {
    description.Some? && 10 <= |description.value| && HasVisibleChar(description.value)
  }

  ghost predicate PriceValid(price: Option<real>)
  {
    price.Some? && price.value > 0.0
  }

  ghost predicate IsValid(d: ProductDTO)
  {
    NameValid(d.name) && DescriptionValid(d.description) && PriceValid(d.price) && |d.categories| > 0
  }

  /** A string is blank for `@NotBlank` exactly when it has no character above the space. */
  lemma NotBlankIff(s: string)
    ensures NotBlank(Some(s)) <==> HasVisibleChar(s)
  {
  }

  lemma NameRule(name: Option<string>)
    ensures NameViolations(name) == {} <==> NameValid(name)
  {
  }

  lemma DescriptionRule(description: Option<string>)
    ensures DescriptionViolations(description) == {} <==> DescriptionValid(description)
  {
  }

  lemma PriceRule(price: Option<real>)
    ensures PriceViolations(price) == {} <==> PriceValid(price)
    ensures price.None? ==> PriceViolations(price) == {FieldMessage("price", RequiredMessage)}
    ensures price.Some? && price.value <= 0.0 ==> PriceViolations(price) == {FieldMessage("price", PositiveMessage)}
  {
  }

  /** The validator finds nothing exactly when every field constraint holds. */
  lemma ValidIff(d: ProductDTO)
    ensures Violations(d) == {} <==> IsValid(d)
  {
  }

  /** A two-character name such as "ab" fails the size constraint only. */
  lemma ShortNameRejected()
    ensures NameViolations(Some("ab")) == {FieldMessage("name", NameSizeMessage)}
  {
  }

  /** Neither the id nor the image URL affects validation. */
  lemma IdAndImgUrlIrrelevant(d: ProductDTO, id: Option<int>, imgUrl: Option<string>)
    ensures Violations(d.(id := id, imgUrl := imgUrl)) == Violations(d)
  {
  }

  /** A default-constructed DTO fails the required-field and category constraints. */
  lemma BlankIsInvalid()
    ensures Violations(Blank()) == {
      FieldMessage("name", RequiredMessage), FieldMessage("description", RequiredMessage),
      FieldMessage("price", RequiredMessage), FieldMessage("categories", CategoriesMessage)}
  {
  }

  /** The five-argument constructor leaves the categories empty, so its result is never valid. */
  lemma WithFieldsIsInvalid(id: Option<int>, name: Option<string>, description: Option<string>,
                            price: Option<real>, imgUrl: Option<string>)
    ensures FieldMessage("categories", CategoriesMessage) in Violations(WithFields(id, name, description, price, imgUrl))
  {
  }

  /** Projecting a product that has no categories yields a DTO the validator rejects. */
  lemma UncategorisedProjectionRejected(p: Product, d: ProductDTO)
    requires Projects(p, d) && p.categories == {}
    ensures FieldMessage("categories", CategoriesMessage) in Violations(d)
  {
  }
}
