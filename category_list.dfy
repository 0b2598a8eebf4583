/**
 * The categories table: the shortened description shown per category and the products
 * shown as thumbnails in a category's row.
 */
module CategoryList {
  import opened Options
  import opened Seqs

  /** Descriptions longer than this are cut. */
  const ShortLength := 50
  const Ellipsis := "..."

  /**
   * The description cell: a missing description is shown as empty, one of at most 50
   * characters as it is, a longer one as its first 50 characters and `...`.
   */
  function ShortDescription(description: Option<string>): (r: string)
    ensures |r| <= ShortLength + |Ellipsis|
    ensures var d := description.GetOr("");
      var n := if |d| < ShortLength then |d| else ShortLength;
      n <= |r| && r[..n] == d[..n]
  {
    var d := description.GetOr("");
    if |d| > ShortLength then d[..ShortLength] + Ellipsis else d
  }

  lemma MissingDescription()
    ensures ShortDescription(None) == ""
  {
  }

  /** A description of at most 50 characters is shown unchanged. */
  lemma ShortDescriptionKept(description: string)
    requires |description| <= ShortLength
    ensures ShortDescription(Some(description)) == description
  {
  }

  /** A longer one becomes its first 50 characters followed by `...`, 53 characters in all. */
  lemma LongDescriptionCut(description: string)
    requires |description| > ShortLength
    ensures ShortDescription(Some(description)) == description[..ShortLength] + Ellipsis
    ensures |ShortDescription(Some(description))| == ShortLength + |Ellipsis|
  {
  }

  /** Shortening a shown description again changes nothing. */
  lemma ShortDescriptionIdempotent(description: Option<string>)
    ensures ShortDescription(Some(ShortDescription(description))) == ShortDescription(description)
  {
    var r := ShortDescription(description);
    if |r| > ShortLength {
      assert r[..ShortLength] == description.GetOr("")[..ShortLength];
    }
  }

  /** The product fields the row uses. */
  datatype Product = Product(id: int, name: string, imageUrl: string, categoryId: int)

  function InCategory(categoryId: int): Product -> bool {
    (product: Product) => product.categoryId == categoryId
  }

  /** `categoryProducts`: the products whose `categoryId` is the row's id. */
  function CategoryProducts(products: seq<Product>, categoryId: int): seq<Product> {
    Filter(products, InCategory(categoryId))
  }

  /**
   * A row shows exactly the products of its category: each as often as in the list, none of
   * another category, in the list's order.
   */
  lemma CategoryProductsSpec(products: seq<Product>, categoryId: int)
    ensures forall p :: p in CategoryProducts(products, categoryId) ==> p.categoryId == categoryId
    ensures forall p ::
      multiset(CategoryProducts(products, categoryId))[p] == (if p.categoryId == categoryId then multiset(products)[p] else 0)
    ensures IsSubsequence(CategoryProducts(products, categoryId), products)
  {
    FilterSatisfies(products, InCategory(categoryId));
    FilterMultiset(products, InCategory(categoryId));
    FilterIsSubsequence(products, InCategory(categoryId));
  }

  /** When every product is in the row's category, the row shows the whole list. */
  lemma CategoryProductsAll(products: seq<Product>, categoryId: int)
    requires forall i :: 0 <= i < |products| ==> products[i].categoryId == categoryId
    ensures CategoryProducts(products, categoryId) == products
  {
    FilterAllKept(products, InCategory(categoryId));
  }

  /** Rows of two lists joined show the rows of each list, one after the other. */
  lemma CategoryProductsConcat(a: seq<Product>, b: seq<Product>, categoryId: int)
    ensures CategoryProducts(a + b, categoryId) == CategoryProducts(a, categoryId) + CategoryProducts(b, categoryId)
  {
    FilterConcat(a, b, InCategory(categoryId));
  }
}
